/** Sequences of calls into the contract. The host runs one call at a time to
    completion, so a history is a list of create and donate calls applied in
    order; the three variants share `create_campaign` and differ in
    `donate_to_campaign`. */
module Runs {
  import opened Campaigns
  import Registry
  import RegistryTwo
  import RegistryNow

  datatype Variant = Lib | Two | Now

  /** One external call with its host inputs. For `Now`, `sender` and `value`
      are the explicit donator and amount arguments. */
  datatype Call =
    | CreateCall(now: nat, owner: Address, title: string, description: string,
                 target: nat, deadline: nat, image: string)
    | DonateCall(now: nat, id: nat, sender: Address, value: nat)

  /** The call stays within uint256 arithmetic on the paths where it adds. */
  predicate StepFits(v: Variant, st: Store, call: Call)
  {
    match call
    case CreateCall(now, _, _, _, _, deadline, _) => now < deadline ==> st.count + 1 < WORD
    case DonateCall(now, id, _, value) =>
      var c := Lookup(st.campaigns, id);
      match v
      case Lib => Registry.Admits(c, now, value) ==> c.amountCollected + value < WORD
      case Two => true
      case Now => RegistryNow.Open(c, now) ==> c.amountCollected + value < WORD
  }

  function Step(v: Variant, st: Store, call: Call): Store
    requires StepFits(v, st, call)
  {
    match call
    case CreateCall(now, owner, title, description, target, deadline, image) =>
      Registry.Create(st, now, owner, title, description, target, deadline, image).0
    case DonateCall(now, id, sender, value) =>
      match v
      case Lib => Registry.Donate(st, id, now, sender, value).0
      case Two => RegistryTwo.Donate(st, id, now, sender, value).0
      case Now => RegistryNow.Donate(st, id, now, value, sender).0
  }

  predicate RunFits(v: Variant, st: Store, calls: seq<Call>)
    decreases |calls|
  {
    calls == [] || (StepFits(v, st, calls[0]) && RunFits(v, Step(v, st, calls[0]), calls[1..]))
  }

  /** The state after applying `calls` in order. */
  function Run(v: Variant, st: Store, calls: seq<Call>): Store
    requires RunFits(v, st, calls)
    decreases |calls|
  {
    if calls == [] then st else Run(v, Step(v, st, calls[0]), calls[1..])
  }

  /** A donate call of src/now.rs made after time 0, or to an existing id. */
  predicate Timely(st: Store, call: Call)
  {
    call.DonateCall? ==> call.id < st.count || 0 < call.now
  }

  predicate RunTimely(st: Store, calls: seq<Call>)
    requires RunFits(Now, st, calls)
    decreases |calls|
  {
    calls == [] || (Timely(st, calls[0]) && RunTimely(Step(Now, st, calls[0]), calls[1..]))
  }

  /** Under src/lib.rs every reachable registry is well formed: ids are
      contiguous from 0, histories are parallel and every total is the sum
      of its donations. */
  lemma {:induction false} LibRunWellFormed(st: Store, calls: seq<Call>)
    requires WellFormed(st) && RunFits(Lib, st, calls)
    ensures WellFormed(Run(Lib, st, calls))
    decreases |calls|
  {
    if calls != [] {
      match calls[0] {
        case CreateCall(now, owner, title, description, target, deadline, image) =>
          Registry.CreatePreservesWellFormed(st, now, owner, title, description, target, deadline, image);
        case DonateCall(now, id, sender, value) =>
          Registry.DonatePreservesWellFormed(st, id, now, sender, value);
      }
      LibRunWellFormed(Step(Lib, st, calls[0]), calls[1..]);
    }
  }

  /** Under src/two.rs no campaign ever collects anything: starting from an
      empty history, every record keeps a zero total and two empty vectors,
      whatever creates and donations happen; the counter grows by at most the
      number of calls. */
  lemma {:induction false} TwoRunRecordsNothing(st: Store, calls: seq<Call>)
    requires RegistryTwo.NoHistory(st) && RunFits(Two, st, calls)
    ensures RegistryTwo.NoHistory(Run(Two, st, calls))
    ensures st.count <= Run(Two, st, calls).count <= st.count + |calls|
    decreases |calls|
  {
    if calls != [] {
      match calls[0] {
        case CreateCall(now, owner, title, description, target, deadline, image) =>
          RegistryTwo.CreateKeepsNoHistory(st, now, owner, title, description, target, deadline, image);
        case DonateCall(_, _, _, _) =>
      }
      TwoRunRecordsNothing(Step(Two, st, calls[0]), calls[1..]);
    }
  }

  /** Under src/now.rs the registry stays well formed as long as no donation
      targets a missing id at time 0. */
  lemma {:induction false} NowRunWellFormed(st: Store, calls: seq<Call>)
    requires WellFormed(st) && RunFits(Now, st, calls) && RunTimely(st, calls)
    ensures WellFormed(Run(Now, st, calls))
    decreases |calls|
  {
    if calls != [] {
      match calls[0] {
        case CreateCall(now, owner, title, description, target, deadline, image) =>
          Registry.CreatePreservesWellFormed(st, now, owner, title, description, target, deadline, image);
        case DonateCall(now, id, sender, value) =>
          RegistryNow.DonatePreservesWellFormed(st, id, now, value, sender);
      }
      NowRunWellFormed(Step(Now, st, calls[0]), calls[1..]);
    }
  }
}
