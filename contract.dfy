/** The `CrowdFunding` contract object: the two storage fields, updated in
    place by the entry points, and the read-only views. Each entry point is
    proved to do exactly what the matching transition of `Registry`,
    `RegistryTwo` or `RegistryNow` describes. */
module Contract {
  import opened Campaigns
  import Registry
  import RegistryTwo
  import RegistryNow

  /** 2^64: `as_limbs()[0]` keeps the low 64 bits of a uint256. */
  const LIMB: nat := 0x1_0000_0000_0000_0000

  /** 2^32: the range of `usize` on the 32-bit WebAssembly target. */
  const USIZE: nat := 0x1_0000_0000

  /** The eight parallel vectors `get_campaigns` of src/lib.rs returns. */
  datatype Columns = Columns(
    owners: seq<Address>,
    titles: seq<string>,
    descriptions: seq<string>,
    targets: seq<nat>,
    deadlines: seq<nat>,
    images: seq<string>,
    donators: seq<seq<Address>>,
    donations: seq<seq<nat>>)

  /** `cols` lists the records with ids 0 to n - 1, in that order, field by field. */
  predicate Tabulates(cols: Columns, campaigns: map<nat, Campaign>, n: nat)
  {
    && |cols.owners| == n && |cols.titles| == n && |cols.descriptions| == n
    && |cols.targets| == n && |cols.deadlines| == n && |cols.images| == n
    && |cols.donators| == n && |cols.donations| == n
    && forall i :: 0 <= i < n ==>
         var c := Lookup(campaigns, i);
         && cols.owners[i] == c.owner && cols.titles[i] == c.title
         && cols.descriptions[i] == c.description && cols.targets[i] == c.target
         && cols.deadlines[i] == c.deadline && cols.images[i] == c.image
         && (cols.donators[i], cols.donations[i]) == DonorListing(c)
  }

  /** The loop that `get_donators` (src/lib.rs, src/two.rs) and `get_campaigns`
      (src/lib.rs) run over one record: for each index of `donators`, copy the
      donor, and the donation at that index when there is one. */
  method CopyHistory(c: Campaign) returns (donators: seq<Address>, donations: seq<nat>)
    ensures (donators, donations) == DonorListing(c)
    ensures Consistent(c) ==> donators == c.donators && donations == c.donations
  {
    donators, donations := [], [];
    var i := 0;
    while i < |c.donators|
      invariant i <= |c.donators|
      invariant donators == c.donators[..i]
      invariant donations == c.donations[..Min(i, |c.donations|)]
    {
      donators := donators + [c.donators[i]];
      if i < |c.donations| {
        donations := donations + [c.donations[i]];
      }
      i := i + 1;
    }
    assert c.donators[..i] == c.donators;
    if Consistent(c) {
      assert c.donations[..|c.donations|] == c.donations;
    }
  }

  class CrowdFunding {
    var count: nat
    var campaigns: map<nat, Campaign>

    /** The storage as a value. */
    function State(): Store
      reads this
    {
      Store(count, campaigns)
    }

    /** A freshly deployed contract: no campaign, every key blank. */
    constructor ()
      ensures State() == Empty && WellFormed(State())
    {
      count := 0;
      campaigns := map[];
    }

    /** `create_campaign`; `now` is `block::timestamp()`. */
    method CreateCampaign(now: nat, owner: Address, title: string, description: string,
                          target: nat, deadline: nat, image: string) returns (id: nat)
      requires now < deadline ==> count + 1 < WORD
      modifies this
      ensures (State(), id) == Registry.Create(old(State()), now, owner, title, description, target, deadline, image)
      ensures old(WellFormed(State())) ==> WellFormed(State())
    {
      if WellFormed(State()) {
        Registry.CreatePreservesWellFormed(State(), now, owner, title, description, target, deadline, image);
      }
      var n := count;
      if deadline <= now {
        return 0;
      }
      var c := Lookup(campaigns, n);
      c := c.(owner := owner);
      c := c.(title := title);
      c := c.(description := description);
      c := c.(target := target);
      c := c.(deadline := deadline);
      c := c.(amountCollected := 0);
      c := c.(image := image);
      campaigns := campaigns[n := c];
      count := n + 1;
      id := n;
    }

    /** `donate_to_campaign` of src/lib.rs; `sender` and `value` are
        `msg::sender()` and `msg::value()`, `transferSucceeded` is what
        `transfer_eth` reports. The new state does not depend on it. */
    method DonateToCampaign(id: nat, now: nat, sender: Address, value: nat, transferSucceeded: bool)
      returns (outcome: Outcome)
      requires Registry.Admits(Lookup(campaigns, id), now, value) ==>
                 Lookup(campaigns, id).amountCollected + value < WORD
      modifies this
      ensures (State(), outcome) == Registry.Donate(old(State()), id, now, sender, value)
      ensures old(WellFormed(State())) ==> WellFormed(State())
    {
      if WellFormed(State()) {
        Registry.DonatePreservesWellFormed(State(), id, now, sender, value);
      }
      var c := Lookup(campaigns, id);
      if c.owner == NoOwner {
        return Rejected(CampaignMissing);
      }
      if c.deadline <= now {
        return Rejected(DeadlinePassed);
      }
      if value == 0 {
        return Rejected(ZeroDonation);
      }
      // The record's fields are written one after another, as the storage
      // accessor does; nothing observes the record between these writes.
      c := c.(amountCollected := c.amountCollected + value);
      c := c.(donators := c.donators + [sender]);
      c := c.(donations := c.donations + [value]);
      campaigns := campaigns[id := c];
      // A failed transfer is only logged: the bookkeeping above stays.
      outcome := Forwarded(c.owner, value);
    }

    /** `donate_to_campaign` of src/two.rs: it runs the guards and requests the
        transfer but writes nothing, so it needs no write access at all. */
    method DonateUnrecorded(id: nat, now: nat, sender: Address, value: nat, transferSucceeded: bool)
      returns (outcome: Outcome)
      ensures outcome == RegistryTwo.Donate(State(), id, now, sender, value).1
    {
      var c := Lookup(campaigns, id);
      if c.owner == NoOwner {
        return Rejected(CampaignMissing);
      }
      if c.deadline <= now {
        return Rejected(DeadlinePassed);
      }
      if value == 0 {
        return Rejected(ZeroDonation);
      }
      outcome := Forwarded(c.owner, value);
    }

    /** `donate_to_campaign(campaign_id, amount, donator)` of src/now.rs. */
    method DonateAs(id: nat, now: nat, amount: nat, donator: Address) returns (outcome: Outcome)
      requires RegistryNow.Open(Lookup(campaigns, id), now) ==>
                 Lookup(campaigns, id).amountCollected + amount < WORD
      modifies this
      ensures (State(), outcome) == RegistryNow.Donate(old(State()), id, now, amount, donator)
      ensures old(WellFormed(State())) && (id < old(count) || 0 < now) ==> WellFormed(State())
    {
      if id < count || 0 < now {
        if WellFormed(State()) {
          RegistryNow.DonatePreservesWellFormed(State(), id, now, amount, donator);
        }
      }
      var c := Lookup(campaigns, id);
      if now > c.deadline {
        return Rejected(DeadlinePassed);
      }
      c := c.(donators := c.donators + [donator]);
      c := c.(donations := c.donations + [amount]);
      c := c.(amountCollected := c.amountCollected + amount);
      campaigns := campaigns[id := c];
      outcome := Recorded;
    }

    /** `get_donators` of src/lib.rs and src/two.rs. */
    method GetDonators(id: nat) returns (donators: seq<Address>, donations: seq<nat>)
      ensures (donators, donations) == DonorListing(Lookup(campaigns, id))
      ensures WellFormed(State()) ==> (donators, donations) == CollectDonators(id) && |donators| == |donations|
    {
      donators, donations := CopyHistory(Lookup(campaigns, id));
      if WellFormed(State()) && id in campaigns {
        assert Consistent(campaigns[id]);
      }
    }

    /** `get_donators` of src/now.rs: both stored vectors collected as they are.
        Whenever the two vectors have equal length this is what the loop of
        src/lib.rs returns. */
    function CollectDonators(id: nat): (r: (seq<Address>, seq<nat>))
      reads this
      ensures |Lookup(campaigns, id).donators| == |Lookup(campaigns, id).donations| ==>
                r == DonorListing(Lookup(campaigns, id))
    {
      var c := Lookup(campaigns, id);
      assert |c.donators| == |c.donations| ==> c.donations[..|c.donations|] == c.donations;
      (c.donators, c.donations)
    }

    /** `get_campaigns` of src/lib.rs: it walks ids 0 up to the low 64 bits of
        the counter, which is every campaign while the counter is below 2^64. */
    method GetCampaigns() returns (cols: Columns)
      ensures Tabulates(cols, campaigns, count % LIMB)
      ensures count < LIMB ==> Tabulates(cols, campaigns, count)
    {
      var n := count % LIMB;
      cols := Columns([], [], [], [], [], [], [], []);
      var i := 0;
      while i < n
        invariant i <= n
        invariant Tabulates(cols, campaigns, i)
      {
        var c := Lookup(campaigns, i);
        var ds, vs := CopyHistory(c);
        cols := Columns(cols.owners + [c.owner], cols.titles + [c.title],
                        cols.descriptions + [c.description], cols.targets + [c.target],
                        cols.deadlines + [c.deadline], cols.images + [c.image],
                        cols.donators + [ds], cols.donations + [vs]);
        i := i + 1;
      }
    }

    /** `get_campaigns` of src/now.rs: the records with ids 0 up to the counter,
        in ascending order. */
    method GetCampaignRecords() returns (records: seq<Campaign>)
      requires count < USIZE
      ensures |records| == count
      ensures forall i :: 0 <= i < count ==> records[i] == Lookup(campaigns, i)
    {
      records := [];
      var i := 0;
      while i < count
        invariant i <= count
        invariant |records| == i
        invariant forall k :: 0 <= k < i ==> records[k] == Lookup(campaigns, k)
      {
        records := records + [Lookup(campaigns, i)];
        i := i + 1;
      }
    }
  }
}
