/** The donation path of src/now.rs. Amount and donor are explicit arguments;
    the only guard is that the clock has not gone past the deadline, so a
    donation at the deadline itself, a zero amount and a campaign owned by the
    zero address are all accepted; nothing is transferred. Creation is
    `Registry.Create`. */
module RegistryNow {
  import opened Campaigns
  import Registry

  /** The one guard of src/now.rs: the campaign has not expired. */
  predicate Open(c: Campaign, now: nat)
  {
    now <= c.deadline
  }

  /** `donate_to_campaign(campaign_id, amount, donator)` of src/now.rs. */
  function Donate(st: Store, id: nat, now: nat, amount: nat, donator: Address): (r: (Store, Outcome))
    requires Open(Lookup(st.campaigns, id), now) ==> Lookup(st.campaigns, id).amountCollected + amount < WORD
    ensures r.1 == Rejected(DeadlinePassed) <==> !Open(Lookup(st.campaigns, id), now)
    ensures r.1 == Recorded <==> Open(Lookup(st.campaigns, id), now)
    ensures r.1.Rejected? ==> r.0 == st
  {
    var c := Lookup(st.campaigns, id);
    if now > c.deadline then (st, Rejected(DeadlinePassed))
    else
      var c1 := c.(donators := c.donators + [donator]);
      var c2 := c1.(donations := c1.donations + [amount]);
      var c3 := c2.(amountCollected := c2.amountCollected + amount);
      (st.(campaigns := st.campaigns[id := c3]), Recorded)
  }

  /** An accepted call appends (donator, amount) and adds the amount to the
      total, whoever owns the record and even for a zero amount; every other
      field, every other key and the counter stay. */
  lemma DonateAppendsUnchecked(st: Store, id: nat, now: nat, amount: nat, donator: Address, other: nat)
    requires Open(Lookup(st.campaigns, id), now)
    requires Lookup(st.campaigns, id).amountCollected + amount < WORD
    ensures var st' := Donate(st, id, now, amount, donator).0;
      var c, c' := Lookup(st.campaigns, id), Lookup(st'.campaigns, id);
      && c'.donators == c.donators + [donator]
      && c'.donations == c.donations + [amount]
      && c'.amountCollected == c.amountCollected + amount
      && c'.owner == c.owner && c'.title == c.title && c'.description == c.description
      && c'.target == c.target && c'.deadline == c.deadline && c'.image == c.image
      && st'.count == st.count
      && (other != id ==> Lookup(st'.campaigns, other) == Lookup(st.campaigns, other))
  {
  }

  /** A donation made exactly at the deadline: src/lib.rs refuses it, src/now.rs
      records it. */
  lemma AcceptsAtDeadline(st: Store, id: nat, amount: nat, donator: Address)
    requires Lookup(st.campaigns, id).owner != NoOwner && amount > 0
    requires Lookup(st.campaigns, id).amountCollected + amount < WORD
    ensures var now := Lookup(st.campaigns, id).deadline;
      && Registry.Donate(st, id, now, donator, amount) == (st, Rejected(DeadlinePassed))
      && Donate(st, id, now, amount, donator).1 == Recorded
  {
  }

  /** Ids at or above the counter hold deadline 0, so once the clock is past 0
      a donation to them is refused. */
  lemma RejectsBeyondCount(st: Store, id: nat, now: nat, amount: nat, donator: Address)
    requires WellFormed(st) && st.count <= id && 0 < now
    ensures Donate(st, id, now, amount, donator) == (st, Rejected(DeadlinePassed))
  {
  }

  /** Donating keeps the registry well formed, as long as the target id exists
      or the clock is past 0. */
  lemma DonatePreservesWellFormed(st: Store, id: nat, now: nat, amount: nat, donator: Address)
    requires WellFormed(st)
    requires id < st.count || 0 < now
    requires Open(Lookup(st.campaigns, id), now) ==> Lookup(st.campaigns, id).amountCollected + amount < WORD
    ensures WellFormed(Donate(st, id, now, amount, donator).0)
  {
    var c := Lookup(st.campaigns, id);
    if Open(c, now) {
      SumAppend(c.donations, amount);
    }
  }

  /** At time 0 a donation to the next free id is accepted and written beyond
      the counter; the campaign later created at that id takes over its
      history while its total starts again at 0, so it is not consistent. */
  lemma StaleHistoryAtTimeZero(st: Store, amount: nat, donator: Address, now: nat, owner: Address,
                               title: string, description: string, target: nat, deadline: nat, image: string)
    requires WellFormed(st) && amount < WORD
    requires now < deadline && st.count + 1 < WORD
    ensures var (s1, o1) := Donate(st, st.count, 0, amount, donator);
      && o1 == Recorded
      && !WellFormed(s1)
      && var (s2, id) := Registry.Create(s1, now, owner, title, description, target, deadline, image);
         && id == st.count
         && Lookup(s2.campaigns, id).donations == [amount]
         && Lookup(s2.campaigns, id).amountCollected == 0
         && (amount > 0 ==> !Consistent(Lookup(s2.campaigns, id)))
  {
    assert st.count !in st.campaigns;
    var s1 := Donate(st, st.count, 0, amount, donator).0;
    assert st.count in s1.campaigns;
    assert Sum([amount]) == amount + Sum([]);
  }
}
