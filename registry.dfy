/** The campaign registry as src/lib.rs implements it, as pure transitions on
    a `Store`. The host inputs (block timestamp, caller, attached value) are
    parameters. `create_campaign` is the same in all three variants, so the
    other two use `Create` from here. */
module Registry {
  import opened Campaigns

  /** `create_campaign`: a deadline that is not in the future is refused with
      the ambiguous id 0 and no change; otherwise the record at key `count` gets
      the given fields and a zero total, and the counter moves on by one. The
      two donation vectors of that key are not written. */
  function Create(st: Store, now: nat, owner: Address, title: string, description: string,
                  target: nat, deadline: nat, image: string): (r: (Store, nat))
    requires now < deadline ==> st.count + 1 < WORD
    ensures r.0.count != st.count <==> now < deadline
    ensures deadline <= now ==> r == (st, 0)
    ensures now < deadline ==> r.1 == st.count && r.0.count == st.count + 1
  {
    if deadline <= now then (st, 0)
    else
      var c := Lookup(st.campaigns, st.count).(owner := owner, title := title,
        description := description, target := target, deadline := deadline,
        amountCollected := 0, image := image);
      (Store(st.count + 1, st.campaigns[st.count := c]), st.count)
  }

  /** In a well-formed registry a created campaign starts with an empty
      history, and no other key changes. */
  lemma CreateStoresRecord(st: Store, now: nat, owner: Address, title: string, description: string,
                           target: nat, deadline: nat, image: string, other: nat)
    requires WellFormed(st) && now < deadline && st.count + 1 < WORD
    ensures var (st', id) := Create(st, now, owner, title, description, target, deadline, image);
      && Lookup(st'.campaigns, id) == Campaign(owner, title, description, target, deadline, 0, image, [], [])
      && (other != id ==> Lookup(st'.campaigns, other) == Lookup(st.campaigns, other))
  {
  }

  lemma CreatePreservesWellFormed(st: Store, now: nat, owner: Address, title: string, description: string,
                                  target: nat, deadline: nat, image: string)
    requires WellFormed(st)
    requires now < deadline ==> st.count + 1 < WORD
    ensures WellFormed(Create(st, now, owner, title, description, target, deadline, image).0)
  {
  }

  /** The three guards of `donate_to_campaign`, in the order the source checks
      them: the campaign exists, its deadline is still ahead, the value is not zero. */
  predicate Admits(c: Campaign, now: nat, value: nat)
  {
    c.owner != NoOwner && now < c.deadline && value > 0
  }

  /** `donate_to_campaign`: `sender` and `value` are `msg::sender()` and
      `msg::value()`. A refused call changes nothing; an accepted one records
      the donation and then forwards `value` to the owner. The transfer's
      result is only logged by the source, so it has no part in the result. */
  function Donate(st: Store, id: nat, now: nat, sender: Address, value: nat): (r: (Store, Outcome))
    requires Admits(Lookup(st.campaigns, id), now, value) ==>
               Lookup(st.campaigns, id).amountCollected + value < WORD
    ensures r.1.Rejected? ==> r.0 == st
    ensures var c := Lookup(st.campaigns, id);
      && (r.1 == Rejected(CampaignMissing) <==> c.owner == NoOwner)
      && (r.1 == Rejected(DeadlinePassed) <==> c.owner != NoOwner && c.deadline <= now)
      && (r.1 == Rejected(ZeroDonation) <==> c.owner != NoOwner && now < c.deadline && value == 0)
      && (r.1 == Forwarded(c.owner, value) <==> Admits(c, now, value))
  {
    var c := Lookup(st.campaigns, id);
    if c.owner == NoOwner then (st, Rejected(CampaignMissing))
    else if c.deadline <= now then (st, Rejected(DeadlinePassed))
    else if value == 0 then (st, Rejected(ZeroDonation))
    else
      var c' := c.(amountCollected := c.amountCollected + value,
                   donators := c.donators + [sender],
                   donations := c.donations + [value]);
      (st.(campaigns := st.campaigns[id := c']), Forwarded(c.owner, value))
  }

  /** An accepted donation adds `value` to the total and appends the pair
      (sender, value) to the history; the campaign's other fields, every other
      campaign and the counter stay as they were. */
  lemma DonateAppends(st: Store, id: nat, now: nat, sender: Address, value: nat, other: nat)
    requires Admits(Lookup(st.campaigns, id), now, value)
    requires Lookup(st.campaigns, id).amountCollected + value < WORD
    ensures var st' := Donate(st, id, now, sender, value).0;
      var c, c' := Lookup(st.campaigns, id), Lookup(st'.campaigns, id);
      && c'.amountCollected == c.amountCollected + value
      && c'.donators == c.donators + [sender]
      && c'.donations == c.donations + [value]
      && c'.owner == c.owner && c'.title == c.title && c'.description == c.description
      && c'.target == c.target && c'.deadline == c.deadline && c'.image == c.image
      && st'.count == st.count
      && (other != id ==> Lookup(st'.campaigns, other) == Lookup(st.campaigns, other))
  {
  }

  /** Donating keeps both vectors parallel and the total equal to the sum of
      the donations. */
  lemma DonatePreservesWellFormed(st: Store, id: nat, now: nat, sender: Address, value: nat)
    requires WellFormed(st)
    requires Admits(Lookup(st.campaigns, id), now, value) ==>
               Lookup(st.campaigns, id).amountCollected + value < WORD
    ensures WellFormed(Donate(st, id, now, sender, value).0)
  {
    var c := Lookup(st.campaigns, id);
    if Admits(c, now, value) {
      SumAppend(c.donations, value);
    }
  }

  /** Ids at or above the counter read as blank records, so a donation to
      one of them is refused as "does not exist". */
  lemma BeyondCountUntouched(st: Store, id: nat, now: nat, sender: Address, value: nat)
    requires WellFormed(st) && st.count <= id
    ensures Lookup(st.campaigns, id) == Blank
    ensures Donate(st, id, now, sender, value) == (st, Rejected(CampaignMissing))
  {
  }

  /** Nothing stops a campaign owned by the zero address from being created:
      it takes an id and moves the counter, yet every donation to it is then
      refused as "does not exist". */
  lemma ZeroOwnerCampaignUnfundable(st: Store, now: nat, title: string, description: string,
                                    target: nat, deadline: nat, image: string,
                                    later: nat, sender: Address, value: nat)
    requires now < deadline && st.count + 1 < WORD
    ensures var (st', id) := Create(st, now, NoOwner, title, description, target, deadline, image);
      && id == st.count && st'.count == st.count + 1
      && Donate(st', id, later, sender, value) == (st', Rejected(CampaignMissing))
  {
  }

  /** A worked run: the first campaign gets id 0; two donations of 10^17 from
      the same donor are both listed and add up; a donation at the deadline
      is refused and changes nothing. */
  lemma DonationScenario(owner: Address, donor: Address, title: string, description: string,
                         image: string, start: nat, deadline: nat)
    requires owner != NoOwner && start < deadline
    ensures
      var gift := 100_000_000_000_000_000;
      var (s1, id) := Create(Empty, start, owner, title, description,
                             1_000_000_000_000_000_000, deadline, image);
      var (s2, o2) := Donate(s1, id, start, donor, gift);
      var (s3, o3) := Donate(s2, id, start, donor, gift);
      var (s4, o4) := Donate(s3, id, deadline, donor, gift);
      && id == 0
      && o2 == Forwarded(owner, gift)
      && Lookup(s2.campaigns, 0).amountCollected == gift
      && Lookup(s2.campaigns, 0).donators == [donor]
      && Lookup(s2.campaigns, 0).donations == [gift]
      && o3 == Forwarded(owner, gift)
      && Lookup(s3.campaigns, 0).amountCollected == 2 * gift
      && Lookup(s3.campaigns, 0).donators == [donor, donor]
      && Lookup(s3.campaigns, 0).donations == [gift, gift]
      && o4 == Rejected(DeadlinePassed) && s4 == s3
  {
  }
}
