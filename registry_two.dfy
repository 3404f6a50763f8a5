/** The donation path of src/two.rs. It runs the same three guards as
    src/lib.rs but reads the record through an immutable handle and has its
    bookkeeping writes commented out: an accepted donation only forwards the
    attached value to the owner. Creation is `Registry.Create`. */
module RegistryTwo {
  import opened Campaigns
  import Registry

  /** `donate_to_campaign` of src/two.rs: the storage never changes; the
      outcome is a refusal in the guards' order, or the transfer of `value`
      to the owner, whose result is discarded. */
  function Donate(st: Store, id: nat, now: nat, sender: Address, value: nat): (r: (Store, Outcome))
    ensures r.0 == st
    ensures var c := Lookup(st.campaigns, id);
      && (r.1 == Rejected(CampaignMissing) <==> c.owner == NoOwner)
      && (r.1 == Rejected(DeadlinePassed) <==> c.owner != NoOwner && c.deadline <= now)
      && (r.1 == Rejected(ZeroDonation) <==> c.owner != NoOwner && now < c.deadline && value == 0)
      && (r.1 == Forwarded(c.owner, value) <==> Registry.Admits(c, now, value))
  {
    var c := Lookup(st.campaigns, id);
    if c.owner == NoOwner then (st, Rejected(CampaignMissing))
    else if c.deadline <= now then (st, Rejected(DeadlinePassed))
    else if value == 0 then (st, Rejected(ZeroDonation))
    else (st, Forwarded(c.owner, value))
  }

  /** src/two.rs reaches the same verdict as src/lib.rs on every call; where
      src/lib.rs records an accepted donation, src/two.rs leaves the store as
      it was. */
  lemma SameVerdictAsLib(st: Store, id: nat, now: nat, sender: Address, value: nat)
    requires Registry.Admits(Lookup(st.campaigns, id), now, value) ==>
               Lookup(st.campaigns, id).amountCollected + value < WORD
    ensures Donate(st, id, now, sender, value).1 == Registry.Donate(st, id, now, sender, value).1
    ensures Donate(st, id, now, sender, value).1.Forwarded? ==>
              Registry.Donate(st, id, now, sender, value).0 != Donate(st, id, now, sender, value).0
  {
  }

  /** No campaign has any bookkeeping: nothing collected, no donor, no donation. */
  predicate NoHistory(st: Store)
  {
    forall id :: id in st.campaigns ==>
      st.campaigns[id].amountCollected == 0 && st.campaigns[id].donators == [] && st.campaigns[id].donations == []
  }

  /** Creating a campaign keeps every history empty. */
  lemma CreateKeepsNoHistory(st: Store, now: nat, owner: Address, title: string, description: string,
                             target: nat, deadline: nat, image: string)
    requires NoHistory(st)
    requires now < deadline ==> st.count + 1 < WORD
    ensures NoHistory(Registry.Create(st, now, owner, title, description, target, deadline, image).0)
  {
  }

  /** With every history empty, `get_donators` of src/two.rs returns two empty
      lists whatever the id. */
  lemma ListingsEmpty(st: Store, id: nat)
    requires NoHistory(st)
    ensures DonorListing(Lookup(st.campaigns, id)) == ([], [])
  {
  }
}
