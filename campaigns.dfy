/** The storage of the crowdfunding contract, shared by its three variants:
    a counter of campaigns and a mapping from campaign id to a campaign record.
    Every key of the mapping exists in storage; a key never written reads as
    the all-zero record `Blank`. */
module Campaigns {

  /** An account address. 0 is `Address::default()`, which the contract reads
      as "no campaign here". */
  type Address = nat
  const NoOwner: Address := 0

  /** 2^256: every uint256 storage word lies below it. */
  const WORD: nat := 0x1_0000000000000000000000000000000000000000000000000000000000000000

  /** One `CampaignStorage` record. Text fields are opaque strings; the two
      vectors are kept side by side, `donations[i]` being the amount given by
      `donators[i]`. */
  datatype Campaign = Campaign(
    owner: Address,
    title: string,
    description: string,
    target: nat,
    deadline: nat,
    amountCollected: nat,
    image: string,
    donators: seq<Address>,
    donations: seq<nat>)

  /** What an unwritten key of the mapping holds. */
  const Blank: Campaign := Campaign(NoOwner, "", "", 0, 0, 0, "", [], [])

  /** The contract's whole state: `no_of_campaigns` and the `campaigns` mapping,
      keeping only the keys that were ever written. */
  datatype Store = Store(count: nat, campaigns: map<nat, Campaign>)

  /** The state of a freshly deployed contract. */
  const Empty: Store := Store(0, map[])

  /** Reading a key of the storage mapping. */
  function Lookup(campaigns: map<nat, Campaign>, id: nat): Campaign
  {
    if id in campaigns then campaigns[id] else Blank
  }

  /** Why a donation was turned away (the source reports it on the console only). */
  datatype Rejection = CampaignMissing | DeadlinePassed | ZeroDonation

  /** What a donate call did besides changing storage: it was rejected, it
      forwarded `amount` to `recipient` through the external transfer, or it
      only recorded the donation. */
  datatype Outcome = Rejected(why: Rejection) | Forwarded(recipient: Address, amount: nat) | Recorded

  function Sum(xs: seq<nat>): nat
  {
    if xs == [] then 0 else xs[0] + Sum(xs[1..])
  }

  lemma {:induction false} SumAppend(xs: seq<nat>, x: nat)
    ensures Sum(xs + [x]) == Sum(xs) + x
  {
    if xs == [] {
      assert [x][1..] == [];
    } else {
      assert (xs + [x])[1..] == xs[1..] + [x];
      SumAppend(xs[1..], x);
    }
  }

  /** The per-campaign bookkeeping invariant: the two vectors are parallel and
      `amount_collected` is the total of the donations. */
  predicate Consistent(c: Campaign)
  {
    |c.donators| == |c.donations| && c.amountCollected == Sum(c.donations)
  }

  /** The registry invariant: exactly the ids below the counter have been
      written (so every id at or above it still reads as `Blank`), every
      written record is consistent, and the counter and every total fit in a
      uint256. Targets, deadlines and addresses are not bounded. */
  predicate WellFormed(st: Store)
  {
    && st.count < WORD
    && (forall id :: id in st.campaigns ==> id < st.count)
    && (forall id :: 0 <= id < st.count ==> id in st.campaigns)
    && (forall id :: id in st.campaigns ==>
          Consistent(st.campaigns[id]) && st.campaigns[id].amountCollected < WORD)
  }

  function Min(a: nat, b: nat): nat
  {
    if a <= b then a else b
  }

  /** What `get_donators` in src/lib.rs and src/two.rs returns for a record: it
      walks the indices of `donators`, copying each donor and, when present,
      the donation at the same index. */
  function DonorListing(c: Campaign): (r: (seq<Address>, seq<nat>))
    ensures r.0 == c.donators
    ensures |r.1| <= |r.0| && r.1 <= c.donations
    ensures |r.1| == |r.0| || r.1 == c.donations
  {
    (c.donators, c.donations[..Min(|c.donators|, |c.donations|)])
  }

  /** On a consistent record the listing is the two stored vectors, whole,
      in insertion order and of equal length. */
  lemma ListingOfConsistent(c: Campaign)
    requires Consistent(c)
    ensures DonorListing(c) == (c.donators, c.donations)
    ensures |DonorListing(c).0| == |DonorListing(c).1|
  {
    assert c.donations[..|c.donations|] == c.donations;
  }
}
