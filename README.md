# Crowdfunding campaign registry, modelled in Dafny

The contract keeps a counter of campaigns and a mapping from campaign id to a
campaign record (owner, title, description, target, deadline, amount collected,
image, and two parallel vectors of donors and donations). It has four entry
points: `create_campaign`, `donate_to_campaign`, `get_donators` and
`get_campaigns`. The repository carries three variants of it:

- `src/lib.rs`, the primary one: donate checks that the campaign exists (its
  owner is not the zero address), that its deadline is still ahead and that the
  attached value is not zero, then records the donation and forwards the value
  to the owner, ignoring whether that transfer succeeds.
- `src/two.rs`: the same guards, but the bookkeeping writes are commented out,
  so an accepted donation only forwards the value; `get_campaigns` is commented out.
- `src/now.rs`: donate takes the amount and the donor as arguments, only checks
  `now > deadline` (so a donation exactly at the deadline is accepted), has no
  existence or zero-amount check and transfers nothing; `get_campaigns` returns
  whole records.

`create_campaign` is the same in all three, so the model has one `Create`.

Layout:

- `campaigns.dfy`, module `Campaigns`: the storage layout (`Campaign`, `Store`,
  the blank record an unwritten key holds), the sum of donations, the
  per-record invariant `Consistent` and the registry invariant `WellFormed`
  (ids `0 .. count-1` written and no other, each record consistent, the
  counter and every total below 2^256), and `DonorListing`, what the `get_donators` loop returns.
- `registry.dfy`, module `Registry`: `src/lib.rs` as pure transitions on a
  `Store`, with the lemmas about them.
- `registry_two.dfy`, module `RegistryTwo`, and `registry_now.dfy`, module
  `RegistryNow`: the donate paths of the other two variants and how they
  differ from `src/lib.rs`.
- `runs.dfy`, module `Runs`: any sequence of calls under each variant, and the
  invariants that hold over every reachable state.
- `contract.dfy`, module `Contract`: the contract as a class whose two fields
  the entry points update in place; each entry point is proved to match the
  pure transition, and the read-only entry points are loops proved against
  `DonorListing` and `Tabulates`.

Host inputs are parameters: `now` is `block::timestamp()`, `sender` and `value`
are `msg::sender()` and `msg::value()`, and `transferSucceeded` is the result of
`transfer_eth`. Donate returns an `Outcome` (rejected with a reason, forwarded
to the owner, or only recorded), which makes observable what the source reports
only on the console.

Two points about the code that the model makes explicit:

- `create_campaign` writes seven fields of the new record and never resets
  its `donators` and `donations` vectors (src/lib.rs:60-69). A new record's
  history is empty only because its key was never written before: that is why
  `Registry.CreateStoresRecord` needs `WellFormed`, and
  `RegistryNow.StaleHistoryAtTimeZero` shows a key that was written first.
- `get_donators` walks the indices of `donators` only (src/lib.rs:131-138), so
  it returns the donations cut to the length of `donators` (`DonorListing`);
  when the two vectors have equal length this is both vectors whole.

## Model

| member | source | states |
|---|---|---|
| `Campaigns.DonorListing` | src/lib.rs:131-138 | the listing returns all donors, and the longest prefix of the donations that is no longer than the donors |
| `Campaigns.ListingOfConsistent` | src/lib.rs:126-140 | on a record whose vectors are parallel, `get_donators` returns both vectors whole, in insertion order, of equal length |
| `Registry.Create` | src/lib.rs:43-83 | the counter moves exactly when the deadline is in the future; a past deadline returns 0 and changes nothing; otherwise the result is the old counter and the counter grows by one |
| `Registry.CreateStoresRecord` | src/lib.rs:60-68 | in a well-formed registry the new record holds the given owner, title, description, target, deadline and image, a zero total and two empty vectors; no other key changes |
| `Registry.CreatePreservesWellFormed` | src/lib.rs:52-71 | creating keeps ids contiguous from 0, every record consistent, and the counter and every total below 2^256 |
| `Registry.Donate` | src/lib.rs:86-123 | rejections in order: missing campaign exactly when the owner is the zero address, deadline passed exactly when the owner exists and the deadline is not ahead, zero donation exactly when both pass and the value is 0; a rejection changes nothing; otherwise the value is forwarded to the owner |
| `Registry.DonateAppends` | src/lib.rs:106-109 | an accepted donation adds the value to the total, appends the sender and the value to the two vectors, and changes no other field, no other campaign and not the counter |
| `Registry.DonatePreservesWellFormed` | src/lib.rs:100-109 | donating keeps the two vectors parallel and the total equal to the sum of the donations |
| `Registry.BeyondCountUntouched` | src/lib.rs:87-92 | in a well-formed registry every id at or above the counter reads as the blank record, and a donation to it is rejected as missing with no change |
| `Registry.ZeroOwnerCampaignUnfundable` | src/lib.rs:60-92 | a campaign created with the zero address as owner takes the next id and moves the counter, yet every later donation to it is rejected as missing |
| `Registry.DonationScenario` | src/lib.rs:43-123 | the first campaign gets id 0; two donations of 10^17 from one donor give donors [A, A], donations [10^17, 10^17] and a total of 2·10^17; a donation at the deadline is rejected and changes nothing |
| `RegistryTwo.Donate` | src/two.rs:88-130 | the store never changes; the same three rejections in the same order; an accepted call forwards the value to the owner |
| `RegistryTwo.SameVerdictAsLib` | src/two.rs:90-121 | on every call the outcome equals that of src/lib.rs; where that variant records an accepted donation, this one leaves a different (the unchanged) store |
| `RegistryTwo.CreateKeepsNoHistory` | src/two.rs:67-84 | creating a campaign keeps every total at 0 and every donor vector empty |
| `RegistryTwo.ListingsEmpty` | src/two.rs:135-148 | when no campaign has a history, `get_donators` returns two empty lists for every id |
| `RegistryNow.Donate` | src/now.rs:77-103 | rejected exactly when the clock is past the deadline, and then nothing changes; otherwise recorded |
| `RegistryNow.DonateAppendsUnchecked` | src/now.rs:88-100 | an accepted call appends the donor and the amount and adds the amount to the total even for a zero amount or a zero owner; nothing else changes |
| `RegistryNow.AcceptsAtDeadline` | src/now.rs:79-86 | a donation at exactly the deadline is rejected by src/lib.rs and recorded by src/now.rs |
| `RegistryNow.RejectsBeyondCount` | src/now.rs:78-86 | in a well-formed registry a donation to an id at or above the counter is rejected, with no change, whenever the clock is past 0 |
| `RegistryNow.DonatePreservesWellFormed` | src/now.rs:77-103 | donating keeps the registry well formed when the id exists or the clock is past 0 |
| `RegistryNow.StaleHistoryAtTimeZero` | src/now.rs:58-92 | at time 0 a donation to the next free id is recorded and breaks contiguity; the campaign then created there keeps that donation while its total restarts at 0, so it is inconsistent |
| `Runs.LibRunWellFormed` | src/lib.rs:43-123 | every state reached from a well-formed one by any sequence of creates and donations is well formed |
| `Runs.TwoRunRecordsNothing` | src/two.rs:48-130 | under any sequence of calls no campaign ever collects anything or lists a donor, and the counter grows by at most the number of calls |
| `Runs.NowRunWellFormed` | src/now.rs:38-103 | the registry stays well formed under any sequence of calls in which no donation targets a missing id at time 0 |
| `Contract.CopyHistory` | src/lib.rs:131-138 | the copying loop returns exactly `DonorListing` of the record, which is both vectors whole when they are parallel |
| `Contract.CrowdFunding.constructor` | src/lib.rs:16-21 | a new contract has counter 0 and no written key, and is well formed |
| `Contract.CrowdFunding.CreateCampaign` | src/lib.rs:43-83 | the new counter, mapping and returned id are those of `Registry.Create` on the old state; well-formedness is kept |
| `Contract.CrowdFunding.DonateToCampaign` | src/lib.rs:86-123 | the new state and outcome are those of `Registry.Donate`, whatever the transfer reports; well-formedness is kept |
| `Contract.CrowdFunding.DonateUnrecorded` | src/two.rs:88-130 | writes nothing and returns the outcome of `RegistryTwo.Donate` |
| `Contract.CrowdFunding.DonateAs` | src/now.rs:77-103 | the new state and outcome are those of `RegistryNow.Donate`; well-formedness is kept when the id exists or the clock is past 0 |
| `Contract.CrowdFunding.GetDonators` | src/lib.rs:126-140 | returns `DonorListing` of the stored record; in a well-formed registry that equals the stored vectors, of equal length |
| `Contract.CrowdFunding.CollectDonators` | src/now.rs:107-112 | on any record whose two vectors have equal length (including an inconsistent one such as `RegistryNow.StaleHistoryAtTimeZero` builds) the collected vectors equal what the loop of src/lib.rs returns |
| `Contract.CrowdFunding.GetCampaigns` | src/lib.rs:143-187 | returns eight vectors listing, field by field and in ascending id order, the records with ids below the counter's low 64 bits, which is every campaign when the counter is below 2^64 |
| `Contract.CrowdFunding.GetCampaignRecords` | src/now.rs:116-126 | returns exactly `count` records, the one at position i being the stored record with id i |

## Left out

- Events (`CampaignCreated`, `DonationMade`) and all console diagnostics: they carry no logic; the donate `Outcome` stands in for the rejection messages.
- The external transfer: `transfer_eth` is a foreign call; the model records that it is requested (`Forwarded`) and takes its result as a parameter: src/lib.rs only logs a failure, src/two.rs discards the result without logging, and src/now.rs makes no transfer at all (it only logs a message). Balances are not modelled.
- The host: block timestamp, caller and attached value are parameters; in src/now.rs no value is attached and the amount is an argument.
- Addresses are natural numbers with 0 as the default address; the 160-bit width is not modelled. Timestamps are natural numbers.
- Title, description and image are opaque strings; their storage encoding is not modelled.
- `Registry.Create`: requires the incremented counter to stay below 2^256 when the creation succeeds, instead of choosing wrap-around or panic for uint256 addition.
- `Registry.Donate`: requires the new total to stay below 2^256 when the donation is accepted, for the same reason; `RegistryNow.Donate` likewise.
- `Contract.CrowdFunding.GetCampaignRecords`: requires the counter to fit in a 32-bit `usize`; what `as_usize` does with a larger counter is not modelled.
- The commented-out `get_campaigns` of src/two.rs is not code and is not modelled.
- Storage macros, the global allocator, ABI export and the entrypoint dispatcher.
- examples/funding.rs (a client that deploys and calls the contract over RPC) and app/script.mjs (an HTTP download with retries) are not part of this model: they are I/O over external libraries.
