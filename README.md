# Referral ledger

A model of the referral lifecycle of the referral-marketing backend. A business
runs campaigns. Each of its customers can get one referral link per campaign,
identified by an eight-character hexadecimal code. Clicks on the link are
recorded. People who sign up or are converted through the link are recorded as
conversions. A conversion moves from `pending` to `completed` when its task is
done, and its reward can then be claimed once. A claim is only allowed while
the referrer has at least three completed, unclaimed conversions in the
campaign.

The model has these modules:

- `Entities` (entities.dfy): the campaign and customer records the ledger
  reads. It also holds the unique (business, email) index on customers.
- `ReferralModel` (referral_model.dfy): the Referral document with its
  embedded clicks and conversions, their defaults and enums. It has the
  `pre('save')` hook (`PreSave`), whose loops are proved against the functions
  saying what each cached total must be.
- `LedgerQueries` (ledger_queries.dfy): the lookups the handlers run. These
  are by code, by (campaign, referrer), and a conversion by its id. The module
  also has the claim-eligibility aggregate, the `/stats` sums, the invariants
  of the referral collection, and the history predicate no handler violates.
- `ReferralCode` (referral_code.dfy): `generateReferralCode`. Its random
  source is a caller-supplied stream of four-byte draws, and its hex encoding
  comes with a round-trip lemma.
- `ReferralRoutes` (referral_routes.dfy): the handlers of
  backend/routes/referral.js as methods of one store class, `ReferralStore`.
  Its fields are the referral collection (a sequence in insertion order) and
  the campaign and customer collections (maps by id). Every method keeps
  `Valid()`, which covers five things:
  - codes are unique;
  - there is one referral per (campaign, referrer);
  - every document's cached totals agree with its arrays;
  - a reward is only ever claimed on a completed conversion;
  - customers are unique per (business, email).

  Every mutating method also keeps `LedgerEvolved`: referrals are never
  removed, clicks and conversions only grow, and a claimed reward stays
  claimed.
- `AuthRoutes` (auth_routes.dfy): the referral branch of signup.

Dates and database ids are naturals supplied by the caller. The error replies
are the datatype `ReferralRoutes.Error`, and `HttpStatus` gives each one's
status code.

Where the documented behaviour and the code differ, the model follows the
code:

- `/claim-reward` checks eligibility (the threshold of three) before it looks
  up the conversion. An unknown conversion id is therefore refused as not
  eligible whenever the referrer is below the threshold.
- The conversion being claimed counts toward its own threshold. With exactly
  three eligible conversions, the first claim succeeds and every further claim
  fails with `NotEligible(2)`, until another conversion becomes eligible. `ReferralRoutes.ClaimAtThresholdExhausts` proves this.
- `/complete-task` requires no particular status. A rejected or already
  claimed conversion is re-stamped as completed, and its reward terms are
  replaced by the campaign's current ones.
- The signup branch appends a conversion that is already `completed`. It has
  no duplicate guard and does not increment the campaign's `totalReferrals`.
- `/track` saves the click before it reads the campaign. A referral whose
  campaign is gone gets the click and a server error.
- A campaign counter `$inc` on a campaign that no longer exists updates
  nothing.

## Model

| member | source | states |
|---|---|---|
| Entities.AddCustomerKeepsUnique | backend/models/Customer.js:46-47 | adding a customer whose (businessId, email) pair is free keeps that compound index unique |
| ReferralModel.NewReferral | backend/models/Referral.js:54-77 | a fresh referral has consistent totals and all four totals equal to 0 |
| ReferralModel.NewConversion | backend/routes/referral.js:166-170 | a new conversion records the customer, the time and the given status (pending by default, as in backend/models/Referral.js:27-53); it is unclaimed, carries no reward, and its completion and reward fields are unset |
| ReferralModel.WithTaskCompleted | backend/routes/referral.js:292-297 | the conversion becomes completed and is stamped with the proof; it takes the campaign's `rewardValue`/`rewardType`; every other field is unchanged |
| ReferralModel.WithRewardClaimed | backend/routes/referral.js:391-393 | the claimed flag is set, the claim is stamped, and every other field is unchanged |
| ReferralModel.ClaimedCount | backend/models/Referral.js:97 | the number of claimed conversions is at most the number of conversions, and is 0 exactly when none is claimed |
| ReferralModel.ClaimedAmount | backend/models/Referral.js:98 | the claimed reward amount is 0 when no conversion is claimed |
| ReferralModel.Recomputed | backend/models/Referral.js:87-101 | after the hook runs for both arrays, every cached total agrees with the arrays; `totalRewardsClaimed <= totalConversions`; the arrays and every non-total field are unchanged |
| ReferralModel.CountClaimed | backend/models/Referral.js:97 | the filter-and-length loop computes the number of claimed conversions |
| ReferralModel.SumClaimedAmounts | backend/models/Referral.js:98 | the reduce loop computes the sum of `rewardAmount` (missing counts as 0) over claimed conversions only |
| ReferralModel.PreSave | backend/models/Referral.js:87-101 | a modified `clicks` refreshes `totalClicks`/`lastClickAt`; a modified `conversions` refreshes the conversion count, the last timestamp and the claimed count and amount; unmodified groups keep their values; nothing else changes; on a consistent document the result is the fully recomputed document |
| ReferralModel.ClaimedCountAppend | backend/models/Referral.js:96-98 | appending a conversion moves the claimed count and amount by exactly what that conversion contributes |
| ReferralModel.ClaimedTotalsUpdate | backend/models/Referral.js:96-98 | replacing one conversion moves the claimed count and amount by the difference between the new record and the old one |
| ReferralModel.AppendConversionTotals | backend/models/Referral.js:92-99 | appending a conversion and saving raises `totalConversions` by 1 and sets `lastConversionAt` to its timestamp; it moves the claimed totals by that conversion alone and leaves the click totals alone |
| ReferralModel.AppendClickTotals | backend/models/Referral.js:88-91 | appending a click and saving raises `totalClicks` by 1, sets `lastClickAt` to its timestamp, and leaves the conversion totals alone |
| LedgerQueries.FindByCode | backend/routes/referral.js:77 | finds the first referral with the code, and finds nothing exactly when no referral has it |
| LedgerQueries.FindByPair | backend/routes/referral.js:45 | finds a referral of the (campaign, referrer) pair, and finds nothing exactly when the pair has none |
| LedgerQueries.FindConversion | backend/routes/referral.js:281 | finds the first embedded conversion with the id, and finds nothing exactly when none has it |
| LedgerQueries.ConvertedCustomerRecorded | backend/routes/referral.js:158-170 | once a conversion naming a customer is appended, the duplicate-conversion check fires for that customer; for any other customer it answers as before |
| LedgerQueries.EligibleIn | backend/routes/referral.js:345-361 | the number of completed, unclaimed conversions is at most the number of conversions, and is 0 exactly when none is eligible |
| LedgerQueries.EligibleInUpdate | backend/routes/referral.js:345-361 | replacing one conversion moves a referral's eligible count by the old record's and the new record's eligibility |
| LedgerQueries.EligibleInAppend | backend/routes/referral.js:345-361 | appending a conversion raises the eligible count by 1 when it is eligible and otherwise leaves it unchanged |
| LedgerQueries.EligibleCountUpdate | backend/routes/referral.js:338-365 | saving one referral in place moves its pair's campaign-wide eligible count by that referral's difference, and no other pair's count |
| LedgerQueries.EligibleCountBounds | backend/routes/referral.js:338-365 | the campaign-wide eligible count of a referrer is at least the eligible count of each of its referrals, and is 0 exactly when none of them has an eligible conversion |
| LedgerQueries.EligibleCountOfOwnReferral | backend/routes/referral.js:338-365 | with one referral per pair, the campaign-wide aggregate equals the count on the claimed referral alone |
| LedgerQueries.NoOtherReferralOfPair | backend/routes/referral.js:338-344 | a pair with no referrals has an eligible count of 0 |
| LedgerQueries.ClaimConsumesOneEligible | backend/routes/referral.js:391-395 | claiming an eligible conversion lowers its pair's eligible count by exactly 1 and leaves every other pair's count unchanged |
| LedgerQueries.ClaimedAt | backend/routes/referral.js:391-395 | after a claim only the claimed referral changes; it is the saved document, with the claimed count 1 higher and the claimed amount higher by the reward; its pair's eligible count is exactly 1 lower |
| LedgerQueries.InvariantAfterSave | backend/models/Referral.js:14-18 | saving a referral in place with the same code and pair, and with consistent totals, keeps codes and pairs unique and every document consistent |
| LedgerQueries.InvariantAfterInsert | backend/routes/referral.js:44-57 | inserting a consistent referral whose code and pair are unused keeps the ledger invariant |
| LedgerQueries.LedgerEvolvedTransitive | backend/routes/referral.js:84-90 | the history relation composes: no sequence of handlers removes a referral, a click or a conversion, or unclaims a reward |
| LedgerQueries.ReferralEvolvedReflexive | backend/routes/referral.js:79-81 | a referral left untouched has evolved |
| LedgerQueries.LedgerEvolvedReflexive | backend/routes/referral.js:79-81 | a handler that fails and changes nothing keeps the history relation |
| LedgerQueries.EvolvedAfterSave | backend/routes/referral.js:90 | saving an evolved referral in place evolves the ledger |
| LedgerQueries.EvolvedAfterInsert | backend/routes/referral.js:51-57 | inserting a new referral at the end evolves the ledger |
| LedgerQueries.ClaimsAfterAppend | backend/routes/referral.js:166-172 | appending a conversion that is unclaimed or completed keeps "claimed implies completed" |
| LedgerQueries.AppendedEvolved | backend/routes/referral.js:166-172 | appending a conversion keeps every earlier conversion and every click |
| LedgerQueries.ClaimsAfterUpdate | backend/routes/referral.js:292-299 | updating a conversion in place so that it is unclaimed or completed keeps "claimed implies completed" |
| LedgerQueries.UpdatedEvolved | backend/routes/referral.js:392-395 | updating a conversion in place without touching its id, customer, timestamp or existing claim evolves the referral |
| LedgerQueries.NewPairFound | backend/routes/referral.js:44-58 | once `/generate` has inserted a referral for a pair that had none, the pair lookup finds it |
| LedgerQueries.FindByCodeSameCodes | backend/routes/referral.js:323 | the code lookup depends only on the codes, so it finds the same referral after a save |
| LedgerQueries.FindConversionSameIds | backend/routes/referral.js:376 | the conversion lookup depends only on the conversion ids |
| LedgerQueries.InCampaign | backend/routes/referral.js:208 | the campaign's referrals are at most all referrals; each belongs to the campaign and is in the collection |
| LedgerQueries.CachedClicksAreRecorded | backend/routes/referral.js:238 | on consistent documents, the sum of the cached `totalClicks` is the number of clicks recorded |
| LedgerQueries.InCampaignComplete | backend/routes/referral.js:208 | the listing is complete: each referral of the campaign appears in it exactly as often as in the collection, and no referral of another campaign appears |
| LedgerQueries.SumsBound | backend/routes/referral.js:238-239 | each referral's `totalClicks` and conversion count is at most the campaign total; each total is 0 exactly when every referral's part is 0 |
| LedgerQueries.CampaignClicksRecorded | backend/routes/referral.js:238 | on a valid ledger, the stats click total of a campaign counts exactly the clicks recorded on its referrals |
| LedgerQueries.SumsAppend | backend/routes/referral.js:238-239 | the click and conversion sums are additive over concatenation |
| LedgerQueries.InCampaignAfterOtherSave | backend/routes/referral.js:208 | saving a referral of another campaign leaves a campaign's listing unchanged |
| LedgerQueries.InCampaignAfterOwnSave | backend/routes/referral.js:208 | saving a referral of the campaign replaces it in place in that campaign's listing |
| LedgerQueries.SumsAfterReplace | backend/routes/referral.js:238-239 | replacing one referral moves both sums by its difference |
| LedgerQueries.CampaignStatsAfterSave | backend/routes/referral.js:236-239 | saving a referral in place keeps the campaign's referral count; it moves that campaign's click and conversion totals by the referral's difference and no other campaign's |
| LedgerQueries.CampaignStatsAfterInsert | backend/routes/referral.js:236-239 | a newly generated referral adds 1 to its campaign's referral count and changes no click or conversion total |
| ReferralCode.HexDigit | backend/routes/referral.js:17 | each nibble is written as a lowercase hexadecimal digit |
| ReferralCode.DigitValue | backend/routes/referral.js:17 | reading a hex digit gives the nibble that writes it |
| ReferralCode.ToHex | backend/routes/referral.js:17 | `toString('hex')` writes two lowercase hex digits per byte |
| ReferralCode.FromHexToHex | backend/routes/referral.js:17 | decoding the hex encoding gives back the bytes |
| ReferralCode.ToHexInjective | backend/routes/referral.js:17 | distinct draws give distinct codes |
| ReferralCode.GenerateReferralCode | backend/routes/referral.js:11-26 | the loop returns the code of the first draw no referral uses; every earlier draw collided; the code is eight lowercase hex digits; when the draws run out, all of them collided |
| ReferralRoutes.ClaimGate | backend/routes/referral.js:323-389 | claim checks in the handler's order, each error exactly when the earlier checks pass and its own fails: unknown code, then the referrer not the caller's customer, then fewer than 3 eligible conversions for the pair (with the count), then unknown conversion, then not completed, then already claimed; success names the looked-up referral and an eligible conversion |
| ReferralRoutes.ClaimAtThresholdExhausts | backend/routes/referral.js:337-373 | with exactly 3 eligible conversions for the pair, once one of them is claimed, every further claim on the referral fails as not eligible with 2 left, whatever conversion it names |
| ReferralRoutes.ClaimNotRepeatable | backend/routes/referral.js:365-400 | after a successful claim, claiming the same conversion again fails: as not eligible if the claim took the pair below 3, and as already claimed otherwise |
| ReferralRoutes.ReferralStore.Track | backend/routes/referral.js:74-107 | an unknown code gives 404 and changes nothing; otherwise exactly one click is appended to that referral and saved; its conversions and every other referral are untouched; a missing campaign gives a server error after the save |
| ReferralRoutes.ReferralStore.Convert | backend/routes/referral.js:110-184 | given a resolution that maps a known customer id to itself and anything else outside the collection, errors in order (missing id 400, unknown code 404, missing campaign 404, unknown customer 404, customer already converted 400), each changing nothing; success appends one pending, unclaimed conversion at the end and raises the campaign's `totalReferrals` by 1 |
| ReferralRoutes.ReferralStore.Generate | backend/routes/referral.js:29-71 | a missing campaign or customer gives 404; an existing referral of the pair is returned unchanged; otherwise exactly one referral is added, with a fresh code unused by any existing referral, zero stats, and findable by its pair |
| ReferralRoutes.ReferralStore.Stats | backend/routes/referral.js:187-267 | missing campaign 404, other owner 403; otherwise the referral count is the number of the campaign's referrals, the click total is the sum of their `totalClicks` (on a valid ledger, the clicks recorded), and the conversion total is the sum of their conversion counts; one row per referral |
| ReferralRoutes.RowOf | backend/routes/referral.js:240-258 | a stats row carries the referral's code, referrer, creation date and click total, its conversion count, and one converted-user entry per conversion, in order, with that conversion's customer, status, timestamp and claimed flag |
| ReferralRoutes.ReferralStore.AppendConversion | backend/routes/referral.js:166-172 | pushes one conversion at the end of a referral and saves it; earlier conversions and the clicks are unchanged, the conversion total rises by 1, and the claimed count rises only if the new conversion is claimed |
| ReferralRoutes.ReferralStore.CompleteTask | backend/routes/referral.js:270-315 | unknown referral, conversion or campaign gives 404 and changes nothing; otherwise only the targeted conversion changes: it becomes completed and takes the campaign's reward terms |
| ReferralRoutes.ReferralStore.ClaimReward | backend/routes/referral.js:318-414 | every gate failure is returned and changes nothing; success claims exactly the gated conversion, raises the campaign's `totalRewardsGiven` by 1, and the reward status then reports it claimed |
| ReferralRoutes.ReferralStore.ClaimAt | backend/routes/referral.js:391-409 | the write half of a claim: the ledger becomes `ClaimedAt`, the campaign counter is incremented (if the campaign exists), and the reply carries the conversion's reward terms |
| ReferralRoutes.ReferralStore.SaveClaimed | backend/routes/referral.js:391-395 | flags and saves the claimed conversion, which the reward-status lookup then reports as claimed |
| ReferralRoutes.ReferralStore.CountRewardGiven | backend/routes/referral.js:398-400 | `totalRewardsGiven` of the campaign rises by exactly 1; a missing campaign is left missing |
| ReferralRoutes.ReferralStore.RewardStatus | backend/routes/referral.js:417-448 | 404 exactly when no referral has the code; 404 for a conversion the referral does not hold; otherwise the status of a referral with that code and a conversion with that id |
| AuthRoutes.Signup | backend/routes/auth.js:32-63 | no code, an empty code, an unknown code or a missing campaign changes nothing; otherwise it creates a referral-sourced customer of the campaign's business and appends exactly one `completed` conversion naming it; earlier conversions are kept, and no campaign counter changes |

## Left out

- The randomness of `crypto.randomBytes` is a finite stream of draws supplied by the caller. The source loops until a draw is unused. The model stops with `CodeSpaceExhausted` when the stream runs out, and this state has no counterpart in the source.
- `new Date()` timestamps and database ObjectIds are naturals supplied by the caller.
- ReferralRoutes.ReferralStore.Convert: does not model the user-to-customer fallback of lines 131-155. That fallback creates a Customer from a User record and pushes it onto the BusinessProfile, and neither the User nor the BusinessProfile collection is part of this model. The caller supplies the customer the id resolves to (`resolved`): an id already in the customer collection resolves to itself, and any other resolution is a customer outside the collection. The customer collection is left unchanged.
- AuthRoutes.Signup: does not model the user record, password hashing, the JWT, or the BusinessProfile `$push`. Only the customer and referral writes are modelled.
- ReferralRoutes.ReferralStore.Stats: the populated referrer and customer names and emails (and the 'Unknown User' fallback) are left out; rows carry the ids instead.
- ReferralRoutes.ReferralStore.RewardStatus: the populated campaign and referrer documents are left out; the reply carries their ids.
- ReferralRoutes.ReferralStore.ClaimAt: the referral save and the campaign `$inc` are applied as one step, with the counter first. They touch different collections, so the order cannot be observed without concurrency.
- Express routing, JSON reply shaping and console logging.
- Concurrency and lost updates between handlers: each handler is one atomic step on the store.
- `rewardValue` and `rewardAmount` are JavaScript Numbers; the model uses unbounded integers, so floating point and non-integral amounts are not modelled.
- Campaign fields the ledger does not read, such as its status, are not modelled.
- Storage failures other than the unique-index rejection of signup (a database error answered with 500) are not modelled.
