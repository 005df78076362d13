/**
 * The queries the routes of backend/routes/referral.js run against the
 * referral collection (`findOne` by code, by (campaign, referrer), a
 * conversion by its sub-document id), the eligibility aggregate of
 * `/claim-reward`, the sums of `/stats`, and the invariants the ledger keeps.
 */
module LedgerQueries {
  import opened Wrappers
  import opened Entities
  import opened ReferralModel

  // ---------------------------------------------------------------------------
  // Lookups

  /** `Referral.findOne({ referralCode: code })`: the first referral with that code. */
  function FindByCode(refs: seq<Referral>, code: Code): (r: Option<nat>)
    ensures r.Some? ==> r.value < |refs| && refs[r.value].referralCode == code
    ensures r.Some? ==> forall j :: 0 <= j < r.value ==> refs[j].referralCode != code
    ensures r.None? <==> forall j :: 0 <= j < |refs| ==> refs[j].referralCode != code
  {
    if |refs| == 0 then None
    else if refs[0].referralCode == code then Some(0)
    else
      match FindByCode(refs[1..], code)
      case None => None
      case Some(j) => Some(j + 1)
  }

  /** `Referral.findOne({ campaignId, referrerId })`. */
  function FindByPair(refs: seq<Referral>, campaignId: CampaignId, referrerId: CustomerId): (r: Option<nat>)
    ensures r.Some? ==> r.value < |refs| && refs[r.value].campaignId == campaignId && refs[r.value].referrerId == referrerId
    ensures r.None? <==> forall j :: 0 <= j < |refs| ==> refs[j].campaignId != campaignId || refs[j].referrerId != referrerId
  {
    if |refs| == 0 then None
    else if refs[0].campaignId == campaignId && refs[0].referrerId == referrerId then Some(0)
    else
      match FindByPair(refs[1..], campaignId, referrerId)
      case None => None
      case Some(j) => Some(j + 1)
  }

  /** `referral.conversions.id(conversionId)`: the first embedded conversion with that id. */
  function FindConversion(conversions: seq<Conversion>, id: ConversionId): (r: Option<nat>)
    ensures r.Some? ==> r.value < |conversions| && conversions[r.value].id == id
    ensures r.Some? ==> forall j :: 0 <= j < r.value ==> conversions[j].id != id
    ensures r.None? <==> forall j :: 0 <= j < |conversions| ==> conversions[j].id != id
  {
    if |conversions| == 0 then None
    else if conversions[0].id == id then Some(0)
    else
      match FindConversion(conversions[1..], id)
      case None => None
      case Some(j) => Some(j + 1)
  }

  /** The duplicate guard of `/convert`: some conversion already names this customer. */
  predicate HasConversionFor(conversions: seq<Conversion>, customer: CustomerId)
  {
    exists k :: 0 <= k < |conversions| && conversions[k].referredCustomerId == Some(customer)
  }

  /** After a conversion naming a customer is appended, the duplicate guard
      fires for that customer, and for any other customer exactly as before. */
  lemma ConvertedCustomerRecorded(conversions: seq<Conversion>, c: Conversion, customer: CustomerId)
    ensures HasConversionFor(conversions + [c], customer) <==>
      HasConversionFor(conversions, customer) || c.referredCustomerId == Some(customer)
  {
    var s := conversions + [c];
    if c.referredCustomerId == Some(customer) {
      assert s[|conversions|].referredCustomerId == Some(customer);
    }
    if HasConversionFor(s, customer) && c.referredCustomerId != Some(customer) {
      var k :| 0 <= k < |s| && s[k].referredCustomerId == Some(customer);
      assert k < |conversions| && conversions[k] == s[k];
    }
    if HasConversionFor(conversions, customer) {
      var k :| 0 <= k < |conversions| && conversions[k].referredCustomerId == Some(customer);
      assert s[k] == conversions[k];
    }
  }

  // ---------------------------------------------------------------------------
  // Eligibility: completed conversions whose reward is not yet claimed

  predicate Eligible(c: Conversion)
  {
    c.status == Completed && !c.rewardClaimed
  }

  /** The `$filter`/`$size` stage for one referral. */
  function EligibleIn(conversions: seq<Conversion>): (n: nat)
    ensures n <= |conversions|
    ensures n == 0 <==> forall k :: 0 <= k < |conversions| ==> !Eligible(conversions[k])
  {
    if |conversions| == 0 then 0
    else
      var init := conversions[..|conversions| - 1];
      assert forall k :: 0 <= k < |init| ==> init[k] == conversions[k];
      EligibleIn(init) + (if Eligible(conversions[|conversions| - 1]) then 1 else 0)
  }

  /** The `$match` on (campaignId, referrerId) followed by the sum of the
      per-referral counts: eligible conversions over all of the referrer's
      referrals in the campaign. */
  function EligibleCount(refs: seq<Referral>, campaignId: CampaignId, referrerId: CustomerId): nat
  {
    if |refs| == 0 then 0
    else
      var last := refs[|refs| - 1];
      EligibleCount(refs[..|refs| - 1], campaignId, referrerId)
        + (if last.campaignId == campaignId && last.referrerId == referrerId then EligibleIn(last.conversions) else 0)
  }

  /** The referrer's eligible count bounds each of its referrals' eligible
      conversions, and it is zero exactly when none of them has one. */
  lemma {:induction false} EligibleCountBounds(refs: seq<Referral>, campaignId: CampaignId, referrerId: CustomerId)
    ensures forall j :: 0 <= j < |refs| && refs[j].campaignId == campaignId && refs[j].referrerId == referrerId ==>
      EligibleIn(refs[j].conversions) <= EligibleCount(refs, campaignId, referrerId)
    ensures EligibleCount(refs, campaignId, referrerId) == 0 <==>
      forall j :: 0 <= j < |refs| && refs[j].campaignId == campaignId && refs[j].referrerId == referrerId ==>
        EligibleIn(refs[j].conversions) == 0
  {
    if |refs| > 0 {
      var init := refs[..|refs| - 1];
      EligibleCountBounds(init, campaignId, referrerId);
      assert forall j :: 0 <= j < |init| ==> init[j] == refs[j];
    }
  }

  /** The claim threshold of `/claim-reward`. */
  const ClaimThreshold: nat := 3

  lemma {:induction false} EligibleInUpdate(s: seq<Conversion>, k: nat, c: Conversion)
    requires k < |s|
    ensures EligibleIn(s[k := c]) == EligibleIn(s) - (if Eligible(s[k]) then 1 else 0) + (if Eligible(c) then 1 else 0)
  {
    var n := |s| - 1;
    var t := s[k := c];
    if k == n {
      assert t[..n] == s[..n];
    } else {
      assert t[..n] == s[..n][k := c];
      EligibleInUpdate(s[..n], k, c);
    }
  }

  lemma {:induction false} EligibleInAppend(s: seq<Conversion>, c: Conversion)
    ensures EligibleIn(s + [c]) == EligibleIn(s) + (if Eligible(c) then 1 else 0)
  {
    assert (s + [c])[..|s|] == s;
  }

  /** Replacing one referral by another with the same campaign and referrer moves
      that pair's eligible count by exactly the referral's difference and
      leaves every other pair's count unchanged. */
  lemma {:induction false} EligibleCountUpdate(refs: seq<Referral>, i: nat, r: Referral, campaignId: CampaignId, referrerId: CustomerId)
    requires i < |refs|
    requires r.campaignId == refs[i].campaignId && r.referrerId == refs[i].referrerId
    ensures EligibleCount(refs[i := r], campaignId, referrerId) ==
      EligibleCount(refs, campaignId, referrerId)
        + (if r.campaignId == campaignId && r.referrerId == referrerId
           then EligibleIn(r.conversions) - EligibleIn(refs[i].conversions) else 0)
  {
    var n := |refs| - 1;
    var t := refs[i := r];
    if i == n {
      assert t[..n] == refs[..n];
    } else {
      assert t[..n] == refs[..n][i := r];
      EligibleCountUpdate(refs[..n], i, r, campaignId, referrerId);
    }
  }

  /** Under the one-referral-per-pair invariant the campaign-wide aggregate is
      just the count over the referral the claim is made on. */
  lemma {:induction false} EligibleCountOfOwnReferral(refs: seq<Referral>, i: nat)
    requires PairsUnique(refs)
    requires i < |refs|
    ensures EligibleCount(refs, refs[i].campaignId, refs[i].referrerId) == EligibleIn(refs[i].conversions)
  {
    var n := |refs| - 1;
    var c, p := refs[i].campaignId, refs[i].referrerId;
    if i == n {
      NoOtherReferralOfPair(refs[..n], c, p);
    } else {
      EligibleCountOfOwnReferral(refs[..n], i);
    }
  }

  lemma {:induction false} NoOtherReferralOfPair(refs: seq<Referral>, campaignId: CampaignId, referrerId: CustomerId)
    requires forall j :: 0 <= j < |refs| ==> refs[j].campaignId != campaignId || refs[j].referrerId != referrerId
    ensures EligibleCount(refs, campaignId, referrerId) == 0
  {
    if |refs| > 0 {
      NoOtherReferralOfPair(refs[..|refs| - 1], campaignId, referrerId);
    }
  }

  /** A successful claim on an eligible conversion lowers its referrer's eligible
      count in that campaign by exactly one and leaves every other
      (campaign, referrer) count as it was. */
  lemma ClaimConsumesOneEligible(refs: seq<Referral>, i: nat, k: nat, at: Timestamp, campaignId: CampaignId, referrerId: CustomerId)
    requires i < |refs| && k < |refs[i].conversions|
    requires Eligible(refs[i].conversions[k])
    ensures var r := refs[i];
      var claimed := Recomputed(r.(conversions := r.conversions[k := WithRewardClaimed(r.conversions[k], at)]));
      EligibleCount(refs[i := claimed], campaignId, referrerId) ==
        EligibleCount(refs, campaignId, referrerId) - (if r.campaignId == campaignId && r.referrerId == referrerId then 1 else 0)
  {
    var r := refs[i];
    var d := WithRewardClaimed(r.conversions[k], at);
    var claimed := Recomputed(r.(conversions := r.conversions[k := d]));
    EligibleInUpdate(r.conversions, k, d);
    EligibleCountUpdate(refs, i, claimed, campaignId, referrerId);
  }

  /** The ledger after the reward of eligible conversion `k` of referral `i` is
      claimed at `at` and the referral saved: only that conversion changes, its
      referral's claimed count rises by one and its claimed amount by the
      conversion's reward, and its referrer's eligible count in the campaign
      drops by exactly one. */
  function ClaimedAt(refs: seq<Referral>, i: nat, k: nat, at: Timestamp): (after: seq<Referral>)
    requires i < |refs| && k < |refs[i].conversions|
    requires Eligible(refs[i].conversions[k])
    ensures |after| == |refs|
    ensures forall j :: 0 <= j < |refs| && j != i ==> after[j] == refs[j]
    ensures after[i] == Recomputed(refs[i].(conversions := refs[i].conversions[k := WithRewardClaimed(refs[i].conversions[k], at)]))
    ensures TotalsConsistent(refs[i]) ==>
      && after[i].totalRewardsClaimed == refs[i].totalRewardsClaimed + 1
      && after[i].totalRewardsAmount == refs[i].totalRewardsAmount + RewardOf(WithRewardClaimed(refs[i].conversions[k], at))
      && after[i].totalConversions == refs[i].totalConversions
    ensures EligibleCount(after, refs[i].campaignId, refs[i].referrerId) ==
      EligibleCount(refs, refs[i].campaignId, refs[i].referrerId) - 1
  {
    var r := refs[i];
    var claimed := WithRewardClaimed(r.conversions[k], at);
    ClaimedTotalsUpdate(r.conversions, k, claimed);
    ClaimConsumesOneEligible(refs, i, k, at, r.campaignId, r.referrerId);
    refs[i := Recomputed(r.(conversions := r.conversions[k := claimed]))]
  }

  // ---------------------------------------------------------------------------
  // The invariants of the referral collection

  /** `referralCode` is declared `unique`. */
  predicate CodesUnique(refs: seq<Referral>)
  {
    forall i, j :: 0 <= i < j < |refs| ==> refs[i].referralCode != refs[j].referralCode
  }

  /** At most one referral per (campaign, referrer): `/generate` looks before it inserts. */
  predicate PairsUnique(refs: seq<Referral>)
  {
    forall i, j :: 0 <= i < j < |refs| ==>
      refs[i].campaignId != refs[j].campaignId || refs[i].referrerId != refs[j].referrerId
  }

  /** A reward is only ever claimed on a completed conversion. */
  predicate ClaimsFollowCompletion(r: Referral)
  {
    forall k :: 0 <= k < |r.conversions| ==> r.conversions[k].rewardClaimed ==> r.conversions[k].status == Completed
  }

  predicate DocumentInvariant(r: Referral)
  {
    TotalsConsistent(r) && ClaimsFollowCompletion(r)
  }

  predicate LedgerInvariant(refs: seq<Referral>, customers: map<CustomerId, Customer>)
  {
    && CodesUnique(refs)
    && PairsUnique(refs)
    && (forall i :: 0 <= i < |refs| ==> DocumentInvariant(refs[i]))
    && CustomersUnique(customers)
  }

  /** Saving one referral back in place, with its code, campaign and referrer
      unchanged and its own invariant holding, keeps the ledger invariant. */
  lemma InvariantAfterSave(refs: seq<Referral>, customers: map<CustomerId, Customer>, i: nat, r: Referral)
    requires LedgerInvariant(refs, customers)
    requires i < |refs|
    requires r.referralCode == refs[i].referralCode
    requires r.campaignId == refs[i].campaignId && r.referrerId == refs[i].referrerId
    requires DocumentInvariant(r)
    ensures LedgerInvariant(refs[i := r], customers)
  {
  }

  /** Inserting a new referral whose code and pair are both unused keeps the ledger invariant. */
  lemma InvariantAfterInsert(refs: seq<Referral>, customers: map<CustomerId, Customer>, r: Referral)
    requires LedgerInvariant(refs, customers)
    requires FindByCode(refs, r.referralCode).None?
    requires FindByPair(refs, r.campaignId, r.referrerId).None?
    requires DocumentInvariant(r)
    ensures LedgerInvariant(refs + [r], customers)
  {
  }

  // ---------------------------------------------------------------------------
  // History: what no operation ever takes back

  predicate ConversionEvolved(before: Conversion, after: Conversion)
  {
    && after.id == before.id
    && after.referredCustomerId == before.referredCustomerId
    && after.timestamp == before.timestamp
    && (before.rewardClaimed ==> after.rewardClaimed && after.rewardClaimedAt == before.rewardClaimedAt)
  }

  /** A referral keeps its identity, its clicks and conversions only grow, and a
      claimed reward stays claimed. */
  predicate ReferralEvolved(before: Referral, after: Referral)
  {
    && after.campaignId == before.campaignId
    && after.referrerId == before.referrerId
    && after.referralCode == before.referralCode
    && after.createdAt == before.createdAt
    && |before.clicks| <= |after.clicks| && after.clicks[..|before.clicks|] == before.clicks
    && |before.conversions| <= |after.conversions|
    && forall k :: 0 <= k < |before.conversions| ==> ConversionEvolved(before.conversions[k], after.conversions[k])
  }

  /** Referrals are never removed or reordered, and each one only evolves. */
  predicate LedgerEvolved(before: seq<Referral>, after: seq<Referral>)
  {
    |before| <= |after| && forall i :: 0 <= i < |before| ==> ReferralEvolved(before[i], after[i])
  }

  lemma LedgerEvolvedTransitive(a: seq<Referral>, b: seq<Referral>, c: seq<Referral>)
    requires LedgerEvolved(a, b) && LedgerEvolved(b, c)
    ensures LedgerEvolved(a, c)
  {
    forall i | 0 <= i < |a| ensures ReferralEvolved(a[i], c[i]) {
      var x, y, z := a[i], b[i], c[i];
      assert z.clicks[..|x.clicks|] == z.clicks[..|y.clicks|][..|x.clicks|];
      assert forall k :: 0 <= k < |x.conversions| ==> ConversionEvolved(y.conversions[k], z.conversions[k]);
    }
  }

  lemma ReferralEvolvedReflexive(r: Referral)
    ensures ReferralEvolved(r, r)
  {
    assert r.clicks[..|r.clicks|] == r.clicks;
  }

  lemma LedgerEvolvedReflexive(refs: seq<Referral>)
    ensures LedgerEvolved(refs, refs)
  {
    forall j | 0 <= j < |refs| ensures ReferralEvolved(refs[j], refs[j]) {
      ReferralEvolvedReflexive(refs[j]);
    }
  }

  lemma EvolvedAfterSave(refs: seq<Referral>, i: nat, r: Referral)
    requires i < |refs| && ReferralEvolved(refs[i], r)
    ensures LedgerEvolved(refs, refs[i := r])
  {
    forall j | 0 <= j < |refs| && j != i ensures ReferralEvolved(refs[j], refs[i := r][j]) {
      ReferralEvolvedReflexive(refs[j]);
    }
  }

  lemma EvolvedAfterInsert(refs: seq<Referral>, r: Referral)
    ensures LedgerEvolved(refs, refs + [r])
  {
    forall j | 0 <= j < |refs| ensures ReferralEvolved(refs[j], (refs + [r])[j]) {
      ReferralEvolvedReflexive(refs[j]);
    }
  }

  lemma ClaimsAfterAppend(r: Referral, c: Conversion)
    requires ClaimsFollowCompletion(r)
    requires c.rewardClaimed ==> c.status == Completed
    ensures ClaimsFollowCompletion(Recomputed(r.(conversions := r.conversions + [c])))
  {
  }

  lemma AppendedEvolved(r: Referral, c: Conversion)
    ensures ReferralEvolved(r, Recomputed(r.(conversions := r.conversions + [c])))
  {
    assert r.clicks[..|r.clicks|] == r.clicks;
  }

  lemma ClaimsAfterUpdate(r: Referral, k: nat, c: Conversion)
    requires k < |r.conversions|
    requires ClaimsFollowCompletion(r)
    requires c.rewardClaimed ==> c.status == Completed
    ensures ClaimsFollowCompletion(Recomputed(r.(conversions := r.conversions[k := c])))
  {
  }

  lemma UpdatedEvolved(r: Referral, k: nat, c: Conversion)
    requires k < |r.conversions|
    requires ConversionEvolved(r.conversions[k], c)
    ensures ReferralEvolved(r, Recomputed(r.(conversions := r.conversions[k := c])))
  {
    assert r.clicks[..|r.clicks|] == r.clicks;
  }

  /** Once a referral of a pair is inserted where there was none, the pair lookup finds it. */
  lemma {:induction false} NewPairFound(refs: seq<Referral>, r: Referral)
    requires FindByPair(refs, r.campaignId, r.referrerId).None?
    ensures FindByPair(refs + [r], r.campaignId, r.referrerId) == Some(|refs|)
  {
    if |refs| > 0 {
      assert (refs + [r])[1..] == refs[1..] + [r];
      NewPairFound(refs[1..], r);
    }
  }

  /** Lookups by code only look at codes. */
  lemma {:induction false} FindByCodeSameCodes(a: seq<Referral>, b: seq<Referral>, code: Code)
    requires |a| == |b|
    requires forall j :: 0 <= j < |a| ==> a[j].referralCode == b[j].referralCode
    ensures FindByCode(a, code) == FindByCode(b, code)
  {
    if |a| > 0 {
      FindByCodeSameCodes(a[1..], b[1..], code);
    }
  }

  /** Lookups of a conversion only look at conversion ids. */
  lemma {:induction false} FindConversionSameIds(a: seq<Conversion>, b: seq<Conversion>, id: ConversionId)
    requires |a| == |b|
    requires forall j :: 0 <= j < |a| ==> a[j].id == b[j].id
    ensures FindConversion(a, id) == FindConversion(b, id)
  {
    if |a| > 0 {
      FindConversionSameIds(a[1..], b[1..], id);
    }
  }

  // ---------------------------------------------------------------------------
  // Stats sums

  /** `Referral.find({ campaignId })`, in collection order. */
  function InCampaign(refs: seq<Referral>, campaignId: CampaignId): (rs: seq<Referral>)
    ensures |rs| <= |refs|
    ensures forall j :: 0 <= j < |rs| ==> rs[j].campaignId == campaignId && rs[j] in refs
  {
    if |refs| == 0 then []
    else
      var init := InCampaign(refs[..|refs| - 1], campaignId);
      var last := refs[|refs| - 1];
      assert forall x :: x in refs[..|refs| - 1] ==> x in refs;
      init + (if last.campaignId == campaignId then [last] else [])
  }

  /** The listing is complete: every referral of the campaign appears in it
      exactly as often as in the ledger, and no other referral appears. */
  lemma {:induction false} InCampaignComplete(refs: seq<Referral>, campaignId: CampaignId)
    ensures forall x ::
      multiset(InCampaign(refs, campaignId))[x] == (if x.campaignId == campaignId then multiset(refs)[x] else 0)
  {
    if |refs| > 0 {
      var last := refs[|refs| - 1];
      InCampaignComplete(refs[..|refs| - 1], campaignId);
      assert refs == refs[..|refs| - 1] + [last];
      assert multiset(refs) == multiset(refs[..|refs| - 1]) + multiset{last};
    }
  }

  /** `referrals.reduce((sum, ref) => sum + ref.totalClicks, 0)`: the cached click counts. */
  function SumTotalClicks(rs: seq<Referral>): nat
  {
    if |rs| == 0 then 0 else SumTotalClicks(rs[..|rs| - 1]) + rs[|rs| - 1].totalClicks
  }

  /** `referrals.reduce((sum, ref) => sum + ref.conversions.length, 0)`. */
  function SumConversions(rs: seq<Referral>): nat
  {
    if |rs| == 0 then 0 else SumConversions(rs[..|rs| - 1]) + |rs[|rs| - 1].conversions|
  }

  /** Each referral's cached click total and conversion count is bounded by
      the campaign totals, and a total is zero exactly when every part is. */
  lemma {:induction false} SumsBound(rs: seq<Referral>)
    ensures forall j :: 0 <= j < |rs| ==> rs[j].totalClicks <= SumTotalClicks(rs)
    ensures forall j :: 0 <= j < |rs| ==> |rs[j].conversions| <= SumConversions(rs)
    ensures SumTotalClicks(rs) == 0 <==> forall j :: 0 <= j < |rs| ==> rs[j].totalClicks == 0
    ensures SumConversions(rs) == 0 <==> forall j :: 0 <= j < |rs| ==> |rs[j].conversions| == 0
  {
    if |rs| > 0 {
      var init := rs[..|rs| - 1];
      SumsBound(init);
      assert forall j :: 0 <= j < |init| ==> init[j] == rs[j];
    }
  }

  /** The number of clicks actually recorded in the arrays. */
  function RecordedClicks(rs: seq<Referral>): nat
  {
    if |rs| == 0 then 0 else RecordedClicks(rs[..|rs| - 1]) + |rs[|rs| - 1].clicks|
  }

  /** On consistent documents the sum of cached click totals is the number of
      clicks recorded. */
  lemma {:induction false} CachedClicksAreRecorded(rs: seq<Referral>)
    requires forall j :: 0 <= j < |rs| ==> TotalsConsistent(rs[j])
    ensures SumTotalClicks(rs) == RecordedClicks(rs)
  {
    if |rs| > 0 {
      CachedClicksAreRecorded(rs[..|rs| - 1]);
    }
  }

  /** On a consistent ledger the stats' click total for a campaign is the number
      of clicks recorded on its referrals. */
  lemma CampaignClicksRecorded(refs: seq<Referral>, campaignId: CampaignId)
    requires forall i :: 0 <= i < |refs| ==> DocumentInvariant(refs[i])
    ensures SumTotalClicks(InCampaign(refs, campaignId)) == RecordedClicks(InCampaign(refs, campaignId))
  {
    var rs := InCampaign(refs, campaignId);
    forall j | 0 <= j < |rs| ensures TotalsConsistent(rs[j]) {
      assert rs[j] in refs;
      var i :| 0 <= i < |refs| && refs[i] == rs[j];
      assert DocumentInvariant(refs[i]);
    }
    CachedClicksAreRecorded(rs);
  }

  lemma {:induction false} SumsAppend(rs: seq<Referral>, extra: seq<Referral>)
    ensures SumTotalClicks(rs + extra) == SumTotalClicks(rs) + SumTotalClicks(extra)
    ensures SumConversions(rs + extra) == SumConversions(rs) + SumConversions(extra)
  {
    if |extra| == 0 {
      assert rs + extra == rs;
    } else {
      var n := |extra| - 1;
      assert (rs + extra)[..|rs| + n] == rs + extra[..n];
      SumsAppend(rs, extra[..n]);
    }
  }

  /** Saving one referral of another campaign back in place leaves a
      campaign's listing alone. */
  lemma {:induction false} InCampaignAfterOtherSave(refs: seq<Referral>, i: nat, r: Referral, campaignId: CampaignId)
    requires i < |refs| && r.campaignId == refs[i].campaignId != campaignId
    ensures InCampaign(refs[i := r], campaignId) == InCampaign(refs, campaignId)
  {
    var n := |refs| - 1;
    var t := refs[i := r];
    if i == n {
      assert t[..n] == refs[..n];
    } else {
      assert t[..n] == refs[..n][i := r];
      assert t[n] == refs[n];
      InCampaignAfterOtherSave(refs[..n], i, r, campaignId);
    }
  }

  /** Saving one referral of a campaign back in place replaces it, at the
      same position, in that campaign's listing. */
  lemma {:induction false} InCampaignAfterOwnSave(refs: seq<Referral>, i: nat, r: Referral)
    returns (j: nat)
    requires i < |refs| && r.campaignId == refs[i].campaignId
    ensures j < |InCampaign(refs, r.campaignId)|
    ensures InCampaign(refs, r.campaignId)[j] == refs[i]
    ensures InCampaign(refs[i := r], r.campaignId) == InCampaign(refs, r.campaignId)[j := r]
  {
    var c := r.campaignId;
    var n := |refs| - 1;
    var t := refs[i := r];
    var init := InCampaign(refs[..n], c);
    if i == n {
      assert t[..n] == refs[..n];
      j := |init|;
    } else {
      assert t[..n] == refs[..n][i := r];
      assert t[n] == refs[n];
      var tail := if refs[n].campaignId == c then [refs[n]] else [];
      assert InCampaign(refs, c) == init + tail;
      assert InCampaign(t, c) == InCampaign(refs[..n][i := r], c) + tail;
      j := InCampaignAfterOwnSave(refs[..n], i, r);
      assert (init + tail)[j := r] == init[j := r] + tail;
    }
  }

  lemma {:induction false} SumsAfterReplace(rs: seq<Referral>, j: nat, r: Referral)
    requires j < |rs|
    ensures SumTotalClicks(rs[j := r]) == SumTotalClicks(rs) - rs[j].totalClicks + r.totalClicks
    ensures SumConversions(rs[j := r]) == SumConversions(rs) - |rs[j].conversions| + |r.conversions|
  {
    var n := |rs| - 1;
    if j == n {
      assert rs[j := r][..n] == rs[..n];
    } else {
      assert rs[j := r][..n] == rs[..n][j := r];
      SumsAfterReplace(rs[..n], j, r);
    }
  }

  /** Saving one referral back in place (same campaign) moves its campaign's
      stats totals by that referral's difference and leaves every other
      campaign's totals unchanged; the number of referrals listed is unchanged. */
  lemma CampaignStatsAfterSave(refs: seq<Referral>, i: nat, r: Referral, campaignId: CampaignId)
    requires i < |refs| && r.campaignId == refs[i].campaignId
    ensures |InCampaign(refs[i := r], campaignId)| == |InCampaign(refs, campaignId)|
    ensures SumTotalClicks(InCampaign(refs[i := r], campaignId)) ==
      SumTotalClicks(InCampaign(refs, campaignId))
        + (if r.campaignId == campaignId then r.totalClicks - refs[i].totalClicks else 0)
    ensures SumConversions(InCampaign(refs[i := r], campaignId)) ==
      SumConversions(InCampaign(refs, campaignId))
        + (if r.campaignId == campaignId then |r.conversions| - |refs[i].conversions| else 0)
  {
    if r.campaignId == campaignId {
      var j := InCampaignAfterOwnSave(refs, i, r);
      SumsAfterReplace(InCampaign(refs, campaignId), j, r);
    } else {
      InCampaignAfterOtherSave(refs, i, r, campaignId);
    }
  }

  /** Inserting a referral with no clicks and no conversions lists one more
      referral for its campaign and leaves every campaign's click and
      conversion totals unchanged. */
  lemma CampaignStatsAfterInsert(refs: seq<Referral>, r: Referral, campaignId: CampaignId)
    requires r.totalClicks == 0 && |r.conversions| == 0
    ensures |InCampaign(refs + [r], campaignId)| == |InCampaign(refs, campaignId)| + (if r.campaignId == campaignId then 1 else 0)
    ensures SumTotalClicks(InCampaign(refs + [r], campaignId)) == SumTotalClicks(InCampaign(refs, campaignId))
    ensures SumConversions(InCampaign(refs + [r], campaignId)) == SumConversions(InCampaign(refs, campaignId))
  {
    assert (refs + [r])[..|refs|] == refs;
    var extra := if r.campaignId == campaignId then [r] else [];
    SumsAppend(InCampaign(refs, campaignId), extra);
  }
}
