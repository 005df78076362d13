/**
 * The Referral document of backend/models/Referral.js: its embedded click and
 * conversion records with their defaults and enums, the cached totals, and the
 * `pre('save')` hook that recomputes those totals from the embedded arrays.
 */
module ReferralModel {
  import opened Wrappers
  import opened Entities

  type Code = string

  datatype Click = Click(timestamp: Timestamp, ipAddress: Option<string>, userAgent: Option<string>)

  datatype ConversionStatus = Pending | Completed | Rejected

  datatype Conversion = Conversion(
    id: ConversionId,
    referredCustomerId: Option<CustomerId>,
    timestamp: Timestamp,
    status: ConversionStatus,
    rewardClaimed: bool,
    taskCompletedAt: Option<Timestamp>,
    taskCompletionProof: Option<string>,
    rewardClaimedAt: Option<Timestamp>,
    rewardAmount: Option<int>,
    rewardType: Option<RewardType>)

  datatype Referral = Referral(
    campaignId: CampaignId,
    referrerId: CustomerId,
    referralCode: Code,
    clicks: seq<Click>,
    conversions: seq<Conversion>,
    totalClicks: nat,
    totalConversions: nat,
    totalRewardsClaimed: nat,
    totalRewardsAmount: int,
    isActive: bool,
    createdAt: Timestamp,
    lastClickAt: Option<Timestamp>,
    lastConversionAt: Option<Timestamp>)

  /** A conversion as the routes push it: the schema defaults `status` to pending
      and `rewardClaimed` to false, and leaves its completion and reward fields unset. */
  function NewConversion(id: ConversionId, customer: CustomerId, timestamp: Timestamp,
                         status: ConversionStatus := Pending): (c: Conversion)
    ensures c.id == id && c.referredCustomerId == Some(customer) && c.timestamp == timestamp && c.status == status
    ensures !c.rewardClaimed && RewardOf(c) == 0
    ensures c.taskCompletedAt.None? && c.taskCompletionProof.None? && c.rewardClaimedAt.None?
    ensures c.rewardAmount.None? && c.rewardType.None?
  {
    Conversion(id, Some(customer), timestamp, status, false, None, None, None, None, None)
  }

  /** A referral as `/generate` creates it: empty arrays and every default. */
  function NewReferral(campaignId: CampaignId, referrerId: CustomerId, code: Code, createdAt: Timestamp): (r: Referral)
    ensures TotalsConsistent(r)
    ensures r.totalClicks == 0 && r.totalConversions == 0
    ensures r.totalRewardsClaimed == 0 && r.totalRewardsAmount == 0
  {
    Referral(campaignId, referrerId, code, [], [], 0, 0, 0, 0, true, createdAt, None, None)
  }

  /** `/complete-task`: the conversion is marked completed, stamped, given the
      proof, and the campaign's current reward terms are copied onto it. No
      status is required beforehand, so a claimed or rejected conversion is
      overwritten the same way. */
  function WithTaskCompleted(c: Conversion, at: Timestamp, proof: Option<string>, campaign: Campaign): (d: Conversion)
    ensures d.status == Completed && d.taskCompletedAt == Some(at) && d.taskCompletionProof == proof
    ensures d.rewardAmount == Some(campaign.rewardValue) && d.rewardType == Some(campaign.rewardType)
    ensures d.(status := c.status, taskCompletedAt := c.taskCompletedAt, taskCompletionProof := c.taskCompletionProof,
               rewardAmount := c.rewardAmount, rewardType := c.rewardType) == c
  {
    c.(status := Completed, taskCompletedAt := Some(at), taskCompletionProof := proof,
       rewardAmount := Some(campaign.rewardValue), rewardType := Some(campaign.rewardType))
  }

  /** `/claim-reward`: the one-way claimed flag is set and the claim is stamped. */
  function WithRewardClaimed(c: Conversion, at: Timestamp): (d: Conversion)
    ensures d.rewardClaimed && d.rewardClaimedAt == Some(at)
    ensures d.(rewardClaimed := c.rewardClaimed, rewardClaimedAt := c.rewardClaimedAt) == c
  {
    c.(rewardClaimed := true, rewardClaimedAt := Some(at))
  }

  // ---------------------------------------------------------------------------
  // What the cached totals are meant to be: functions of the embedded arrays.

  /** Timestamp of the last click, absent when there is none. */
  function LastClickAt(clicks: seq<Click>): Option<Timestamp>
  {
    if |clicks| == 0 then None else Some(clicks[|clicks| - 1].timestamp)
  }

  /** Timestamp of the last conversion, absent when there is none. */
  function LastConversionAt(conversions: seq<Conversion>): Option<Timestamp>
  {
    if |conversions| == 0 then None else Some(conversions[|conversions| - 1].timestamp)
  }

  /** What a conversion adds to `totalRewardsAmount`: its amount (missing counts
      as 0) when its reward is claimed, and nothing otherwise. */
  function RewardOf(c: Conversion): int
  {
    if c.rewardClaimed then (if c.rewardAmount.Some? then c.rewardAmount.value else 0) else 0
  }

  /** Number of conversions whose reward has been claimed. */
  function ClaimedCount(conversions: seq<Conversion>): (n: nat)
    ensures n <= |conversions|
    ensures n == 0 <==> forall k :: 0 <= k < |conversions| ==> !conversions[k].rewardClaimed
  {
    if |conversions| == 0 then 0
    else
      var init := conversions[..|conversions| - 1];
      assert forall k :: 0 <= k < |init| ==> init[k] == conversions[k];
      ClaimedCount(init) + (if conversions[|conversions| - 1].rewardClaimed then 1 else 0)
  }

  /** Sum of the reward amounts of the claimed conversions. */
  function ClaimedAmount(conversions: seq<Conversion>): (total: int)
    ensures (forall k :: 0 <= k < |conversions| ==> !conversions[k].rewardClaimed) ==> total == 0
  {
    if |conversions| == 0 then 0
    else
      var init := conversions[..|conversions| - 1];
      assert forall k :: 0 <= k < |init| ==> init[k] == conversions[k];
      ClaimedAmount(init) + RewardOf(conversions[|conversions| - 1])
  }

  predicate ClickTotalsConsistent(r: Referral)
  {
    r.totalClicks == |r.clicks| && r.lastClickAt == LastClickAt(r.clicks)
  }

  predicate ConversionTotalsConsistent(r: Referral)
  {
    && r.totalConversions == |r.conversions|
    && r.lastConversionAt == LastConversionAt(r.conversions)
    && r.totalRewardsClaimed == ClaimedCount(r.conversions)
    && r.totalRewardsAmount == ClaimedAmount(r.conversions)
  }

  /** The cached totals are exactly what the arrays say. */
  predicate TotalsConsistent(r: Referral)
  {
    ClickTotalsConsistent(r) && ConversionTotalsConsistent(r)
  }

  /** The document with every cached total refreshed from its arrays: what a save
      leaves behind once the hook has run for both arrays. */
  function Recomputed(r: Referral): (s: Referral)
    ensures TotalsConsistent(s)
    ensures s.clicks == r.clicks && s.conversions == r.conversions
    ensures s.totalRewardsClaimed <= s.totalConversions
    ensures s.(totalClicks := r.totalClicks, lastClickAt := r.lastClickAt,
               totalConversions := r.totalConversions, lastConversionAt := r.lastConversionAt,
               totalRewardsClaimed := r.totalRewardsClaimed, totalRewardsAmount := r.totalRewardsAmount) == r
  {
    r.(totalClicks := |r.clicks|, lastClickAt := LastClickAt(r.clicks),
       totalConversions := |r.conversions|, lastConversionAt := LastConversionAt(r.conversions),
       totalRewardsClaimed := ClaimedCount(r.conversions), totalRewardsAmount := ClaimedAmount(r.conversions))
  }

  /** `conversions.filter(c => c.rewardClaimed).length`, as the hook computes it. */
  method CountClaimed(conversions: seq<Conversion>) returns (claimed: nat)
    ensures claimed == ClaimedCount(conversions)
  {
    claimed := 0;
    var i := 0;
    while i < |conversions|
      invariant 0 <= i <= |conversions|
      invariant claimed == ClaimedCount(conversions[..i])
    {
      assert conversions[..i + 1][..i] == conversions[..i];
      if conversions[i].rewardClaimed {
        claimed := claimed + 1;
      }
      i := i + 1;
    }
    assert conversions[..|conversions|] == conversions;
  }

  /** The hook's reduce: the sum of `rewardAmount || 0` over claimed conversions. */
  method SumClaimedAmounts(conversions: seq<Conversion>) returns (amount: int)
    ensures amount == ClaimedAmount(conversions)
  {
    amount := 0;
    var i := 0;
    while i < |conversions|
      invariant 0 <= i <= |conversions|
      invariant amount == ClaimedAmount(conversions[..i])
    {
      assert conversions[..i + 1][..i] == conversions[..i];
      var c := conversions[i];
      amount := amount + (if c.rewardClaimed then (if c.rewardAmount.Some? then c.rewardAmount.value else 0) else 0);
      i := i + 1;
    }
    assert conversions[..|conversions|] == conversions;
  }

  /**
   * The `pre('save')` hook. When the clicks were modified it refreshes
   * `totalClicks` and `lastClickAt`; when the conversions were modified it
   * refreshes `totalConversions`, `lastConversionAt`, and the claimed count
   * and amount. Nothing else of the document changes.
   */
  method PreSave(doc: Referral, clicksModified: bool, conversionsModified: bool) returns (saved: Referral)
    ensures saved.(totalClicks := doc.totalClicks, lastClickAt := doc.lastClickAt,
                   totalConversions := doc.totalConversions, lastConversionAt := doc.lastConversionAt,
                   totalRewardsClaimed := doc.totalRewardsClaimed, totalRewardsAmount := doc.totalRewardsAmount) == doc
    ensures clicksModified ==> ClickTotalsConsistent(saved)
    ensures !clicksModified ==> saved.totalClicks == doc.totalClicks && saved.lastClickAt == doc.lastClickAt
    ensures conversionsModified ==> ConversionTotalsConsistent(saved)
    ensures !conversionsModified ==>
      && saved.totalConversions == doc.totalConversions && saved.lastConversionAt == doc.lastConversionAt
      && saved.totalRewardsClaimed == doc.totalRewardsClaimed && saved.totalRewardsAmount == doc.totalRewardsAmount
    ensures (clicksModified || ClickTotalsConsistent(doc)) && (conversionsModified || ConversionTotalsConsistent(doc))
      ==> saved == Recomputed(doc)
  {
    var totalClicks, lastClickAt := doc.totalClicks, doc.lastClickAt;
    if clicksModified {
      totalClicks := |doc.clicks|;
      lastClickAt := LastClickAt(doc.clicks);
    }
    var totalConversions, lastConversionAt := doc.totalConversions, doc.lastConversionAt;
    var totalRewardsClaimed, totalRewardsAmount := doc.totalRewardsClaimed, doc.totalRewardsAmount;
    if conversionsModified {
      totalConversions := |doc.conversions|;
      lastConversionAt := LastConversionAt(doc.conversions);
      totalRewardsClaimed := CountClaimed(doc.conversions);
      totalRewardsAmount := SumClaimedAmounts(doc.conversions);
    }
    saved := doc.(totalClicks := totalClicks, lastClickAt := lastClickAt,
                  totalConversions := totalConversions, lastConversionAt := lastConversionAt,
                  totalRewardsClaimed := totalRewardsClaimed, totalRewardsAmount := totalRewardsAmount);
  }

  // ---------------------------------------------------------------------------
  // How the totals move when one conversion is appended or replaced.

  lemma {:induction false} ClaimedCountAppend(s: seq<Conversion>, c: Conversion)
    ensures ClaimedCount(s + [c]) == ClaimedCount(s) + (if c.rewardClaimed then 1 else 0)
    ensures ClaimedAmount(s + [c]) == ClaimedAmount(s) + RewardOf(c)
  {
    assert (s + [c])[..|s|] == s;
  }

  /** Replacing the conversion at `k` moves the claimed count and amount by the
      difference between the new and the old record, and by nothing else. */
  lemma {:induction false} ClaimedTotalsUpdate(s: seq<Conversion>, k: nat, c: Conversion)
    requires k < |s|
    ensures ClaimedCount(s[k := c]) ==
      ClaimedCount(s) - (if s[k].rewardClaimed then 1 else 0) + (if c.rewardClaimed then 1 else 0)
    ensures ClaimedAmount(s[k := c]) == ClaimedAmount(s) - RewardOf(s[k]) + RewardOf(c)
  {
    var n := |s| - 1;
    var t := s[k := c];
    if k == n {
      assert t[..n] == s[..n];
    } else {
      assert t[..n] == s[..n][k := c];
      ClaimedTotalsUpdate(s[..n], k, c);
    }
  }

  /** Appending a conversion to a consistent referral and saving raises
      `totalConversions` by one, moves the claimed totals by what the new record
      contributes, and stamps `lastConversionAt` with its timestamp. */
  lemma AppendConversionTotals(r: Referral, c: Conversion)
    requires TotalsConsistent(r)
    ensures var s := Recomputed(r.(conversions := r.conversions + [c]));
      && s.totalConversions == r.totalConversions + 1
      && s.lastConversionAt == Some(c.timestamp)
      && s.totalRewardsClaimed == r.totalRewardsClaimed + (if c.rewardClaimed then 1 else 0)
      && s.totalRewardsAmount == r.totalRewardsAmount + RewardOf(c)
      && s.totalClicks == r.totalClicks && s.lastClickAt == r.lastClickAt
  {
    ClaimedCountAppend(r.conversions, c);
  }

  /** Appending a click to a consistent referral and saving raises `totalClicks`
      by one, stamps `lastClickAt`, and leaves the conversion totals alone. */
  lemma AppendClickTotals(r: Referral, click: Click)
    requires TotalsConsistent(r)
    ensures var s := Recomputed(r.(clicks := r.clicks + [click]));
      && s.totalClicks == r.totalClicks + 1
      && s.lastClickAt == Some(click.timestamp)
      && s.totalConversions == r.totalConversions && s.lastConversionAt == r.lastConversionAt
      && s.totalRewardsClaimed == r.totalRewardsClaimed && s.totalRewardsAmount == r.totalRewardsAmount
  {
  }
}
