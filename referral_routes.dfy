/**
 * The route handlers of backend/routes/referral.js as atomic operations on one
 * store: the referral collection (`referrals`, in insertion order) and the
 * campaign and customer collections it reads and, for the two campaign
 * counters and signup customers, writes. Each handler loads a referral
 * document, changes it, runs the save hook and writes it back; value
 * semantics for the documents match that load-modify-save cycle.
 */
module ReferralRoutes {
  import opened Wrappers
  import opened Entities
  import opened ReferralModel
  import opened LedgerQueries
  import opened ReferralCode

  /** The handlers' error responses; `HttpStatus` gives the status code each is sent with. */
  datatype Error =
    | MissingCustomerId
    | ReferralNotFound
    | CampaignNotFound
    | CustomerNotFound
    | ConversionNotFound
    | AlreadyConverted
    | NotAuthorized
    | NotEligible(currentCompleted: nat)
    | TaskNotCompleted
    | AlreadyClaimed
    | CodeSpaceExhausted
    | ServerError

  function HttpStatus(e: Error): nat
  {
    match e
    case MissingCustomerId => 400
    case AlreadyConverted => 400
    case NotEligible(_) => 400
    case TaskNotCompleted => 400
    case AlreadyClaimed => 400
    case NotAuthorized => 403
    case ReferralNotFound => 404
    case CampaignNotFound => 404
    case CustomerNotFound => 404
    case ConversionNotFound => 404
    case CodeSpaceExhausted => 500
    case ServerError => 500
  }

  datatype GenerateReply = GenerateReply(referralCode: Code, referralUrl: string, clicks: nat, conversions: nat)

  /** The public part of a campaign that `/track` sends to the landing page. */
  datatype CampaignSummary = CampaignSummary(
    name: string, taskType: TaskType, taskDescription: string, rewardType: RewardType, rewardValue: int)

  datatype ConvertedUser = ConvertedUser(
    customer: Option<CustomerId>, status: ConversionStatus, timestamp: Timestamp, rewardClaimed: bool)

  datatype StatsRow = StatsRow(
    referralCode: Code, referrer: CustomerId, clicks: nat, conversions: nat,
    convertedUsers: seq<ConvertedUser>, createdAt: Timestamp)

  datatype StatsReply = StatsReply(totalReferrals: nat, totalClicks: nat, totalConversions: nat, referrals: seq<StatsRow>)

  datatype RewardReceipt = RewardReceipt(amount: Option<int>, rewardType: Option<RewardType>, claimedAt: Timestamp)

  datatype RewardStatusReply = RewardStatusReply(
    campaignId: CampaignId, referrer: CustomerId, status: ConversionStatus,
    taskCompletedAt: Option<Timestamp>, rewardClaimed: bool, rewardClaimedAt: Option<Timestamp>,
    rewardAmount: Option<int>, rewardType: Option<RewardType>)

  function GenerateReplyOf(r: Referral, frontendUrl: string): GenerateReply
  {
    GenerateReply(r.referralCode, frontendUrl + "/r/" + r.referralCode, r.totalClicks, r.totalConversions)
  }

  function SummaryOf(c: Campaign): CampaignSummary
  {
    CampaignSummary(c.name, c.taskType, c.taskDescription, c.rewardType, c.rewardValue)
  }

  function ConvertedUserOf(c: Conversion): ConvertedUser
  {
    ConvertedUser(c.referredCustomerId, c.status, c.timestamp, c.rewardClaimed)
  }

  function RowOf(r: Referral): (row: StatsRow)
    ensures row.referralCode == r.referralCode && row.referrer == r.referrerId && row.createdAt == r.createdAt
    ensures row.clicks == r.totalClicks && row.conversions == |r.conversions| == |row.convertedUsers|
    ensures forall k :: 0 <= k < |r.conversions| ==>
      && row.convertedUsers[k].customer == r.conversions[k].referredCustomerId
      && row.convertedUsers[k].status == r.conversions[k].status
      && row.convertedUsers[k].timestamp == r.conversions[k].timestamp
      && row.convertedUsers[k].rewardClaimed == r.conversions[k].rewardClaimed
  {
    StatsRow(r.referralCode, r.referrerId, r.totalClicks, |r.conversions|,
             seq(|r.conversions|, k requires 0 <= k < |r.conversions| => ConvertedUserOf(r.conversions[k])),
             r.createdAt)
  }

  function StatusOf(r: Referral, c: Conversion): RewardStatusReply
  {
    RewardStatusReply(r.campaignId, r.referrerId, c.status, c.taskCompletedAt, c.rewardClaimed,
                      c.rewardClaimedAt, c.rewardAmount, c.rewardType)
  }

  function IncReferrals(c: Campaign): Campaign
  {
    c.(totalReferrals := c.totalReferrals + 1)
  }

  function IncRewardsGiven(c: Campaign): Campaign
  {
    c.(totalRewardsGiven := c.totalRewardsGiven + 1)
  }

  /** `$inc: { totalRewardsGiven: 1 }` by id: a missing campaign is left missing. */
  function RewardCounted(campaigns: map<CampaignId, Campaign>, campaignId: CampaignId): map<CampaignId, Campaign>
  {
    if campaignId in campaigns
    then campaigns[campaignId := IncRewardsGiven(campaigns[campaignId])]
    else campaigns
  }

  /**
   * The checks of `/claim-reward`, in the handler's order: the referral must
   * exist; its referrer must be a customer of the caller's business; the
   * referrer must have at least `ClaimThreshold` eligible conversions in the
   * campaign (counted before the conversion is even looked up); the conversion
   * must exist, be completed, and not be claimed yet. On success it names the
   * referral and the conversion to claim.
   */
  function ClaimGate(refs: seq<Referral>, customers: map<CustomerId, Customer>, code: Code,
                     conversionId: ConversionId, userId: BusinessId): (g: Result<(nat, nat), Error>)
    ensures FindByCode(refs, code).None? <==> g == Failure(ReferralNotFound)
    ensures FindByCode(refs, code).Some? ==>
      var r := refs[FindByCode(refs, code).value];
      var owned := r.referrerId in customers && customers[r.referrerId].businessId == userId;
      var count := EligibleCount(refs, r.campaignId, r.referrerId);
      var at := FindConversion(r.conversions, conversionId);
      && (!owned <==> g == Failure(NotAuthorized))
      && (owned && count < ClaimThreshold <==> g == Failure(NotEligible(count)))
      && (owned && count >= ClaimThreshold && at.None? <==> g == Failure(ConversionNotFound))
      && (owned && count >= ClaimThreshold && at.Some? ==>
            var c := r.conversions[at.value];
            && (c.status != Completed <==> g == Failure(TaskNotCompleted))
            && (c.status == Completed && c.rewardClaimed <==> g == Failure(AlreadyClaimed))
            && (Eligible(c) <==> g == Success((FindByCode(refs, code).value, at.value))))
    ensures g.Success? ==>
      var (i, k) := g.value;
      && FindByCode(refs, code) == Some(i) && i < |refs|
      && FindConversion(refs[i].conversions, conversionId) == Some(k) && k < |refs[i].conversions|
      && Eligible(refs[i].conversions[k])
      && EligibleCount(refs, refs[i].campaignId, refs[i].referrerId) >= ClaimThreshold
  {
    match FindByCode(refs, code)
    case None => Failure(ReferralNotFound)
    case Some(i) =>
      var r := refs[i];
      if !(r.referrerId in customers && customers[r.referrerId].businessId == userId) then Failure(NotAuthorized)
      else
        var count := EligibleCount(refs, r.campaignId, r.referrerId);
        if count < ClaimThreshold then Failure(NotEligible(count))
        else
          match FindConversion(r.conversions, conversionId)
          case None => Failure(ConversionNotFound)
          case Some(k) =>
            if r.conversions[k].status != Completed then Failure(TaskNotCompleted)
            else if r.conversions[k].rewardClaimed then Failure(AlreadyClaimed)
            else Success((i, k))
  }

  /**
   * The threshold counts the conversion being claimed. When the referrer has
   * exactly `ClaimThreshold` eligible conversions in the campaign and one of
   * them is claimed, every further claim on that referral is refused as not
   * eligible with two left, whatever conversion it names.
   */
  lemma ClaimAtThresholdExhausts(refs: seq<Referral>, customers: map<CustomerId, Customer>, code: Code,
                                 userId: BusinessId, i: nat, k: nat, at: Timestamp, nextConversionId: ConversionId)
    requires FindByCode(refs, code) == Some(i)
    requires k < |refs[i].conversions| && Eligible(refs[i].conversions[k])
    requires refs[i].referrerId in customers && customers[refs[i].referrerId].businessId == userId
    requires EligibleCount(refs, refs[i].campaignId, refs[i].referrerId) == ClaimThreshold
    ensures ClaimGate(ClaimedAt(refs, i, k, at), customers, code, nextConversionId, userId)
            == Failure(NotEligible(ClaimThreshold - 1))
  {
    var after := ClaimedAt(refs, i, k, at);
    FindByCodeSameCodes(refs, after, code);
  }

  /** Claiming the same conversion twice fails: as not eligible when the first
      claim took the referrer below the threshold, as already claimed otherwise. */
  lemma ClaimNotRepeatable(refs: seq<Referral>, customers: map<CustomerId, Customer>, code: Code,
                           conversionId: ConversionId, userId: BusinessId, i: nat, k: nat, at: Timestamp)
    requires ClaimGate(refs, customers, code, conversionId, userId) == Success((i, k))
    ensures
      var left := EligibleCount(refs, refs[i].campaignId, refs[i].referrerId) - 1;
      ClaimGate(ClaimedAt(refs, i, k, at), customers, code, conversionId, userId)
        == Failure(if left < ClaimThreshold then NotEligible(left) else AlreadyClaimed)
  {
    var left := EligibleCount(refs, refs[i].campaignId, refs[i].referrerId) - 1;
    if left < ClaimThreshold {
      ClaimAtThresholdExhausts(refs, customers, code, userId, i, k, at, conversionId);
    } else {
      var after := ClaimedAt(refs, i, k, at);
      FindByCodeSameCodes(refs, after, code);
      FindConversionSameIds(refs[i].conversions, after[i].conversions, conversionId);
    }
  }

  class ReferralStore {
    var referrals: seq<Referral>
    var campaigns: map<CampaignId, Campaign>
    var customers: map<CustomerId, Customer>

    predicate Valid()
      reads this`referrals, this`customers
    {
      LedgerInvariant(referrals, customers)
    }

    constructor (campaigns: map<CampaignId, Campaign>, customers: map<CustomerId, Customer>)
      requires CustomersUnique(customers)
      ensures Valid()
      ensures referrals == [] && this.campaigns == campaigns && this.customers == customers
    {
      referrals := [];
      this.campaigns := campaigns;
      this.customers := customers;
    }

    /** `GET /track/:code`: record one click and describe the campaign. */
    method Track(code: Code, now: Timestamp, ip: Option<string>, userAgent: Option<string>)
      returns (res: Result<CampaignSummary, Error>)
      requires Valid()
      modifies this
      ensures Valid()
      ensures campaigns == old(campaigns) && customers == old(customers)
      ensures LedgerEvolved(old(referrals), referrals)
      ensures FindByCode(old(referrals), code).None? ==> res == Failure(ReferralNotFound) && referrals == old(referrals)
      ensures FindByCode(old(referrals), code).Some? ==>
        var i := FindByCode(old(referrals), code).value;
        var r := old(referrals)[i];
        && referrals == old(referrals)[i := Recomputed(r.(clicks := r.clicks + [Click(now, ip, userAgent)]))]
        && referrals[i].totalClicks == r.totalClicks + 1
        && referrals[i].lastClickAt == Some(now)
        && referrals[i].conversions == r.conversions
        && res == (if r.campaignId in campaigns then Success(SummaryOf(campaigns[r.campaignId])) else Failure(ServerError))
    {
      LedgerEvolvedReflexive(referrals);
      var found := FindByCode(referrals, code);
      if found.None? {
        return Failure(ReferralNotFound);
      }
      var i := found.value;
      var doc := referrals[i];
      doc := doc.(clicks := doc.clicks + [Click(now, ip, userAgent)]);
      doc := PreSave(doc, true, false);
      AppendClickTotals(referrals[i], Click(now, ip, userAgent));
      assert doc.clicks[..|referrals[i].clicks|] == referrals[i].clicks;
      InvariantAfterSave(referrals, customers, i, doc);
      EvolvedAfterSave(referrals, i, doc);
      referrals := referrals[i := doc];
      // A missing campaign makes the reply throw after the click is saved.
      if doc.campaignId in campaigns {
        res := Success(SummaryOf(campaigns[doc.campaignId]));
      } else {
        res := Failure(ServerError);
      }
    }

    /**
     * `POST /convert/:code`. `resolved` is the customer the id resolves to: the
     * customer with that id when there is one, otherwise the customer made for
     * the user with that id, or nothing when neither exists.
     */
    method Convert(code: Code, referredCustomerId: Option<CustomerId>, resolved: Option<CustomerId>,
                   conversionId: ConversionId, now: Timestamp)
      returns (res: Result<(), Error>)
      requires Valid()
      requires referredCustomerId.Some? && referredCustomerId.value in customers ==> resolved == referredCustomerId
      requires resolved.Some? && resolved != referredCustomerId ==> resolved.value !in customers
      modifies this
      ensures Valid()
      ensures customers == old(customers)
      ensures LedgerEvolved(old(referrals), referrals)
      ensures res.Failure? ==> unchanged(this)
      ensures referredCustomerId.None? ==> res == Failure(MissingCustomerId)
      ensures referredCustomerId.Some? && FindByCode(old(referrals), code).None? ==> res == Failure(ReferralNotFound)
      ensures referredCustomerId.Some? && FindByCode(old(referrals), code).Some? ==>
        var i := FindByCode(old(referrals), code).value;
        var r := old(referrals)[i];
        && (r.campaignId !in old(campaigns) ==> res == Failure(CampaignNotFound))
        && (r.campaignId in old(campaigns) && resolved.None? ==> res == Failure(CustomerNotFound))
        && (r.campaignId in old(campaigns) && resolved.Some? && HasConversionFor(r.conversions, resolved.value) ==>
              res == Failure(AlreadyConverted))
        && (r.campaignId in old(campaigns) && resolved.Some? && !HasConversionFor(r.conversions, resolved.value) ==>
              && res == Success(())
              && referrals == old(referrals)[i := Recomputed(r.(conversions := r.conversions + [NewConversion(conversionId, resolved.value, now)]))]
              && referrals[i].totalConversions == r.totalConversions + 1
              && referrals[i].totalRewardsClaimed == r.totalRewardsClaimed
              && referrals[i].clicks == r.clicks
              && campaigns == old(campaigns)[r.campaignId := IncReferrals(old(campaigns)[r.campaignId])])
    {
      LedgerEvolvedReflexive(referrals);
      if referredCustomerId.None? {
        return Failure(MissingCustomerId);
      }
      var found := FindByCode(referrals, code);
      if found.None? {
        return Failure(ReferralNotFound);
      }
      var i := found.value;
      var doc := referrals[i];
      assert doc == old(referrals)[FindByCode(old(referrals), code).value];
      if doc.campaignId !in campaigns {
        return Failure(CampaignNotFound);
      }
      if resolved.None? {
        return Failure(CustomerNotFound);
      }
      var customer := resolved.value;
      if HasConversionFor(doc.conversions, customer) {
        return Failure(AlreadyConverted);
      }
      var campaignId := doc.campaignId;
      AppendConversion(i, NewConversion(conversionId, customer, now));
      assert campaigns == old(campaigns);
      campaigns := campaigns[campaignId := IncReferrals(campaigns[campaignId])];
      res := Success(());
    }

    /**
     * `POST /generate`: get or create the referral of (campaign, customer).
     * `samples` stands for the random draws of the code generator.
     */
    method Generate(campaignId: CampaignId, customerId: CustomerId, samples: seq<Sample>, now: Timestamp, frontendUrl: string)
      returns (res: Result<GenerateReply, Error>)
      requires Valid()
      modifies this
      ensures Valid()
      ensures campaigns == old(campaigns) && customers == old(customers)
      ensures LedgerEvolved(old(referrals), referrals)
      ensures campaignId !in campaigns ==> res == Failure(CampaignNotFound) && referrals == old(referrals)
      ensures campaignId in campaigns && customerId !in customers ==>
        res == Failure(CustomerNotFound) && referrals == old(referrals)
      ensures campaignId in campaigns && customerId in customers && FindByPair(old(referrals), campaignId, customerId).Some? ==>
        && referrals == old(referrals)
        && res == Success(GenerateReplyOf(old(referrals)[FindByPair(old(referrals), campaignId, customerId).value], frontendUrl))
      ensures campaignId in campaigns && customerId in customers && FindByPair(old(referrals), campaignId, customerId).None? ==>
        if res.Success? then
          && referrals == old(referrals) + [NewReferral(campaignId, customerId, res.value.referralCode, now)]
          && IsReferralCode(res.value.referralCode)
          && !CodeTaken(old(referrals), res.value.referralCode)
          && (exists k :: 0 <= k < |samples| && res.value.referralCode == ToHex(samples[k]))
          && res.value.clicks == 0 && res.value.conversions == 0
        else
          && res == Failure(CodeSpaceExhausted)
          && referrals == old(referrals)
          && forall k :: 0 <= k < |samples| ==> CodeTaken(old(referrals), ToHex(samples[k]))
      ensures res.Success? ==>
        && FindByPair(referrals, campaignId, customerId).Some?
        && referrals[FindByPair(referrals, campaignId, customerId).value].referralCode == res.value.referralCode
    {
      LedgerEvolvedReflexive(referrals);
      if campaignId !in campaigns {
        return Failure(CampaignNotFound);
      }
      if customerId !in customers {
        return Failure(CustomerNotFound);
      }
      var existing := FindByPair(referrals, campaignId, customerId);
      if existing.Some? {
        return Success(GenerateReplyOf(referrals[existing.value], frontendUrl));
      }
      var code, draws := GenerateReferralCode(referrals, samples);
      if code.None? {
        return Failure(CodeSpaceExhausted);
      }
      var doc := NewReferral(campaignId, customerId, code.value, now);
      InvariantAfterInsert(referrals, customers, doc);
      EvolvedAfterInsert(referrals, doc);
      referrals := referrals + [doc];
      NewPairFound(old(referrals), doc);
      res := Success(GenerateReplyOf(doc, frontendUrl));
    }

    /** `GET /stats/:campaignId`: the owner's summary of the campaign's referrals. */
    function Stats(campaignId: CampaignId, userId: BusinessId): (r: Result<StatsReply, Error>)
      reads this
      ensures r == Failure(CampaignNotFound) <==> campaignId !in campaigns
      ensures r == Failure(NotAuthorized) <==> campaignId in campaigns && campaigns[campaignId].businessId != userId
      ensures r.Success? ==>
        var rs := InCampaign(referrals, campaignId);
        && r.value.totalReferrals == |rs| == |r.value.referrals|
        && (forall j :: 0 <= j < |rs| ==> r.value.referrals[j] == RowOf(rs[j]))
        && r.value.totalClicks == SumTotalClicks(rs)
        && r.value.totalConversions == SumConversions(rs)
        && (Valid() ==> r.value.totalClicks == RecordedClicks(rs))
    {
      if campaignId !in campaigns then Failure(CampaignNotFound)
      else if campaigns[campaignId].businessId != userId then Failure(NotAuthorized)
      else
        var rs := InCampaign(referrals, campaignId);
        var reply := StatsReply(|rs|, SumTotalClicks(rs), SumConversions(rs),
                                seq(|rs|, j requires 0 <= j < |rs| => RowOf(rs[j])));
        if Valid() then
          CampaignClicksRecorded(referrals, campaignId);
          Success(reply)
        else
          Success(reply)
    }

    /** Push one conversion onto referral `i` and save it. */
    method AppendConversion(i: nat, conversion: Conversion)
      requires Valid()
      requires i < |referrals|
      requires conversion.rewardClaimed ==> conversion.status == Completed
      modifies this
      ensures Valid()
      ensures campaigns == old(campaigns) && customers == old(customers)
      ensures LedgerEvolved(old(referrals), referrals)
      ensures
        var r := old(referrals)[i];
        && referrals == old(referrals)[i := Recomputed(r.(conversions := r.conversions + [conversion]))]
        && referrals[i].conversions[..|r.conversions|] == r.conversions
        && referrals[i].totalConversions == r.totalConversions + 1
        && referrals[i].totalRewardsClaimed == r.totalRewardsClaimed + (if conversion.rewardClaimed then 1 else 0)
        && referrals[i].clicks == r.clicks
    {
      var doc := referrals[i];
      assert DocumentInvariant(doc);
      var before := doc;
      doc := doc.(conversions := doc.conversions + [conversion]);
      doc := PreSave(doc, false, true);
      AppendConversionTotals(before, conversion);
      ClaimsAfterAppend(before, conversion);
      AppendedEvolved(before, conversion);
      assert doc.conversions[..|before.conversions|] == before.conversions;
      InvariantAfterSave(referrals, customers, i, doc);
      EvolvedAfterSave(referrals, i, doc);
      referrals := referrals[i := doc];
    }

    /** `POST /complete-task/:code`: mark a conversion completed and freeze the
        campaign's current reward terms onto it. */
    method CompleteTask(code: Code, conversionId: ConversionId, proof: Option<string>, now: Timestamp)
      returns (res: Result<Conversion, Error>)
      requires Valid()
      modifies this
      ensures Valid()
      ensures campaigns == old(campaigns) && customers == old(customers)
      ensures LedgerEvolved(old(referrals), referrals)
      ensures res.Failure? ==> unchanged(this)
      ensures FindByCode(old(referrals), code).None? ==> res == Failure(ReferralNotFound)
      ensures FindByCode(old(referrals), code).Some? ==>
        var i := FindByCode(old(referrals), code).value;
        var r := old(referrals)[i];
        && (FindConversion(r.conversions, conversionId).None? ==> res == Failure(ConversionNotFound))
        && (FindConversion(r.conversions, conversionId).Some? ==>
              var k := FindConversion(r.conversions, conversionId).value;
              && (r.campaignId !in campaigns ==> res == Failure(CampaignNotFound))
              && (r.campaignId in campaigns ==>
                    var done := WithTaskCompleted(r.conversions[k], now, proof, campaigns[r.campaignId]);
                    && res == Success(done)
                    && referrals == old(referrals)[i := Recomputed(r.(conversions := r.conversions[k := done]))]))
    {
      LedgerEvolvedReflexive(referrals);
      var found := FindByCode(referrals, code);
      if found.None? {
        return Failure(ReferralNotFound);
      }
      var i := found.value;
      var doc := referrals[i];
      assert doc == old(referrals)[FindByCode(old(referrals), code).value];
      var at := FindConversion(doc.conversions, conversionId);
      if at.None? {
        return Failure(ConversionNotFound);
      }
      var k := at.value;
      if doc.campaignId !in campaigns {
        return Failure(CampaignNotFound);
      }
      var campaign := campaigns[doc.campaignId];
      var done := WithTaskCompleted(doc.conversions[k], now, proof, campaign);
      assert DocumentInvariant(doc);
      var before := doc;
      doc := doc.(conversions := doc.conversions[k := done]);
      doc := PreSave(doc, false, true);
      ClaimsAfterUpdate(before, k, done);
      UpdatedEvolved(before, k, done);
      InvariantAfterSave(referrals, customers, i, doc);
      EvolvedAfterSave(referrals, i, doc);
      referrals := referrals[i := doc];
      res := Success(done);
    }

    /**
     * `POST /claim-reward/:code`: claim the reward of one conversion once the
     * checks of `ClaimGate` pass. Exactly that conversion is marked claimed and
     * the campaign's `totalRewardsGiven` rises by one.
     */
    method ClaimReward(code: Code, conversionId: ConversionId, userId: BusinessId, now: Timestamp)
      returns (res: Result<RewardReceipt, Error>)
      requires Valid()
      modifies this`referrals, this`campaigns
      ensures Valid()
      ensures LedgerEvolved(old(referrals), referrals)
      ensures ClaimGate(old(referrals), customers, code, conversionId, userId).Failure? ==>
        res == Failure(ClaimGate(old(referrals), customers, code, conversionId, userId).error) && unchanged(this)
      ensures ClaimGate(old(referrals), customers, code, conversionId, userId).Success? ==>
        var (i, k) := ClaimGate(old(referrals), customers, code, conversionId, userId).value;
        var c := old(referrals)[i].conversions[k];
        var campaignId := old(referrals)[i].campaignId;
        && res == Success(RewardReceipt(c.rewardAmount, c.rewardType, now))
        && referrals == ClaimedAt(old(referrals), i, k, now)
        && campaigns == RewardCounted(old(campaigns), campaignId)
      ensures res.Success? ==> RewardStatus(code, conversionId).Success? && RewardStatus(code, conversionId).value.rewardClaimed
    {
      var gate := ClaimGate(referrals, customers, code, conversionId, userId);
      if gate.Failure? {
        LedgerEvolvedReflexive(referrals);
        return Failure(gate.error);
      }
      var (i, k) := gate.value;
      res := ClaimAt(i, k, now, code, conversionId);
    }

    /** The write half of a claim that passed the gate: flag conversion `k`
        of referral `i`, save the referral, count the reward on its campaign
        and answer with the conversion's reward terms. */
    method ClaimAt(i: nat, k: nat, now: Timestamp, ghost code: Code, ghost conversionId: ConversionId)
      returns (res: Result<RewardReceipt, Error>)
      requires Valid()
      requires i < |referrals| && k < |referrals[i].conversions|
      requires Eligible(referrals[i].conversions[k])
      requires FindByCode(referrals, code) == Some(i)
      requires FindConversion(referrals[i].conversions, conversionId) == Some(k)
      modifies this`referrals, this`campaigns
      ensures Valid()
      ensures LedgerEvolved(old(referrals), referrals)
      ensures res == Success(RewardReceipt(old(referrals)[i].conversions[k].rewardAmount,
                                           old(referrals)[i].conversions[k].rewardType, now))
      ensures referrals == ClaimedAt(old(referrals), i, k, now)
      ensures
        var campaignId := old(referrals)[i].campaignId;
        campaigns == RewardCounted(old(campaigns), campaignId)
      ensures RewardStatus(code, conversionId).Success? && RewardStatus(code, conversionId).value.rewardClaimed
    {
      var c := referrals[i].conversions[k];
      var campaignId := referrals[i].campaignId;
      CountRewardGiven(campaignId);
      SaveClaimed(i, k, now, code, conversionId);
      res := Success(RewardReceipt(c.rewardAmount, c.rewardType, now));
    }

    /** Set the flag on conversion `k` of referral `i` and save the referral
        through the totals hook. */
    method SaveClaimed(i: nat, k: nat, now: Timestamp, ghost code: Code, ghost conversionId: ConversionId)
      requires Valid()
      requires i < |referrals| && k < |referrals[i].conversions|
      requires Eligible(referrals[i].conversions[k])
      requires FindByCode(referrals, code) == Some(i)
      requires FindConversion(referrals[i].conversions, conversionId) == Some(k)
      modifies this`referrals
      ensures Valid()
      ensures LedgerEvolved(old(referrals), referrals)
      ensures referrals == ClaimedAt(old(referrals), i, k, now)
      ensures RewardStatus(code, conversionId).Success? && RewardStatus(code, conversionId).value.rewardClaimed
    {
      var doc := referrals[i];
      var claimed := WithRewardClaimed(doc.conversions[k], now);
      assert DocumentInvariant(doc);
      var before := doc;
      doc := doc.(conversions := doc.conversions[k := claimed]);
      doc := PreSave(doc, false, true);
      ClaimsAfterUpdate(before, k, claimed);
      UpdatedEvolved(before, k, claimed);
      InvariantAfterSave(referrals, customers, i, doc);
      EvolvedAfterSave(referrals, i, doc);
      ghost var prior := referrals;
      referrals := referrals[i := doc];
      FindByCodeSameCodes(prior, referrals, code);
      FindConversionSameIds(before.conversions, doc.conversions, conversionId);
    }

    /** `Campaign.findByIdAndUpdate(id, { $inc: { totalRewardsGiven: 1 } })`:
        a campaign that no longer exists updates nothing. */
    method CountRewardGiven(campaignId: CampaignId)
      modifies this`campaigns
      ensures campaigns == RewardCounted(old(campaigns), campaignId)
    {
      if campaignId in campaigns {
        campaigns := campaigns[campaignId := IncRewardsGiven(campaigns[campaignId])];
      }
    }

    /** `GET /reward-status/:code/:conversionId`. */
    function RewardStatus(code: Code, conversionId: ConversionId): (r: Result<RewardStatusReply, Error>)
      reads this`referrals
      ensures r == Failure(ReferralNotFound) <==> forall i :: 0 <= i < |referrals| ==> referrals[i].referralCode != code
      ensures r == Failure(ConversionNotFound) ==>
        exists i :: 0 <= i < |referrals| && referrals[i].referralCode == code
                    && forall k :: 0 <= k < |referrals[i].conversions| ==> referrals[i].conversions[k].id != conversionId
      ensures r.Success? ==>
        exists i, k :: 0 <= i < |referrals| && 0 <= k < |referrals[i].conversions|
                       && referrals[i].referralCode == code && referrals[i].conversions[k].id == conversionId
                       && r.value == StatusOf(referrals[i], referrals[i].conversions[k])
      ensures r.Success? || r == Failure(ReferralNotFound) || r == Failure(ConversionNotFound)
    {
      match FindByCode(referrals, code)
      case None => Failure(ReferralNotFound)
      case Some(i) =>
        match FindConversion(referrals[i].conversions, conversionId)
        case None => Failure(ConversionNotFound)
        case Some(k) => Success(StatusOf(referrals[i], referrals[i].conversions[k]))
    }
  }
}
