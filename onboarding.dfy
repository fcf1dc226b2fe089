/** The two pipelines of the A2P service (a2p/main.go): `OnboardCustomer`,
    five prerequisite checks and then eighteen provider stages run fail-fast,
    and `CompleteOnboarding`, the phone-number lookup, its attachment to the
    messaging service and the campaign. Both are given here as functions of
    the parameters, the scripted provider and the log position `n` at which
    the operation starts; the service methods are proved equal to them. */
module Onboarding {
  import opened Errors
  import opened Models
  import opened PhoneNumbers

  const PolicySid := "RNdfbf3fae0e1107f8aded0e7cead80bf5"
  const StatusCallbackUrl := "www.demo.com/callback/status"
  const InboundRequestUrl := "https://www.example.com/inbound-messages-webhook"
  const FallbackUrl := "https://www.example.com/fallback"
  const Stage23Prefix := "error at stage 2.3: "
  const SuccessMessage := "Brand Registration Created Successfully"
  const CompletedMessage := "Success !! Proceed To Register A2P Campaign Once Brand Registration is Approved"
  const NotSubmitted := "not submitted"

  /** Stages 2.1-2.10, 3.1-3.6, 4.1 and 5.1, numbered 0 to 17 here. */
  const StageCount := 18
  const ProfileStage := 0
  const AddressStage := 5
  const TrustProductStage := 10
  const BrandStage := 16
  const ServiceStage := 17

  // ---------------------------------------------------------------------
  // Prerequisites

  /** The prerequisite fields with their sentinels, in the order they are checked. */
  function Prerequisites(p: ParamData): seq<(string, SentinelKind)>
  {
    [ (p.subaccountId, CreateSubaccount),
      (p.twilioPurchasedPhoneNumber, PurchasePhoneNumber),
      (p.twilioPurchasedPhoneNumberSid, GetPhoneNumberSid),
      (p.twilioUsername, GetTwilioUsername),
      (p.twilioPassword, GetTwilioPassword) ]
  }

  /** The sentinel of the first empty field of `fields`, if any. */
  function FirstEmpty(fields: seq<(string, SentinelKind)>): (r: Option<SentinelKind>)
    ensures r.None? <==> forall i :: 0 <= i < |fields| ==> fields[i].0 != ""
    ensures r.Some? ==> exists i :: 0 <= i < |fields| && fields[i] == ("", r.value)
                                    && forall j :: 0 <= j < i ==> fields[j].0 != ""
  {
    if fields == [] then None
    else if fields[0].0 == "" then Some(fields[0].1)
    else
      var r := FirstEmpty(fields[1..]);
      assert forall i :: 1 <= i < |fields| ==> fields[i] == fields[1..][i - 1];
      r
  }

  function FirstMissing(p: ParamData): Option<SentinelKind>
  {
    FirstEmpty(Prerequisites(p))
  }

  // ---------------------------------------------------------------------
  // A fail-fast pipeline of stages

  /** The call each stage makes, given its number and the resources the
      stages before it returned. */
  type StageCalls = (nat, seq<Resource>) -> Call

  datatype StageFailure = StageFailure(stage: nat, error: Error)

  /** The pipeline after stages `0 .. k-1` have been attempted: the calls made,
      the resources returned, and the stage that failed, if one did. */
  datatype Progress = Progress(calls: seq<Call>, sids: seq<Resource>, failure: Option<StageFailure>)

  /** Attempting stage `k` after `prev`: only when no stage has failed yet. */
  function Attempt(stages: StageCalls, pr: Provider, n: nat, k: nat, prev: Progress): Progress
  {
    if prev.failure.Some? then prev
    else
      var c := stages(k, prev.sids);
      match pr.stage(n + k, c)
      case Err(e) => Progress(prev.calls + [c], prev.sids, Some(StageFailure(k, e)))
      case Ok(res) => Progress(prev.calls + [c], prev.sids + [res], None)
  }

  /** Attempting the first `k` stages, each only if all before it succeeded;
      the call of stage `i` goes to the provider at log position `n + i`. */
  function RunStages(stages: StageCalls, pr: Provider, n: nat, k: nat): (r: Progress)
    ensures r.failure.None? ==> |r.calls| == k && |r.sids| == k
    ensures r.failure.Some? ==> r.failure.value.stage == |r.sids| < k && |r.calls| == |r.sids| + 1
  {
    if k == 0 then Progress([], [], None)
    else
      var prev := RunStages(stages, pr, n, k - 1);
      if prev.failure.Some? then prev else Attempt(stages, pr, n, k - 1, prev)
  }

  /** Fail-fast: once a stage has failed, attempting more stages changes nothing. */
  lemma {:induction false} RunStopsAtFirstFailure(stages: StageCalls, pr: Provider, n: nat, k: nat, m: nat)
    requires k <= m
    requires RunStages(stages, pr, n, k).failure.Some?
    ensures RunStages(stages, pr, n, m) == RunStages(stages, pr, n, k)
  {
    if m > k {
      RunStopsAtFirstFailure(stages, pr, n, k, m - 1);
    }
  }

  /** Attempting more stages only extends the calls and the resources, and a
      pipeline that has not failed had not failed at any earlier stage. */
  lemma {:induction false} RunExtends(stages: StageCalls, pr: Provider, n: nat, k: nat, m: nat)
    requires k <= m
    ensures var before, after := RunStages(stages, pr, n, k), RunStages(stages, pr, n, m);
            && |before.calls| <= |after.calls| && (forall j :: 0 <= j < |before.calls| ==> after.calls[j] == before.calls[j])
            && |before.sids| <= |after.sids| && (forall j :: 0 <= j < |before.sids| ==> after.sids[j] == before.sids[j])
            && (after.failure.None? ==> before.failure.None?)
  {
    if m > k {
      RunExtends(stages, pr, n, k, m - 1);
      var prev := RunStages(stages, pr, n, m - 1);
      if prev.failure.None? {
        assert RunStages(stages, pr, n, m) == Attempt(stages, pr, n, m - 1, prev);
      }
    }
  }

  /** A pipeline that made a call for stage `i` had passed stages `0 .. i-1`. */
  lemma RunReaches(stages: StageCalls, pr: Provider, n: nat, i: nat)
    requires i < |RunStages(stages, pr, n, StageCount).calls|
    ensures i < StageCount && RunStages(stages, pr, n, i).failure.None? && |RunStages(stages, pr, n, i).sids| == i
  {
    if RunStages(stages, pr, n, i).failure.Some? {
      RunStopsAtFirstFailure(stages, pr, n, i, StageCount);
      assert false;
    }
  }

  /** The `i`-th call of the pipeline is the call of stage `i` given the
      first `i` resources, which the pipeline had when it made the call. */
  lemma RunCall(stages: StageCalls, pr: Provider, n: nat, i: nat)
    requires i < |RunStages(stages, pr, n, StageCount).calls|
    ensures var run, at := RunStages(stages, pr, n, StageCount), RunStages(stages, pr, n, i);
            && i < StageCount && at.failure.None? && |at.sids| == i && i <= |run.sids|
            && (forall j :: 0 <= j < i ==> at.sids[j] == run.sids[j])
            && run.calls[i] == stages(i, at.sids)
  {
    RunReaches(stages, pr, n, i);
    var at := RunStages(stages, pr, n, i);
    assert RunStages(stages, pr, n, i + 1) == Attempt(stages, pr, n, i, at);
    RunExtends(stages, pr, n, i, StageCount);
    RunExtends(stages, pr, n, i + 1, StageCount);
  }

  /** The provider answered the `i`-th call of the pipeline with resource
      `i`, unless that call is the one that failed, whose error is the
      pipeline's. */
  lemma RunAnswer(stages: StageCalls, pr: Provider, n: nat, i: nat)
    requires i < |RunStages(stages, pr, n, StageCount).calls|
    ensures var run := RunStages(stages, pr, n, StageCount);
            && i <= |run.sids|
            && (i < |run.sids| ==> pr.stage(n + i, run.calls[i]) == Ok(run.sids[i]))
            && (i == |run.sids| ==> pr.stage(n + i, run.calls[i]).Err?
                                    && run.failure == Some(StageFailure(i, pr.stage(n + i, run.calls[i]).error)))
  {
    RunCall(stages, pr, n, i);
    var at := RunStages(stages, pr, n, i);
    var next := Attempt(stages, pr, n, i, at);
    assert RunStages(stages, pr, n, i + 1) == next;
    if next.failure.None? {
      RunExtends(stages, pr, n, i + 1, StageCount);
    } else {
      RunStopsAtFirstFailure(stages, pr, n, i + 1, StageCount);
    }
  }

  // ---------------------------------------------------------------------
  // The eighteen stages of `OnboardCustomer`

  /** The SID of resource `j`; the stages only ask for resources they have. */
  function Sid(sids: seq<Resource>, j: nat): string
  {
    if j < |sids| then sids[j].sid else ""
  }

  /** The call stage `k` makes, given the resources the earlier stages
      returned (`sids[j]` is what stage `j` returned). */
  function StageCall(p: ParamData, k: nat, sids: seq<Resource>): Call
  {
    if k == 0 then
      CreateSecondaryCustomerProfile(CustomerProfileData(p.friendlyName, p.email, StatusCallbackUrl, PolicySid))
    else if k == 1 then
      CreateEndUserBusinessInfo(BusinessInfoData(
        p.businessName, p.socialMediaProfileUrls, p.websiteUrl, p.regionOfOperation, p.businessType,
        p.businessRegistrationId, p.businessIdentity, p.businessIndustry, p.businessRegistrationNumber))
    else if k == 2 then
      AttachEndUserToProfile(EndUserAssignmentData(Sid(sids, 0), Sid(sids, 1)))
    else if k == 3 then
      // the representative's phone number is filled from the e-mail field, as in the source
      CreateEndUserAuthorizedRep1(AuthorizedRepData(
        "authorized_representative_1", p.endUserRepOnePosition, p.endUserRepOneFirstName,
        p.endUserRepOneLastName, p.endUserRepOneEmail, p.endUserRepOneEmail, p.endUserRepOneBusinessTitle,
        p.customerName + " - Authorized Representative 1"))
    else if k == 4 then
      AttachEndUserAuthorizedRep1ToProfile(EndUserAssignmentData(Sid(sids, 0), Sid(sids, 3)))
    else if k == 5 then
      CreateAddressResource(AddressData(
        p.twilioUsername, p.customerName, p.street, p.city, p.region, p.postalCode, p.isoCountry,
        p.customerName + " - Address Resource"))
    else if k == 6 then
      CreateSupportingDocumentResource(SupportingDocumentData(p.customerName + " - Business License Document", Sid(sids, 5)))
    else if k == 7 then
      AttachSupportingDocumentToProfile(Sid(sids, 0), Sid(sids, 6))
    else if k == 8 then
      EvaluateSecondaryCustomerProfile(Sid(sids, 0))
    else if k == 9 then
      SubmitSecondaryCustomerProfileForReview(Sid(sids, 0))
    else if k == 10 then
      CreateTrustProduct(TrustProductData(p.friendlyName, p.email, PolicySid, StatusCallbackUrl))
    else if k == 11 then
      CreateEndUserMessagingProfile(MessagingProfileData(p.businessType, "", ""))
    else if k == 12 then
      AttachEndUserToTrustProduct(Sid(sids, 10), Sid(sids, 11))
    else if k == 13 then
      AttachSecondaryCustomerProfileToTrustProduct(Sid(sids, 10), Sid(sids, 0))
    else if k == 14 then
      EvaluateTrustProduct(Sid(sids, 10), PolicySid)
    else if k == 15 then
      SubmitTrustProductForReview(Sid(sids, 10))
    else if k == 16 then
      CreateBrandRegistration(BrandRegistrationData(Sid(sids, 0), Sid(sids, 10)))
    else
      CreateMessagingService(MessagingServiceData(p.friendlyName, InboundRequestUrl, FallbackUrl))
  }

  /** The stages of `OnboardCustomer` for the parameters `p`. */
  function Stages(p: ParamData): StageCalls
  {
    (k: nat, sids: seq<Resource>) => StageCall(p, k, sids)
  }

  /** The first `k` stages of `OnboardCustomer`. */
  function Run(p: ParamData, pr: Provider, n: nat, k: nat): Progress
  {
    RunStages(Stages(p), pr, n, k)
  }

  /** The stage a call belongs to, read off the kind of call alone. */
  function StageOf(c: Call): Option<nat>
  {
    match c
    case CreateSecondaryCustomerProfile(_) => Some(0)
    case CreateEndUserBusinessInfo(_) => Some(1)
    case AttachEndUserToProfile(_) => Some(2)
    case CreateEndUserAuthorizedRep1(_) => Some(3)
    case AttachEndUserAuthorizedRep1ToProfile(_) => Some(4)
    case CreateAddressResource(_) => Some(5)
    case CreateSupportingDocumentResource(_) => Some(6)
    case AttachSupportingDocumentToProfile(_, _) => Some(7)
    case EvaluateSecondaryCustomerProfile(_) => Some(8)
    case SubmitSecondaryCustomerProfileForReview(_) => Some(9)
    case CreateTrustProduct(_) => Some(10)
    case CreateEndUserMessagingProfile(_) => Some(11)
    case AttachEndUserToTrustProduct(_, _) => Some(12)
    case AttachSecondaryCustomerProfileToTrustProduct(_, _) => Some(13)
    case EvaluateTrustProduct(_, _) => Some(14)
    case SubmitTrustProductForReview(_) => Some(15)
    case CreateBrandRegistration(_) => Some(16)
    case CreateMessagingService(_) => Some(17)
    case _ => None
  }

  /** The customer-profile SID a call is given, for the calls that take one. */
  function ProfileSidArg(c: Call): Option<string>
  {
    match c
    case AttachEndUserToProfile(a) => Some(a.customerProfileSid)
    case AttachEndUserAuthorizedRep1ToProfile(a) => Some(a.customerProfileSid)
    case AttachSupportingDocumentToProfile(profile, _) => Some(profile)
    case EvaluateSecondaryCustomerProfile(profile) => Some(profile)
    case SubmitSecondaryCustomerProfileForReview(profile) => Some(profile)
    case AttachSecondaryCustomerProfileToTrustProduct(_, profile) => Some(profile)
    case CreateBrandRegistration(b) => Some(b.customerProfileBundleSid)
    case _ => None
  }

  /** The trust-product SID a call is given, for the calls that take one. */
  function TrustProductSidArg(c: Call): Option<string>
  {
    match c
    case AttachEndUserToTrustProduct(trust, _) => Some(trust)
    case AttachSecondaryCustomerProfileToTrustProduct(trust, _) => Some(trust)
    case EvaluateTrustProduct(trust, _) => Some(trust)
    case SubmitTrustProductForReview(trust) => Some(trust)
    case CreateBrandRegistration(b) => Some(b.a2pProfileBundleSid)
    case _ => None
  }

  /** Only the failure of stage 2.3 comes back wrapped. */
  function StageError(k: nat, e: Error): (r: Error)
    ensures k != 2 ==> r == e
    ensures k == 2 ==> Text(r) == Stage23Prefix + Text(e) && forall s :: IsSentinel(r, s) <==> IsSentinel(e, s)
  {
    if k == 2 then Wrapped(Stage23Prefix, e) else e
  }

  /** The response of a successful `OnboardCustomer`. */
  function BrandRegisteredResponse(p: ParamData, brand: Resource, serviceSid: string): FullResponse
  {
    FullResponse(SuccessMessage, Some(EmptyRecord.(
      locationId := p.locationId,
      subaccountId := p.subaccountId,
      twilioUsername := p.twilioUsername,
      twilioPassword := p.twilioPassword,
      brandRegistrationSid := brand.sid,
      messagingServiceSid := serviceSid,
      a2pMessageCampaignSid := NotSubmitted,
      brandRegistrationStatus := brand.status,
      twilioPhoneNumber := p.twilioPurchasedPhoneNumber,
      twilioPhoneNumberSid := p.twilioPurchasedPhoneNumberSid,
      appliedForBrandRegistration := true,
      appliedForMessagingService := false,
      appliedForA2pMessageCampaign := false)))
  }

  /** `OnboardCustomer`: the calls it makes and what it returns. */
  function OnboardOutcome(p: ParamData, pr: Provider, n: nat): (o: Outcome<Answer>)
    ensures |o.calls| <= StageCount
    ensures o.result.err.None? ==> o.result.response.data.Some?
    ensures o.result.err.Some? ==> o.result.response == EmptyResponse
  {
    if p.subaccountId == "" then Outcome([], Failure(Sentinel(CreateSubaccount)))
    else if p.twilioPurchasedPhoneNumber == "" then Outcome([], Failure(Sentinel(PurchasePhoneNumber)))
    else if p.twilioPurchasedPhoneNumberSid == "" then Outcome([], Failure(Sentinel(GetPhoneNumberSid)))
    else if p.twilioUsername == "" then Outcome([], Failure(Sentinel(GetTwilioUsername)))
    else if p.twilioPassword == "" then Outcome([], Failure(Sentinel(GetTwilioPassword)))
    else
      var run := Run(p, pr, n, StageCount);
      match run.failure
      case Some(f) => Outcome(run.calls, Failure(StageError(f.stage, f.error)))
      case None => Outcome(run.calls, Answer(BrandRegisteredResponse(p, run.sids[BrandStage], run.sids[ServiceStage].sid), None))
  }

  /** `params` after `OnboardCustomer` returned `a`: only a success stores the
      new messaging-service SID. */
  function ParamsAfter(p: ParamData, a: Answer): ParamData
  {
    if a.err.None? && a.response.data.Some? then p.(messagingServiceSid := a.response.data.value.messagingServiceSid)
    else p
  }

  // ---------------------------------------------------------------------
  // What the pipeline guarantees

  /** The prerequisites are checked in their fixed order: the first empty one
      decides the error and no stage is called; with none empty, stage 2.1 runs. */
  lemma PrerequisitesCheckedInOrder(p: ParamData, pr: Provider, n: nat)
    ensures FirstMissing(p).Some? ==>
              OnboardOutcome(p, pr, n) == Outcome([], Failure(Sentinel(FirstMissing(p).value)))
    ensures FirstMissing(p).None? ==>
              |OnboardOutcome(p, pr, n).calls| > 0 && OnboardOutcome(p, pr, n).calls[0] == StageCall(p, 0, [])
  {
    var fields := Prerequisites(p);
    assert fields[0].0 == p.subaccountId && fields[1].0 == p.twilioPurchasedPhoneNumber;
    assert fields[2].0 == p.twilioPurchasedPhoneNumberSid && fields[3].0 == p.twilioUsername;
    assert fields[4].0 == p.twilioPassword;
    if FirstMissing(p).None? {
      RunCall(Stages(p), pr, n, 0);
    }
  }

  /** The prerequisites hold exactly when none of the five fields is empty. */
  lemma PrerequisitesMet(p: ParamData)
    ensures FirstMissing(p).None? <==>
              && p.subaccountId != "" && p.twilioPurchasedPhoneNumber != "" && p.twilioPurchasedPhoneNumberSid != ""
              && p.twilioUsername != "" && p.twilioPassword != ""
  {
    var fields := Prerequisites(p);
    assert fields[0].0 == p.subaccountId && fields[1].0 == p.twilioPurchasedPhoneNumber;
    assert fields[2].0 == p.twilioPurchasedPhoneNumberSid && fields[3].0 == p.twilioUsername;
    assert fields[4].0 == p.twilioPassword;
  }

  /** `runs[k]` is the pipeline after its first `k` stages, for every `k`
      up to the number of stages. */
  ghost predicate RunsAs(runs: seq<Progress>, p: ParamData, pr: Provider, n: nat)
  {
    && |runs| == StageCount + 1
    && forall k: nat {:trigger Run(p, pr, n, k)} :: k <= StageCount ==> runs[k] == Run(p, pr, n, k)
  }

  /** The pipeline at every stage count. */
  lemma Pipeline(p: ParamData, pr: Provider, n: nat) returns (runs: seq<Progress>)
    ensures RunsAs(runs, p, pr, n)
  {
    runs := seq(StageCount + 1, (k: nat) => Run(p, pr, n, k));
  }

  /** `run` has failed, and `e` is the error `OnboardCustomer` returns for it. */
  ghost predicate FailedWith(run: Progress, e: Error)
  {
    run.failure.Some? && e == StageError(run.failure.value.stage, run.failure.value.error)
  }

  /** Attempting stage `k` right after stages `0 .. k-1` succeeded, over the
      pipeline at every stage count: a success extends it by one call and one
      resource, a failure is where the whole pipeline ends. */
  lemma AttemptStageOf(runs: seq<Progress>, p: ParamData, pr: Provider, n: nat, k: nat, c: Call)
    requires RunsAs(runs, p, pr, n)
    requires k < StageCount && runs[k].failure.None? && |runs[k].sids| == k
    requires c == StageCall(p, k, runs[k].sids)
    ensures |runs[k].calls| == k
    ensures pr.stage(n + k, c).Ok? ==>
              runs[k + 1] == Progress(runs[k].calls + [c], runs[k].sids + [pr.stage(n + k, c).value], None)
    ensures pr.stage(n + k, c).Err? ==>
              runs[StageCount] == Progress(runs[k].calls + [c], runs[k].sids, Some(StageFailure(k, pr.stage(n + k, c).error)))
  {
    assert runs[k] == Run(p, pr, n, k) && runs[k + 1] == Run(p, pr, n, k + 1);
    assert runs[StageCount] == Run(p, pr, n, StageCount);
    assert Run(p, pr, n, k + 1) == Attempt(Stages(p), pr, n, k, runs[k]);
    if pr.stage(n + k, c).Err? {
      RunStopsAtFirstFailure(Stages(p), pr, n, k + 1, StageCount);
    }
  }

  /** The facts about the call of stage `k` that the lemmas below use;
      `sids` holds at least the resources of stages `0 .. k-1`. */
  ghost predicate WellShaped(c: Call, k: nat, sids: seq<Resource>)
    requires k <= |sids|
  {
    && StageOf(c) == Some(k)
    && (ProfileSidArg(c).Some? ==> ProfileStage < k && ProfileSidArg(c) == Some(sids[ProfileStage].sid))
    && (TrustProductSidArg(c).Some? ==> TrustProductStage < k && TrustProductSidArg(c) == Some(sids[TrustProductStage].sid))
    && (k == 2 ==> c.AttachEndUserToProfile? && c.assignment.endUserSid == sids[1].sid)
    && (k == 4 ==> c.AttachEndUserAuthorizedRep1ToProfile? && c.assignment.endUserSid == sids[3].sid)
    && (k == 6 ==> c.CreateSupportingDocumentResource? && c.document.addressSid == sids[5].sid)
    && (k == 7 ==> c.AttachSupportingDocumentToProfile? && c.supportingDocumentSid == sids[6].sid)
    && (k == 8 ==> c == EvaluateSecondaryCustomerProfile(sids[ProfileStage].sid))
    && (k == 9 ==> c == SubmitSecondaryCustomerProfileForReview(sids[ProfileStage].sid))
    && (k == 12 ==> c.AttachEndUserToTrustProduct? && c.endUserSid == sids[11].sid)
    && (k == 14 ==> c == EvaluateTrustProduct(sids[TrustProductStage].sid, PolicySid))
    && (k == 15 ==> c == SubmitTrustProductForReview(sids[TrustProductStage].sid))
    && (k == 16 ==> c == CreateBrandRegistration(BrandRegistrationData(sids[ProfileStage].sid, sids[TrustProductStage].sid)))
  }

  lemma StageCallWellShaped(p: ParamData, k: nat, sids: seq<Resource>)
    requires k < StageCount && |sids| == k
    ensures WellShaped(StageCall(p, k, sids), k, sids)
  {
  }

  /** `OnboardCustomer` makes the pipeline's calls when the prerequisites hold, and none otherwise. */
  lemma OnboardCalls(p: ParamData, pr: Provider, n: nat)
    ensures OnboardOutcome(p, pr, n).calls == if FirstMissing(p).None? then Run(p, pr, n, StageCount).calls else []
  {
    PrerequisitesMet(p);
  }

  /** The `i`-th call of the full pipeline is well shaped for stage `i`, and
      if it is not the failed one the provider answered it with `sids[i]`. */
  lemma RunCallWellShaped(p: ParamData, pr: Provider, n: nat, i: nat)
    requires i < |Run(p, pr, n, StageCount).calls|
    ensures var run := Run(p, pr, n, StageCount);
            && i <= |run.sids| && WellShaped(run.calls[i], i, run.sids)
            && (i < |run.sids| ==> pr.stage(n + i, run.calls[i]) == Ok(run.sids[i]))
  {
    RunCall(Stages(p), pr, n, i);
    RunAnswer(Stages(p), pr, n, i);
    var at := Run(p, pr, n, i);
    StageCallWellShaped(p, i, at.sids);
  }

  /** Once the prerequisites hold, `OnboardCustomer` calls stages in order
      until one fails: every call but the last succeeded, the operation fails
      exactly when the last call failed, and a success has made all eighteen
      calls. */
  lemma OnboardFailsFast(p: ParamData, pr: Provider, n: nat)
    requires FirstMissing(p).None?
    ensures var o := OnboardOutcome(p, pr, n);
            && 1 <= |o.calls| <= StageCount
            && (forall i :: 0 <= i < |o.calls| - 1 ==> pr.stage(n + i, o.calls[i]).Ok?)
            && (o.result.err.Some? <==> pr.stage(n + |o.calls| - 1, o.calls[|o.calls| - 1]).Err?)
            && (o.result.err.None? ==> |o.calls| == StageCount)
  {
    OnboardCalls(p, pr, n);
    var run := Run(p, pr, n, StageCount);
    forall i | 0 <= i < |run.calls| - 1
      ensures pr.stage(n + i, run.calls[i]).Ok?
    {
      RunAnswer(Stages(p), pr, n, i);
    }
    RunAnswer(Stages(p), pr, n, |run.calls| - 1);
  }

  /** A failed stage leaves the response empty and the parameters as they
      were, and its error is returned unchanged, except that of stage 2.3,
      which comes back wrapped with its prefix, so that `errors.Is` still sees
      the cause. */
  lemma OnboardStageError(p: ParamData, pr: Provider, n: nat)
    requires FirstMissing(p).None?
    ensures var o := OnboardOutcome(p, pr, n);
            var last := |o.calls| - 1;
            o.result.err.Some? && last >= 0 && pr.stage(n + last, o.calls[last]).Err? ==>
              var e := pr.stage(n + last, o.calls[last]).error;
              && o.result.response == EmptyResponse && ParamsAfter(p, o.result) == p
              && (last != 2 ==> o.result.err == Some(e))
              && (last == 2 ==> o.result.err == Some(Wrapped(Stage23Prefix, e))
                                && Text(o.result.err.value) == Stage23Prefix + Text(e)
                                && forall s :: IsSentinel(o.result.err.value, s) <==> IsSentinel(e, s))
  {
    OnboardCalls(p, pr, n);
    var run := Run(p, pr, n, StageCount);
    if run.failure.Some? {
      RunAnswer(Stages(p), pr, n, |run.calls| - 1);
    }
  }

  /** The calls are made strictly in stage order, one per stage. */
  lemma OnboardCallsInStageOrder(p: ParamData, pr: Provider, n: nat)
    ensures var o := OnboardOutcome(p, pr, n);
            forall i :: 0 <= i < |o.calls| ==> StageOf(o.calls[i]) == Some(i)
  {
    OnboardCalls(p, pr, n);
    var run := Run(p, pr, n, StageCount);
    forall i | 0 <= i < |run.calls|
      ensures StageOf(run.calls[i]) == Some(i)
    {
      RunCallWellShaped(p, pr, n, i);
    }
  }

  /** Later stages receive exactly the SIDs the earlier stages returned: the
      customer profile's SID (stage 2.1) goes to every call that takes a
      profile, the trust product's (stage 3.1) to every call that takes a
      trust product, and the business information, representative, address,
      document and messaging-profile SIDs to the one stage that attaches them. */
  lemma OnboardThreadsSids(p: ParamData, pr: Provider, n: nat)
    requires FirstMissing(p).None?
    ensures var run := Run(p, pr, n, StageCount);
            && OnboardOutcome(p, pr, n).calls == run.calls
            && (forall i :: 0 <= i < |run.sids| ==> i < |run.calls| && pr.stage(n + i, run.calls[i]) == Ok(run.sids[i]))
            && (forall i :: 0 <= i < |run.calls| && ProfileSidArg(run.calls[i]).Some? ==>
                  ProfileStage < i <= |run.sids| && ProfileSidArg(run.calls[i]) == Some(run.sids[ProfileStage].sid))
            && (forall i :: 0 <= i < |run.calls| && TrustProductSidArg(run.calls[i]).Some? ==>
                  TrustProductStage < i <= |run.sids|
                  && TrustProductSidArg(run.calls[i]) == Some(run.sids[TrustProductStage].sid))
    ensures var run := Run(p, pr, n, StageCount);
            var calls, sids := run.calls, run.sids;
            && (|calls| > 2 ==> 2 <= |sids| && calls[2].AttachEndUserToProfile? && calls[2].assignment.endUserSid == sids[1].sid)
            && (|calls| > 4 ==> 4 <= |sids| && calls[4].AttachEndUserAuthorizedRep1ToProfile?
                                && calls[4].assignment.endUserSid == sids[3].sid)
            && (|calls| > 6 ==> 6 <= |sids| && calls[6].CreateSupportingDocumentResource?
                                && calls[6].document.addressSid == sids[5].sid)
            && (|calls| > 7 ==> 7 <= |sids| && calls[7].AttachSupportingDocumentToProfile?
                                && calls[7].supportingDocumentSid == sids[6].sid)
            && (|calls| > 12 ==> 12 <= |sids| && calls[12].AttachEndUserToTrustProduct? && calls[12].endUserSid == sids[11].sid)
  {
    OnboardCalls(p, pr, n);
    var run := Run(p, pr, n, StageCount);
    forall i | 0 <= i < |run.calls|
      ensures i <= |run.sids| && WellShaped(run.calls[i], i, run.sids)
      ensures i < |run.sids| ==> pr.stage(n + i, run.calls[i]) == Ok(run.sids[i])
    {
      RunCallWellShaped(p, pr, n, i);
    }
  }

  /** Evaluation comes right before submission, for the profile and for the
      trust product, and submission is attempted only after the evaluation of
      the same SID succeeded. */
  lemma EvaluationPrecedesSubmission(p: ParamData, pr: Provider, n: nat)
    ensures var o := OnboardOutcome(p, pr, n);
            forall i :: 0 <= i < |o.calls| && o.calls[i].SubmitSecondaryCustomerProfileForReview? ==>
              && 0 < i
              && o.calls[i - 1] == EvaluateSecondaryCustomerProfile(o.calls[i].customerProfileSid)
              && pr.stage(n + i - 1, o.calls[i - 1]).Ok?
    ensures var o := OnboardOutcome(p, pr, n);
            forall i :: 0 <= i < |o.calls| && o.calls[i].SubmitTrustProductForReview? ==>
              && 0 < i
              && o.calls[i - 1] == EvaluateTrustProduct(o.calls[i].trustProductSid, PolicySid)
              && pr.stage(n + i - 1, o.calls[i - 1]).Ok?
  {
    OnboardCalls(p, pr, n);
    var run := Run(p, pr, n, StageCount);
    forall i | 0 <= i < |run.calls| && (run.calls[i].SubmitSecondaryCustomerProfileForReview? || run.calls[i].SubmitTrustProductForReview?)
      ensures 0 < i && pr.stage(n + i - 1, run.calls[i - 1]).Ok?
      ensures run.calls[i].SubmitSecondaryCustomerProfileForReview? ==>
                run.calls[i - 1] == EvaluateSecondaryCustomerProfile(run.calls[i].customerProfileSid)
      ensures run.calls[i].SubmitTrustProductForReview? ==>
                run.calls[i - 1] == EvaluateTrustProduct(run.calls[i].trustProductSid, PolicySid)
    {
      RunCallWellShaped(p, pr, n, i);
      assert i == 9 || i == 15;
      RunCallWellShaped(p, pr, n, i - 1);
    }
  }

  /** A successful `OnboardCustomer` has applied for the brand registration
      only, reports the campaign as not submitted, carries the brand SID and
      status of stage 4.1 and the messaging-service SID of stage 5.1, and
      stores that SID in the parameters. */
  lemma OnboardSuccess(p: ParamData, pr: Provider, n: nat)
    ensures var o := OnboardOutcome(p, pr, n);
            var run := Run(p, pr, n, StageCount);
            o.result.err.None? ==>
              && FirstMissing(p).None?
              && |run.sids| == StageCount
              && o.calls[BrandStage] == CreateBrandRegistration(BrandRegistrationData(run.sids[ProfileStage].sid, run.sids[TrustProductStage].sid))
              && pr.stage(n + BrandStage, o.calls[BrandStage]) == Ok(run.sids[BrandStage])
              && pr.stage(n + ServiceStage, o.calls[ServiceStage]) == Ok(run.sids[ServiceStage])
              && o.result.response.message == SuccessMessage
              && var d := o.result.response.data.value;
                 && d.appliedForBrandRegistration && !d.appliedForMessagingService && !d.appliedForA2pMessageCampaign
                 && d.a2pMessageCampaignSid == NotSubmitted
                 && d.brandRegistrationSid == run.sids[BrandStage].sid
                 && d.brandRegistrationStatus == run.sids[BrandStage].status
                 && d.messagingServiceSid == run.sids[ServiceStage].sid
                 && ParamsAfter(p, o.result) == p.(messagingServiceSid := run.sids[ServiceStage].sid)
  {
    OnboardCalls(p, pr, n);
    var run := Run(p, pr, n, StageCount);
    if run.failure.None? {
      RunCallWellShaped(p, pr, n, BrandStage);
      RunCallWellShaped(p, pr, n, ServiceStage);
    }
  }

  // ---------------------------------------------------------------------
  // Completion

  /** The response of a successful `CompleteOnboarding`. */
  function CampaignCreatedResponse(p: ParamData, brandSid: string, campaignSid: string): FullResponse
  {
    FullResponse(CompletedMessage, Some(EmptyRecord.(
      locationId := p.locationId,
      subaccountId := p.subaccountId,
      twilioUsername := p.twilioUsername,
      twilioPassword := p.twilioPassword,
      brandRegistrationSid := brandSid,
      messagingServiceSid := p.messagingServiceSid,
      a2pMessageCampaignSid := campaignSid,
      brandRegistrationStatus := "Approved")))
  }

  /** Every listing of `phone` the provider can give has a SID on its first record. */
  ghost predicate ListingsHaveSids(pr: Provider, phone: string)
  {
    forall n: nat :: FirstSidPresent(pr.incoming(n, phone))
  }

  /** `CompleteOnboarding`: look the purchased number up, attach it to the
      messaging service, create the campaign; the first failure ends it. */
  function CompleteOutcome(p: ParamData, pr: Provider, n: nat, brandSid: string): (o: Outcome<Answer>)
    requires FirstSidPresent(pr.incoming(n, p.twilioPurchasedPhoneNumber))
    ensures 1 <= |o.calls| <= 3
    ensures o.result.err.Some? ==> o.result.response == EmptyResponse
  {
    var lookup := ListIncomingPhoneNumber(p.twilioPurchasedPhoneNumber);
    var phoneSid := GetPhoneNumberSID(p.twilioPurchasedPhoneNumber, pr.incoming(n, p.twilioPurchasedPhoneNumber));
    if phoneSid.Err? then Outcome([lookup], Failure(phoneSid.error))
    else
      var attach := CreatePhoneNumber(p.messagingServiceSid, phoneSid.value);
      var added := AddPhoneNumberToMessagingService(pr.createPhone(n + 1, p.messagingServiceSid, phoneSid.value));
      if added.Err? then Outcome([lookup, attach], Failure(added.error))
      else
        var create := CreateA2PCampaign(p.messagingServiceSid, CampaignData(brandSid));
        match pr.stage(n + 2, create)
        case Err(e) => Outcome([lookup, attach, create], Failure(e))
        case Ok(campaign) =>
          Outcome([lookup, attach, create], Answer(CampaignCreatedResponse(p, brandSid, campaign.sid), None))
  }

  /** `CompleteOnboarding` looks the purchased number up first; only a found
      number is attached, to the stored messaging service and with the SID of
      the first record; only an attached number leads to the campaign, for
      the given brand; and only a created campaign is a success, reported as
      approved and carrying the campaign's SID. A failure returns the error of
      the step that failed: the lookup's, the prefixed one of adding the
      number, or the campaign's. */
  lemma CompleteOnboardingSteps(p: ParamData, pr: Provider, n: nat, brandSid: string)
    requires FirstSidPresent(pr.incoming(n, p.twilioPurchasedPhoneNumber))
    ensures var o := CompleteOutcome(p, pr, n, brandSid);
            var listed := pr.incoming(n, p.twilioPurchasedPhoneNumber);
            && o.calls[0] == ListIncomingPhoneNumber(p.twilioPurchasedPhoneNumber)
            && (|o.calls| > 1 <==> listed.Ok? && |listed.value| > 0)
            && (|o.calls| > 1 ==>
                  && o.calls[1].CreatePhoneNumber? && o.calls[1].serviceSid == p.messagingServiceSid
                  && Some(o.calls[1].phoneNumberSid) == listed.value[0].sid)
            && (|o.calls| > 2 <==> |o.calls| > 1 && pr.createPhone(n + 1, p.messagingServiceSid, o.calls[1].phoneNumberSid).Ok?)
            && (|o.calls| > 2 ==> o.calls[2] == CreateA2PCampaign(p.messagingServiceSid, CampaignData(brandSid)))
    ensures var o := CompleteOutcome(p, pr, n, brandSid);
            && (o.result.err.None? <==> |o.calls| == 3 && pr.stage(n + 2, o.calls[2]).Ok?)
            && (o.result.err.None? ==>
                  o.result.response == CampaignCreatedResponse(p, brandSid, pr.stage(n + 2, o.calls[2]).value.sid))
    ensures var o := CompleteOutcome(p, pr, n, brandSid);
            var phone := p.twilioPurchasedPhoneNumber;
            var looked := GetPhoneNumberSID(phone, pr.incoming(n, phone));
            && (|o.calls| == 1 ==> o.result.err == Some(looked.error))
            && (|o.calls| == 2 ==>
                  o.result.err == Some(AddPhoneNumberToMessagingService(
                                         pr.createPhone(n + 1, p.messagingServiceSid, looked.value)).error))
            && (|o.calls| == 3 && o.result.err.Some? ==> o.result.err == Some(pr.stage(n + 2, o.calls[2]).error))
  {
  }
}
