/** The A2P service itself (a2p/main.go, a2p/phone_number.go): an object over
    the registration provider that keeps the log of the calls it has made.
    The provider answers each call from its script, given the call and its
    position in the log. Every operation is proved to make exactly the calls,
    and to return exactly the answer, that its function in `Onboarding`,
    `PhoneNumbers` or `Monitor` prescribes. */
module Service {
  import opened Errors
  import opened Models
  import opened PhoneNumbers
  import opened Onboarding
  import opened Monitor

  /** The `*FullA2POnboardingParams` the operations share. */
  class Params {
    var data: ParamData

    constructor (data: ParamData)
      ensures this.data == data
    {
      this.data := data;
    }
  }

  class A2PService {
    const provider: Provider
    /** Every call made on the provider so far, oldest first. */
    var log: seq<Call>

    /** `NewA2PServiceInstance`: a service that has not called anything yet. */
    constructor (provider: Provider)
      ensures this.provider == provider && log == []
    {
      this.provider := provider;
      log := [];
    }

    /** Makes a call that answers with a resource. */
    method Invoke(c: Call) returns (r: Result<Resource>)
      modifies this
      ensures log == old(log) + [c]
      ensures r == provider.stage(|old(log)|, c)
    {
      r := provider.stage(|log|, c);
      log := log + [c];
    }

    // The stages of `OnboardCustomer`. Each group below runs a few
    // consecutive stages, from stage `k` right after stages `0 .. k-1`
    // succeeded; `prefix` is the log before the first stage and `runs` the
    // pipeline at every stage count. A group either reaches the stage after
    // its last one, or stops where the whole pipeline stops with the error
    // `OnboardCustomer` returns.

    /** Stages `0 .. k-1` have succeeded, with their calls logged after `prefix`. */
    ghost predicate Reached(prefix: seq<Call>, runs: seq<Progress>, k: nat)
      reads this
    {
      && k < |runs| && log == prefix + runs[k].calls
      && runs[k].failure.None? && |runs[k].sids| == k
    }

    /** The pipeline has stopped, with its calls logged after `prefix`, and
        `e` is what `OnboardCustomer` returns for it. */
    ghost predicate Stopped(prefix: seq<Call>, runs: seq<Progress>, e: Error)
      reads this
    {
      |runs| == StageCount + 1 && log == prefix + runs[StageCount].calls && FailedWith(runs[StageCount], e)
    }

    /** Makes `c`, the call of stage `k`. */
    method Stage(c: Call, ghost p: ParamData, ghost prefix: seq<Call>, ghost runs: seq<Progress>, ghost k: nat)
      returns (r: Result<Resource>)
      requires RunsAs(runs, p, provider, |prefix|)
      requires k < StageCount && Reached(prefix, runs, k)
      requires c == StageCall(p, k, runs[k].sids)
      modifies this
      ensures r.Ok? ==> Reached(prefix, runs, k + 1) && runs[k + 1].sids == runs[k].sids + [r.value]
      ensures r.Err? ==> && log == prefix + runs[StageCount].calls
                         && runs[StageCount].failure == Some(StageFailure(k, r.error))
    {
      r := Invoke(c);
      AttemptStageOf(runs, p, provider, |prefix|, k, c);
    }

    /** Stages 2.1 to 2.3: create the secondary customer profile and the
        business information, and attach the one to the other; on success
        the profile's SID. A failure of stage 2.3 comes back wrapped. */
    method BusinessProfileStages(p: ParamData, ghost prefix: seq<Call>, ghost runs: seq<Progress>) returns (r: Result<string>)
      requires RunsAs(runs, p, provider, |prefix|)
      requires log == prefix && runs[0] == Progress([], [], None)
      modifies this
      ensures r.Ok? ==> Reached(prefix, runs, 3) && r.value == runs[3].sids[ProfileStage].sid
      ensures r.Err? ==> Stopped(prefix, runs, r.error)
    {
      // Stage 2.1: the secondary customer profile
      var profile := Stage(CreateSecondaryCustomerProfile(CustomerProfileData(p.friendlyName, p.email, StatusCallbackUrl, PolicySid)), p, prefix, runs, 0);
      if profile.Err? {
        return Err(profile.error);
      }
      // Stage 2.2: the business information
      var businessInfo := Stage(CreateEndUserBusinessInfo(BusinessInfoData(
        p.businessName, p.socialMediaProfileUrls, p.websiteUrl, p.regionOfOperation, p.businessType,
        p.businessRegistrationId, p.businessIdentity, p.businessIndustry, p.businessRegistrationNumber)), p, prefix, runs, 1);
      if businessInfo.Err? {
        return Err(businessInfo.error);
      }
      // Stage 2.3: attach the business information to the profile
      var attached := Stage(AttachEndUserToProfile(EndUserAssignmentData(profile.value.sid, businessInfo.value.sid)), p, prefix, runs, 2);
      if attached.Err? {
        return Err(Wrapped(Stage23Prefix, attached.error));
      }
      return Ok(profile.value.sid);
    }

    /** Stages 2.4 and 2.5: create the authorized representative and attach
        it to the profile `profileSid`. */
    method RepresentativeStages(p: ParamData, profileSid: string, ghost prefix: seq<Call>, ghost runs: seq<Progress>)
      returns (err: Option<Error>)
      requires RunsAs(runs, p, provider, |prefix|)
      requires Reached(prefix, runs, 3) && profileSid == runs[3].sids[ProfileStage].sid
      modifies this
      ensures err.None? ==> Reached(prefix, runs, AddressStage) && profileSid == runs[AddressStage].sids[ProfileStage].sid
      ensures err.Some? ==> Stopped(prefix, runs, err.value)
    {
      // Stage 2.4: the authorized representative
      var rep := Stage(CreateEndUserAuthorizedRep1(AuthorizedRepData(
        "authorized_representative_1", p.endUserRepOnePosition, p.endUserRepOneFirstName,
        p.endUserRepOneLastName, p.endUserRepOneEmail, p.endUserRepOneEmail, p.endUserRepOneBusinessTitle,
        p.customerName + " - Authorized Representative 1")), p, prefix, runs, 3);
      if rep.Err? {
        return Some(rep.error);
      }
      // Stage 2.5: attach the representative to the profile
      var attached := Stage(AttachEndUserAuthorizedRep1ToProfile(EndUserAssignmentData(profileSid, rep.value.sid)), p, prefix, runs, 4);
      if attached.Err? {
        return Some(attached.error);
      }
      return None;
    }

    /** Stages 2.6 to 2.8: create the address and the supporting document for
        it, and attach the document to the profile `profileSid`. */
    method DocumentStages(p: ParamData, profileSid: string, ghost prefix: seq<Call>, ghost runs: seq<Progress>)
      returns (err: Option<Error>)
      requires RunsAs(runs, p, provider, |prefix|)
      requires Reached(prefix, runs, AddressStage) && profileSid == runs[AddressStage].sids[ProfileStage].sid
      modifies this
      ensures err.None? ==> Reached(prefix, runs, 8) && profileSid == runs[8].sids[ProfileStage].sid
      ensures err.Some? ==> Stopped(prefix, runs, err.value)
    {
      // Stage 2.6: the address
      var address := Stage(CreateAddressResource(AddressData(
        p.twilioUsername, p.customerName, p.street, p.city, p.region, p.postalCode, p.isoCountry,
        p.customerName + " - Address Resource")), p, prefix, runs, 5);
      if address.Err? {
        return Some(address.error);
      }
      // Stage 2.7: the supporting document
      var document := Stage(CreateSupportingDocumentResource(SupportingDocumentData(
        p.customerName + " - Business License Document", address.value.sid)), p, prefix, runs, 6);
      if document.Err? {
        return Some(document.error);
      }
      // Stage 2.8: attach the document to the profile
      var attached := Stage(AttachSupportingDocumentToProfile(profileSid, document.value.sid), p, prefix, runs, 7);
      if attached.Err? {
        return Some(attached.error);
      }
      return None;
    }

    /** Stages 2.9 and 2.10: evaluate the profile `profileSid` and submit it
        for review. */
    method ProfileSubmissionStages(p: ParamData, profileSid: string, ghost prefix: seq<Call>, ghost runs: seq<Progress>)
      returns (err: Option<Error>)
      requires RunsAs(runs, p, provider, |prefix|)
      requires Reached(prefix, runs, 8) && profileSid == runs[8].sids[ProfileStage].sid
      modifies this
      ensures err.None? ==> Reached(prefix, runs, TrustProductStage) && profileSid == runs[TrustProductStage].sids[ProfileStage].sid
      ensures err.Some? ==> Stopped(prefix, runs, err.value)
    {
      // Stage 2.9: evaluate the profile
      var evaluated := Stage(EvaluateSecondaryCustomerProfile(profileSid), p, prefix, runs, 8);
      if evaluated.Err? {
        return Some(evaluated.error);
      }
      // Stage 2.10: submit the profile for review
      var submitted := Stage(SubmitSecondaryCustomerProfileForReview(profileSid), p, prefix, runs, 9);
      if submitted.Err? {
        return Some(submitted.error);
      }
      return None;
    }

    /** Stages 3.1 to 3.3: create the trust product and the messaging
        profile, and attach the one to the other; on success the trust
        product's SID. */
    method TrustProductCreationStages(p: ParamData, profileSid: string, ghost prefix: seq<Call>, ghost runs: seq<Progress>)
      returns (r: Result<string>)
      requires RunsAs(runs, p, provider, |prefix|)
      requires Reached(prefix, runs, TrustProductStage) && profileSid == runs[TrustProductStage].sids[ProfileStage].sid
      modifies this
      ensures r.Ok? ==> && Reached(prefix, runs, 13) && profileSid == runs[13].sids[ProfileStage].sid
                        && r.value == runs[13].sids[TrustProductStage].sid
      ensures r.Err? ==> Stopped(prefix, runs, r.error)
    {
      // Stage 3.1: the trust product
      var trustProduct := Stage(CreateTrustProduct(TrustProductData(p.friendlyName, p.email, PolicySid, StatusCallbackUrl)), p, prefix, runs, 10);
      if trustProduct.Err? {
        return Err(trustProduct.error);
      }
      // Stage 3.2: the messaging profile
      var messagingProfile := Stage(CreateEndUserMessagingProfile(MessagingProfileData(p.businessType, "", "")), p, prefix, runs, 11);
      if messagingProfile.Err? {
        return Err(messagingProfile.error);
      }
      // Stage 3.3: attach the messaging profile to the trust product
      var attached := Stage(AttachEndUserToTrustProduct(trustProduct.value.sid, messagingProfile.value.sid), p, prefix, runs, 12);
      if attached.Err? {
        return Err(attached.error);
      }
      return Ok(trustProduct.value.sid);
    }

    /** Stages 3.4 to 3.6: attach the profile `profileSid` to the trust
        product `trustSid`, evaluate the trust product and submit it for review. */
    method TrustProductSubmissionStages(p: ParamData, profileSid: string, trustSid: string, ghost prefix: seq<Call>, ghost runs: seq<Progress>)
      returns (err: Option<Error>)
      requires RunsAs(runs, p, provider, |prefix|)
      requires Reached(prefix, runs, 13) && profileSid == runs[13].sids[ProfileStage].sid
      requires trustSid == runs[13].sids[TrustProductStage].sid
      modifies this
      ensures err.None? ==> && Reached(prefix, runs, BrandStage) && profileSid == runs[BrandStage].sids[ProfileStage].sid
                            && trustSid == runs[BrandStage].sids[TrustProductStage].sid
      ensures err.Some? ==> Stopped(prefix, runs, err.value)
    {
      // Stage 3.4: attach the customer profile to the trust product
      var attached := Stage(AttachSecondaryCustomerProfileToTrustProduct(trustSid, profileSid), p, prefix, runs, 13);
      if attached.Err? {
        return Some(attached.error);
      }
      // Stage 3.5: evaluate the trust product
      var evaluated := Stage(EvaluateTrustProduct(trustSid, PolicySid), p, prefix, runs, 14);
      if evaluated.Err? {
        return Some(evaluated.error);
      }
      // Stage 3.6: submit the trust product for review
      var submitted := Stage(SubmitTrustProductForReview(trustSid), p, prefix, runs, 15);
      if submitted.Err? {
        return Some(submitted.error);
      }
      return None;
    }

    /** Stages 4.1 and 5.1: register the brand for the profile `profileSid`
        and the trust product `trustSid`, and create the messaging service;
        on success the brand registration and the messaging service's SID. */
    method RegistrationStages(p: ParamData, profileSid: string, trustSid: string, ghost prefix: seq<Call>, ghost runs: seq<Progress>)
      returns (r: Result<(Resource, string)>)
      requires RunsAs(runs, p, provider, |prefix|)
      requires Reached(prefix, runs, BrandStage) && profileSid == runs[BrandStage].sids[ProfileStage].sid
      requires trustSid == runs[BrandStage].sids[TrustProductStage].sid
      modifies this
      ensures r.Ok? ==> && Reached(prefix, runs, StageCount)
                        && r.value == (runs[StageCount].sids[BrandStage], runs[StageCount].sids[ServiceStage].sid)
      ensures r.Err? ==> Stopped(prefix, runs, r.error)
    {
      // Stage 4.1: the brand registration
      var brand := Stage(CreateBrandRegistration(BrandRegistrationData(profileSid, trustSid)), p, prefix, runs, 16);
      if brand.Err? {
        return Err(brand.error);
      }
      // Stage 5.1: the messaging service
      var service := Stage(CreateMessagingService(MessagingServiceData(p.friendlyName, InboundRequestUrl, FallbackUrl)), p, prefix, runs, 17);
      if service.Err? {
        return Err(service.error);
      }
      return Ok((brand.value, service.value.sid));
    }

    /** Stages 2.1 to 2.5: the customer profile with its business information
        and representative; on success the profile's SID. */
    method CustomerProfileStages(p: ParamData, ghost prefix: seq<Call>, ghost runs: seq<Progress>) returns (r: Result<string>)
      requires RunsAs(runs, p, provider, |prefix|)
      requires log == prefix && runs[0] == Progress([], [], None)
      modifies this
      ensures r.Ok? ==> Reached(prefix, runs, AddressStage) && r.value == runs[AddressStage].sids[ProfileStage].sid
      ensures r.Err? ==> Stopped(prefix, runs, r.error)
    {
      r := BusinessProfileStages(p, prefix, runs);
      if r.Err? {
        return;
      }
      var err := RepresentativeStages(p, r.value, prefix, runs);
      if err.Some? {
        return Err(err.value);
      }
    }

    /** Stages 2.6 to 2.10: the profile's supporting document, then the
        profile's review. */
    method ProfileReviewStages(p: ParamData, profileSid: string, ghost prefix: seq<Call>, ghost runs: seq<Progress>)
      returns (err: Option<Error>)
      requires RunsAs(runs, p, provider, |prefix|)
      requires Reached(prefix, runs, AddressStage) && profileSid == runs[AddressStage].sids[ProfileStage].sid
      modifies this
      ensures err.None? ==> Reached(prefix, runs, TrustProductStage) && profileSid == runs[TrustProductStage].sids[ProfileStage].sid
      ensures err.Some? ==> Stopped(prefix, runs, err.value)
    {
      err := DocumentStages(p, profileSid, prefix, runs);
      if err.Some? {
        return;
      }
      err := ProfileSubmissionStages(p, profileSid, prefix, runs);
    }

    /** Stages 3.1 to 3.6: the trust product with its messaging profile and
        the customer profile, then its review; on success its SID. */
    method TrustProductStages(p: ParamData, profileSid: string, ghost prefix: seq<Call>, ghost runs: seq<Progress>)
      returns (r: Result<string>)
      requires RunsAs(runs, p, provider, |prefix|)
      requires Reached(prefix, runs, TrustProductStage) && profileSid == runs[TrustProductStage].sids[ProfileStage].sid
      modifies this
      ensures r.Ok? ==> && Reached(prefix, runs, BrandStage) && profileSid == runs[BrandStage].sids[ProfileStage].sid
                        && r.value == runs[BrandStage].sids[TrustProductStage].sid
      ensures r.Err? ==> Stopped(prefix, runs, r.error)
    {
      r := TrustProductCreationStages(p, profileSid, prefix, runs);
      if r.Err? {
        return;
      }
      var err := TrustProductSubmissionStages(p, profileSid, r.value, prefix, runs);
      if err.Some? {
        return Err(err.value);
      }
    }

    /** Stages 2.1 to 2.10: the customer profile, up to its review. */
    method ProfileStages(p: ParamData, ghost prefix: seq<Call>, ghost runs: seq<Progress>) returns (r: Result<string>)
      requires RunsAs(runs, p, provider, |prefix|)
      requires log == prefix && runs[0] == Progress([], [], None)
      modifies this
      ensures r.Ok? ==> Reached(prefix, runs, TrustProductStage) && r.value == runs[TrustProductStage].sids[ProfileStage].sid
      ensures r.Err? ==> Stopped(prefix, runs, r.error)
    {
      r := CustomerProfileStages(p, prefix, runs);
      if r.Err? {
        return;
      }
      var err := ProfileReviewStages(p, r.value, prefix, runs);
      if err.Some? {
        return Err(err.value);
      }
    }

    /** Stages 2.1 to 5.1, stopping at the first failure; on success the
        brand registration and the messaging service's SID. */
    method AllStages(p: ParamData, ghost prefix: seq<Call>, ghost runs: seq<Progress>) returns (r: Result<(Resource, string)>)
      requires RunsAs(runs, p, provider, |prefix|)
      requires log == prefix && runs[0] == Progress([], [], None)
      modifies this
      ensures r.Ok? ==> && Reached(prefix, runs, StageCount)
                        && r.value == (runs[StageCount].sids[BrandStage], runs[StageCount].sids[ServiceStage].sid)
      ensures r.Err? ==> Stopped(prefix, runs, r.error)
    {
      var profileSid := ProfileStages(p, prefix, runs);
      if profileSid.Err? {
        return Err(profileSid.error);
      }
      var trustSid := TrustProductStages(p, profileSid.value, prefix, runs);
      if trustSid.Err? {
        return Err(trustSid.error);
      }
      r := RegistrationStages(p, profileSid.value, trustSid.value, prefix, runs);
    }

    /** `OnboardCustomer`: check the prerequisites, run stages 2.1 to 5.1 and
        stop at the first failure; on success store the messaging-service SID. */
    method OnboardCustomer(params: Params) returns (ans: Answer)
      modifies this, params
      ensures log == old(log) + OnboardOutcome(old(params.data), provider, |old(log)|).calls
      ensures ans == OnboardOutcome(old(params.data), provider, |old(log)|).result
      ensures params.data == ParamsAfter(old(params.data), ans)
    {
      var p := params.data;
      if p.subaccountId == "" {
        return Failure(Sentinel(CreateSubaccount));
      }
      if p.twilioPurchasedPhoneNumber == "" {
        return Failure(Sentinel(PurchasePhoneNumber));
      }
      if p.twilioPurchasedPhoneNumberSid == "" {
        return Failure(Sentinel(GetPhoneNumberSid));
      }
      if p.twilioUsername == "" {
        return Failure(Sentinel(GetTwilioUsername));
      }
      if p.twilioPassword == "" {
        return Failure(Sentinel(GetTwilioPassword));
      }
      ghost var prefix := log;
      ghost var runs := Pipeline(p, provider, |prefix|);
      assert runs[0] == Run(p, provider, |prefix|, 0);
      var registered := AllStages(p, prefix, runs);
      assert runs[StageCount] == Run(p, provider, |prefix|, StageCount);
      if registered.Err? {
        return Failure(registered.error);
      }
      var (brand, serviceSid) := registered.value;
      params.data := p.(messagingServiceSid := serviceSid);
      return Answer(BrandRegisteredResponse(p, brand, serviceSid), None);
    }

    /** `GetPhoneNumberSID`: list the incoming numbers matching `phoneNumber`. */
    method GetPhoneNumberSID(phoneNumber: string) returns (r: Result<string>)
      requires FirstSidPresent(provider.incoming(|log|, phoneNumber))
      modifies this
      ensures log == old(log) + [ListIncomingPhoneNumber(phoneNumber)]
      ensures r == PhoneNumbers.GetPhoneNumberSID(phoneNumber, provider.incoming(|old(log)|, phoneNumber))
    {
      r := PhoneNumbers.GetPhoneNumberSID(phoneNumber, provider.incoming(|log|, phoneNumber));
      log := log + [ListIncomingPhoneNumber(phoneNumber)];
    }

    /** `AddPhoneNumberToMessagingService`: attach a number to a messaging service. */
    method AddPhoneNumberToMessagingService(serviceSid: string, phoneNumberSid: string) returns (r: Result<PhoneNumberResource>)
      modifies this
      ensures log == old(log) + [CreatePhoneNumber(serviceSid, phoneNumberSid)]
      ensures r == PhoneNumbers.AddPhoneNumberToMessagingService(provider.createPhone(|old(log)|, serviceSid, phoneNumberSid))
    {
      r := PhoneNumbers.AddPhoneNumberToMessagingService(provider.createPhone(|log|, serviceSid, phoneNumberSid));
      log := log + [CreatePhoneNumber(serviceSid, phoneNumberSid)];
    }

    /** `CompleteOnboarding`: look the purchased number up, attach it to the
        messaging service, create the campaign, and stop at the first failure. */
    method CompleteOnboarding(params: Params, brandSid: string) returns (ans: Answer)
      requires FirstSidPresent(provider.incoming(|log|, params.data.twilioPurchasedPhoneNumber))
      modifies this
      ensures log == old(log) + CompleteOutcome(params.data, provider, |old(log)|, brandSid).calls
      ensures ans == CompleteOutcome(params.data, provider, |old(log)|, brandSid).result
    {
      var p := params.data;
      var phoneSid := GetPhoneNumberSID(p.twilioPurchasedPhoneNumber);
      if phoneSid.Err? {
        return Failure(phoneSid.error);
      }
      // Stage 6.1: attach the number
      var added := AddPhoneNumberToMessagingService(p.messagingServiceSid, phoneSid.value);
      if added.Err? {
        return Failure(added.error);
      }
      // Stage 7.1: the campaign
      var campaign := Invoke(CreateA2PCampaign(p.messagingServiceSid, CampaignData(brandSid)));
      if campaign.Err? {
        return Failure(campaign.error);
      }
      return Answer(CampaignCreatedResponse(p, brandSid, campaign.value.sid), None);
    }

    /** `processRegistrationStatus`: complete an approved registration, report
        a settled one, and refuse any other status. */
    method ProcessRegistrationStatus(status: string, params: Params, sid: string) returns (ans: Answer)
      requires status == Approved ==> FirstSidPresent(provider.incoming(|log|, params.data.twilioPurchasedPhoneNumber))
      modifies this
      ensures log == old(log) + ProcessOutcome(params.data, provider, |old(log)|, status, sid).calls
      ensures ans == ProcessOutcome(params.data, provider, |old(log)|, status, sid).result
    {
      if status == Approved {
        ans := CompleteOnboarding(params, sid);
      } else if status == "FAILED" || status == "IN_REVIEW" || status == "PENDING" || status == "DELETED" {
        ans := Answer(FullResponse(StatusPrefix + status, None), None);
      } else {
        ans := Failure(Formatted(UnknownStatusPrefix + status));
      }
    }

    /** The body of one tick of `MonitorBrandRegistration`: fetch the
        registration and, if that worked, dispatch its status. An error of
        either step is returned, and the loop skips to the next tick. */
    method Tick(brandSid: string, params: Params) returns (ans: Answer)
      requires ListingsHaveSids(provider, params.data.twilioPurchasedPhoneNumber)
      modifies this
      ensures log == old(log) + TickOutcome(params.data, provider, |old(log)|, brandSid).calls
      ensures ans == TickOutcome(params.data, provider, |old(log)|, brandSid).result
    {
      var fetched := Invoke(FetchBrandRegistration(brandSid));
      if fetched.Err? {
        return Failure(fetched.error);
      }
      ans := ProcessRegistrationStatus(fetched.value.status, params, brandSid);
    }

    /** The `for`/`select` loop of `MonitorBrandRegistration` over a tick
        function `tick` that agrees with `Tick`. */
    method PollLoop(brandSid: string, params: Params, tickAtDeadline: bool, ghost tick: nat -> Outcome<Answer>) returns (ans: Answer)
      requires ListingsHaveSids(provider, params.data.twilioPurchasedPhoneNumber) && TicksAs(tick, params.data, provider, brandSid)
      modifies this
      ensures log == old(log) + Poll(tick, |old(log)|, tickAtDeadline, 1).calls
      ensures ans == Poll(tick, |old(log)|, tickAtDeadline, 1).result
    {
      ghost var whole := Then(log, Poll(tick, |log|, tickAtDeadline, 1));
      var hour := 1;
      while true
        invariant 1 <= hour <= Deadline + 1
        invariant Then(log, Poll(tick, |log|, tickAtDeadline, hour)) == whole
        decreases Deadline + 1 - hour
      {
        if !TickDue(hour, tickAtDeadline) {
          // the deadline fired
          return TimedOutAnswer;
        }
        ghost var before := log;
        var response := Tick(brandSid, params);
        assert log == before + tick(|before|).calls && response == tick(|before|).result;
        if response.err.None? {
          PollStep(tick, |before|, tickAtDeadline, hour);
          return response;
        }
        PollContinues(tick, before, log, tickAtDeadline, hour);
        hour := hour + 1;
      }
    }

    /** `MonitorBrandRegistration`: poll the registration every hour until a
        tick succeeds or the 48-hour deadline fires. */
    method MonitorBrandRegistration(brandSid: string, params: Params, tickAtDeadline: bool) returns (ans: Answer)
      requires ListingsHaveSids(provider, params.data.twilioPurchasedPhoneNumber)
      modifies this
      ensures log == old(log) + MonitorOutcome(params.data, provider, |old(log)|, brandSid, tickAtDeadline).calls
      ensures ans == MonitorOutcome(params.data, provider, |old(log)|, brandSid, tickAtDeadline).result
    {
      TickerTicks(params.data, provider, brandSid);
      ans := PollLoop(brandSid, params, tickAtDeadline, Ticker(params.data, provider, brandSid));
    }
  }
}
