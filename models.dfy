/** The records the A2P service reads and returns (a2p/11_models.go), the
    calls it makes on the registration provider, and the provider itself as
    scripted answers. Only the fields the core reads or writes are kept. */
module Models {
  import opened Errors

  /** The fields of `FullA2POnboardingParams` that onboarding reads, plus
      `MessagingServiceSID`, the one it writes. */
  datatype ParamData = ParamData(
    locationId: string,
    subaccountId: string,
    twilioUsername: string,
    twilioPassword: string,
    customerName: string,
    email: string,
    street: string,
    city: string,
    region: string,
    postalCode: string,
    isoCountry: string,
    socialMediaProfileUrls: string,
    websiteUrl: string,
    friendlyName: string,
    businessName: string,
    businessIndustry: string,
    businessType: string,
    businessRegistrationId: string,
    businessIdentity: string,
    businessRegistrationNumber: string,
    regionOfOperation: string,
    twilioPurchasedPhoneNumber: string,
    twilioPurchasedPhoneNumberSid: string,
    endUserRepOnePosition: string,
    endUserRepOneFirstName: string,
    endUserRepOneLastName: string,
    endUserRepOneEmail: string,
    endUserRepOneBusinessTitle: string,
    messagingServiceSid: string)

  // The request records handed to the provider, field for field as the
  // service fills them in (the SID fields it leaves empty are dropped).

  datatype CustomerProfileData =
    CustomerProfileData(friendlyName: string, email: string, statusCallback: string, policySid: string)

  datatype BusinessInfoData = BusinessInfoData(
    businessName: string,
    socialMediaProfileUrls: string,
    websiteUrl: string,
    businessRegionsOfOperation: string,
    businessType: string,
    businessRegistrationId: string,
    businessIdentity: string,
    businessIndustry: string,
    businessRegistrationNumber: string)

  datatype AuthorizedRepData = AuthorizedRepData(
    kind: string,
    position: string,
    firstName: string,
    lastName: string,
    email: string,
    phoneNumber: string,
    businessTitle: string,
    friendlyName: string)

  datatype EndUserAssignmentData = EndUserAssignmentData(customerProfileSid: string, endUserSid: string)

  datatype AddressData = AddressData(
    pathAccountSid: string,
    customerName: string,
    street: string,
    city: string,
    region: string,
    postalCode: string,
    isoCountry: string,
    friendlyName: string)

  datatype SupportingDocumentData = SupportingDocumentData(friendlyName: string, addressSid: string)

  datatype TrustProductData =
    TrustProductData(friendlyName: string, email: string, policySid: string, statusCallback: string)

  datatype MessagingProfileData = MessagingProfileData(companyType: string, stockExchange: string, stockTicker: string)

  datatype BrandRegistrationData = BrandRegistrationData(customerProfileBundleSid: string, a2pProfileBundleSid: string)

  datatype MessagingServiceData =
    MessagingServiceData(friendlyName: string, inboundRequestUrl: string, fallbackUrl: string)

  /** Of `CampaignData`, the service sets only the brand registration. */
  datatype CampaignData = CampaignData(brandRegistrationSid: string)

  /** One call on the provider, with the arguments the service passes. */
  datatype Call =
    | CreateSecondaryCustomerProfile(profile: CustomerProfileData)
    | CreateEndUserBusinessInfo(businessInfo: BusinessInfoData)
    | AttachEndUserToProfile(assignment: EndUserAssignmentData)
    | CreateEndUserAuthorizedRep1(rep: AuthorizedRepData)
    | AttachEndUserAuthorizedRep1ToProfile(assignment: EndUserAssignmentData)
    | CreateAddressResource(address: AddressData)
    | CreateSupportingDocumentResource(document: SupportingDocumentData)
    | AttachSupportingDocumentToProfile(customerProfileSid: string, supportingDocumentSid: string)
    | EvaluateSecondaryCustomerProfile(customerProfileSid: string)
    | SubmitSecondaryCustomerProfileForReview(customerProfileSid: string)
    | CreateTrustProduct(trustProduct: TrustProductData)
    | CreateEndUserMessagingProfile(messagingProfile: MessagingProfileData)
    | AttachEndUserToTrustProduct(trustProductSid: string, endUserSid: string)
    | AttachSecondaryCustomerProfileToTrustProduct(trustProductSid: string, customerProfileSid: string)
    | EvaluateTrustProduct(trustProductSid: string, policySid: string)
    | SubmitTrustProductForReview(trustProductSid: string)
    | CreateBrandRegistration(brand: BrandRegistrationData)
    | CreateMessagingService(service: MessagingServiceData)
    | ListIncomingPhoneNumber(phoneNumber: string)
    | CreatePhoneNumber(serviceSid: string, phoneNumberSid: string)
    | CreateA2PCampaign(serviceSid: string, campaign: CampaignData)
    | FetchBrandRegistration(brandRegistrationSid: string)

  /** What a successful stage gives back: a SID, and for
      `CreateBrandRegistration` also the registration's initial status. */
  datatype Resource = Resource(sid: string, status: string)

  /** A record of `ListIncomingPhoneNumber`; its `Sid` pointer may be nil. */
  datatype IncomingNumber = IncomingNumber(sid: Option<string>)

  /** A record of `ListAvailablePhoneNumberLocal`; its `FriendlyName` may be nil. */
  datatype AvailableNumber = AvailableNumber(friendlyName: Option<string>)

  /** The `MessagingV1PhoneNumber` that `CreatePhoneNumber` returns. */
  datatype PhoneNumberResource = PhoneNumberResource(sid: Option<string>)

  /** The provider as a deterministic script: each answer may depend on the
      call and on its position `n` in the service's call log. */
  datatype Provider = Provider(
    stage: (nat, Call) -> Result<Resource>,
    incoming: (nat, string) -> Result<seq<IncomingNumber>>,
    createPhone: (nat, string, string) -> Result<PhoneNumberResource>)

  /** `A2POnboardingResponse` without its two timestamps. */
  datatype OnboardingRecord = OnboardingRecord(
    id: string,
    locationId: string,
    subaccountId: string,
    twilioUsername: string,
    twilioPassword: string,
    twilioPhoneNumber: string,
    twilioPhoneNumberSid: string,
    brandRegistrationSid: string,
    messagingServiceSid: string,
    a2pMessageCampaignSid: string,
    appliedForBrandRegistration: bool,
    appliedForMessagingService: bool,
    appliedForA2pMessageCampaign: bool,
    brandRegistrationStatus: string,
    messagingServiceStatus: string,
    a2pMessageCampaignStatus: string)

  /** The Go zero value `A2POnboardingResponse{}`. */
  const EmptyRecord := OnboardingRecord("", "", "", "", "", "", "", "", "", "", false, false, false, "", "", "")

  /** `FullA2POnboardingResponse`; `data` stands for the `*A2POnboardingResponse` pointer. */
  datatype FullResponse = FullResponse(message: string, data: Option<OnboardingRecord>)

  /** The Go zero value `FullA2POnboardingResponse{}`. */
  const EmptyResponse := FullResponse("", None)

  /** The `(FullA2POnboardingResponse, error)` pair every public operation returns. */
  datatype Answer = Answer(response: FullResponse, err: Option<Error>)

  /** `return FullA2POnboardingResponse{}, e`. */
  function Failure(e: Error): Answer
  {
    Answer(EmptyResponse, Some(e))
  }

  /** The calls an operation makes, in order, and what it returns. */
  datatype Outcome<T> = Outcome(calls: seq<Call>, result: T)

  /** `o` preceded by the calls in `prefix`. */
  function Then<T>(prefix: seq<Call>, o: Outcome<T>): Outcome<T>
  {
    Outcome(prefix + o.calls, o.result)
  }

  lemma ThenThen<T>(a: seq<Call>, b: seq<Call>, o: Outcome<T>)
    ensures Then(a + b, o) == Then(a, Then(b, o))
  {
  }
}
