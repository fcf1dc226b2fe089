/** The phone-number helpers of the A2P service (a2p/phone_number.go), each
    over the answer of the client call it makes. */
module PhoneNumbers {
  import opened Errors
  import opened Models

  const NoFriendlyName := "No friendly name available"
  const FetchPhoneNumbersPrefix := "error fetching phone numbers: "
  const AddPhoneNumberPrefix := "error adding phone number to messaging service: "
  const NotFoundPrefix := "no phone number found for "

  /** The name `GetAvailablePhoneNumbers` reports for one record. */
  function FriendlyName(record: AvailableNumber): (name: string)
    ensures record.friendlyName.Some? ==> name == record.friendlyName.value
    ensures record.friendlyName.None? ==> name == NoFriendlyName
  {
    match record.friendlyName
    case Some(n) => n
    case None => NoFriendlyName
  }

  /** `GetAvailablePhoneNumbers`, given what `ListAvailablePhoneNumberLocal`
      answered: the friendly names of the records, one per record and in the
      same order, or the fetch error reformatted with a prefix. */
  method GetAvailablePhoneNumbers(fetched: Result<seq<AvailableNumber>>) returns (r: Result<seq<string>>)
    ensures fetched.Err? <==> r.Err?
    ensures fetched.Err? ==> r.error == Formatf(FetchPhoneNumbersPrefix, fetched.error)
    ensures fetched.Ok? ==> |r.value| == |fetched.value|
    ensures fetched.Ok? ==> forall i :: 0 <= i < |r.value| ==> r.value[i] == FriendlyName(fetched.value[i])
  {
    if fetched.Err? {
      return Err(Formatted(FetchPhoneNumbersPrefix + Text(fetched.error)));
    }
    var records := fetched.value;
    var phoneNumbers: seq<string> := [];
    var i := 0;
    while i < |records|
      invariant 0 <= i <= |records|
      invariant |phoneNumbers| == i
      invariant forall j :: 0 <= j < i ==> phoneNumbers[j] == FriendlyName(records[j])
    {
      var record := records[i];
      if record.friendlyName.Some? {
        phoneNumbers := phoneNumbers + [record.friendlyName.value];
      } else {
        phoneNumbers := phoneNumbers + [NoFriendlyName];
      }
      i := i + 1;
    }
    return Ok(phoneNumbers);
  }

  /** `AddPhoneNumberToMessagingService`, given what `CreatePhoneNumber`
      answered: the response as it came, whether or not it carries a SID, or
      the provider's error reformatted with a prefix. */
  function AddPhoneNumberToMessagingService(created: Result<PhoneNumberResource>): (r: Result<PhoneNumberResource>)
    ensures created.Ok? ==> r == created
    ensures created.Err? ==> r.Err? && Text(r.error) == AddPhoneNumberPrefix + Text(created.error)
    ensures created.Err? ==> forall k :: !IsSentinel(r.error, k)
  {
    match created
    case Ok(resp) => Ok(resp)
    case Err(e) => Err(Formatf(AddPhoneNumberPrefix, e))
  }

  /** Line 84 of the source dereferences the first record's `Sid`; the model
      asks that it be present. */
  predicate FirstSidPresent(listed: Result<seq<IncomingNumber>>)
  {
    listed.Ok? && |listed.value| > 0 ==> listed.value[0].sid.Some?
  }

  /** `GetPhoneNumberSID`, given what `ListIncomingPhoneNumber` answered for
      `phoneNumber`: the listing's error unchanged, a not-found error for an
      empty listing, or the SID of the first record. */
  function GetPhoneNumberSID(phoneNumber: string, listed: Result<seq<IncomingNumber>>): (r: Result<string>)
    requires FirstSidPresent(listed)
    ensures r.Ok? <==> listed.Ok? && |listed.value| > 0
    ensures r.Ok? ==> Some(r.value) == listed.value[0].sid
    ensures listed.Err? ==> r == Err(listed.error)
    ensures listed.Ok? && r.Err? ==> Text(r.error) == NotFoundPrefix + phoneNumber
  {
    match listed
    case Err(e) => Err(e)
    case Ok(records) =>
      if |records| == 0 then Err(Formatted(NotFoundPrefix + phoneNumber))
      else Ok(records[0].sid.value)
  }
}
