# A2P onboarding service, modelled in Dafny

This project models the A2P 10DLC onboarding service in `a2p/main.go` and
`a2p/phone_number.go`. The service registers a customer with the messaging
provider for application-to-person messaging. It does three things:

- `OnboardCustomer` checks five prerequisite fields. It then runs eighteen
  provider stages (2.1–2.10, 3.1–3.6, 4.1 and 5.1) one after another and
  stops at the first stage that fails. The stages build a secondary customer
  profile, a trust product, a brand registration and a messaging service.
- `CompleteOnboarding` looks up the purchased phone number's SID, attaches
  the number to the messaging service and creates the A2P campaign.
- `MonitorBrandRegistration` fetches the brand registration's status once an
  hour until the 48-hour deadline. `processRegistrationStatus` handles each
  status it fetches.

The phone-number helpers are modelled as well:

- `GetAvailablePhoneNumbers` maps the fetched records to their friendly
  names.
- `GetPhoneNumberSID` picks the SID of the first listed number.
- `AddPhoneNumberToMessagingService` wraps the provider's error.

The provider is a script, the datatype `Models.Provider`. You give it a call
and that call's position in the service's log, and it returns the answer.
The class `Service.A2PService` holds the provider and the log of every call
made so far. Its methods are the source's operations, written imperatively:

- the eighteen stages with their early returns;
- the in-place update of `params.MessagingServiceSID`;
- the polling loop of the monitor.

Each method is proved to append exactly the calls, and to return exactly the
answer, that a pure function prescribes. Those functions are
`Onboarding.OnboardOutcome`, `Onboarding.CompleteOutcome`,
`Monitor.ProcessOutcome`, `Monitor.TickOutcome` and `Monitor.MonitorOutcome`.
The lemmas about what the service promises are stated over these functions.

Go errors are modelled by the datatype `Errors.Error`:

- a sentinel from `main.go:26-33`;
- an error from the provider;
- an error wrapped with `%w`, which `errors.Is` still sees through;
- an error formatted with `%v`, which keeps only the text.

Time is modelled as discrete hours. The ticker fires at hours 1 to 48 and the
timeout fires at hour 48. When both are ready at hour 48, Go's `select`
picks one at random. The parameter `tickAtDeadline` says which one it picked.

Where the code does something other than what a reader would expect from
the service's purpose, the model follows the code:

- **Settled statuses end the monitor.** Polling would be expected to go on
  while a registration is `PENDING` or `IN_REVIEW`. Instead, a status of
  `PENDING`, `IN_REVIEW`, `FAILED` or `DELETED` ends the monitor with the
  message "Brand registration is …" and a nil error (`main.go:329-330` and
  `main.go:359`; `SettledStatusEndsMonitor`).
- **A failed completion is retried.** If the status is `APPROVED` but
  `CompleteOnboarding` fails, the loop does not return that error: it
  continues and completes again on a later tick (`main.go:354-357`;
  `FailedCompletionIsRetried`).
- **Only stage 2.3's error is tagged.** A failing stage's error is not
  marked with the stage it came from, except at stage 2.3; every other
  stage's error is returned as it is (`OnboardStageError`).
- **The completion response sets no applied flags.** After the campaign is
  created, `AppliedForA2pMessageCampaign` would be expected to be true. The
  response leaves all applied flags false and the phone-number fields empty,
  and sets the status `"Approved"` (`main.go:310-322`;
  `CampaignCreatedResponse`).
- **The representative's phone number is the e-mail.** Stage 2.4 fills the
  representative's phone number from the e-mail field (`main.go:105`). The
  model passes the same value.

## Model

| member | source | states |
|---|---|---|
| Errors.Formatf | a2p/phone_number.go:38-41 | an error formatted with `%v` has the prefix followed by the cause's text, and `errors.Is` matches no sentinel through it |
| PhoneNumbers.FriendlyName | a2p/phone_number.go:46-50 | a record's name is its friendly name when present, and "No friendly name available" when it is nil |
| PhoneNumbers.GetAvailablePhoneNumbers | a2p/phone_number.go:25-53 | fails exactly when the fetch fails, with the error prefixed "error fetching phone numbers: "; otherwise returns one name per fetched record, in the same order, each being `FriendlyName` of that record |
| PhoneNumbers.AddPhoneNumberToMessagingService | a2p/phone_number.go:56-68 | a successful creation is returned unchanged, whether or not its SID is present; a provider error comes back prefixed "error adding phone number to messaging service: " and matches no sentinel |
| PhoneNumbers.GetPhoneNumberSID | a2p/phone_number.go:70-85 | succeeds exactly when the listing succeeds and is non-empty, and then returns the first record's SID; a listing error is returned unchanged; an empty listing gives "no phone number found for <number>" |
| Onboarding.FirstEmpty | a2p/main.go:37-55 | no field is reported exactly when every field is non-empty; a reported sentinel belongs to an empty field, and every field before it is non-empty |
| Onboarding.PrerequisitesMet | a2p/main.go:37-55 | the prerequisites hold exactly when the sub-account ID, purchased phone number, its SID, the username and the password are all non-empty |
| Onboarding.PrerequisitesCheckedInOrder | a2p/main.go:26-65 | with a prerequisite missing, `OnboardCustomer` makes no call and returns the empty response with the sentinel of the first empty field in the source's order; otherwise its first call is stage 2.1 |
| Onboarding.RunStages | a2p/main.go:59-252 | after `k` fail-fast stages, either none failed and there is one call and one resource per stage, or the failed stage is the one after the last resource, and its call is the last one made |
| Onboarding.RunStopsAtFirstFailure | a2p/main.go:59-252 | once a stage has failed, running further stages makes no more calls and changes nothing |
| Onboarding.RunExtends | a2p/main.go:59-252 | running more stages only appends calls and resources, and a pipeline that has not failed had not failed earlier either |
| Onboarding.RunReaches | a2p/main.go:59-252 | the `i`-th call is made only after stages `0 .. i-1` all succeeded |
| Onboarding.RunCall | a2p/main.go:59-252 | the `i`-th call is stage `i`'s call, built from the resources stages `0 .. i-1` returned |
| Onboarding.RunAnswer | a2p/main.go:59-252 | every call but the failed one was answered with the resource recorded for it; the failed call's error is the pipeline's failure |
| Onboarding.StageCall | a2p/main.go:60-247 | no contract; defines the call of each of the eighteen stages, with the argument records the source builds and the SIDs of the earlier stages it passes |
| Onboarding.StageError | a2p/main.go:95-96 | a failure at stage 2.3 comes back with "error at stage 2.3: " before the cause's text and matching exactly the cause's sentinels; any other stage's error is returned unchanged |
| Onboarding.BrandRegisteredResponse | a2p/main.go:261-278 | no contract; defines the response of a successful `OnboardCustomer` (its properties are stated by `OnboardSuccess`) |
| Onboarding.OnboardOutcome | a2p/main.go:35-280 | `OnboardCustomer` makes at most eighteen calls; a success carries a data record, a failure the empty response |
| Onboarding.OnboardCalls | a2p/main.go:35-55 | `OnboardCustomer` makes the pipeline's calls when the prerequisites hold and no call otherwise |
| Onboarding.RunCallWellShaped | a2p/main.go:89-235 | each call is its stage's kind of call, takes the SIDs earlier stages returned, and, unless it failed, was answered with its recorded resource |
| Onboarding.OnboardFailsFast | a2p/main.go:59-252 | with the prerequisites met, every call but the last succeeded; the operation fails exactly when its last call failed; a success has made all eighteen calls |
| Onboarding.OnboardStageError | a2p/main.go:59-252 | a failed stage leaves the response empty and the parameters unchanged; its error is returned as is, except stage 2.3's, which is wrapped with "error at stage 2.3: " and matches exactly the cause's sentinels |
| Onboarding.OnboardCallsInStageOrder | a2p/main.go:59-252 | the `i`-th call made belongs to stage `i`, so no stage is skipped, repeated or run after a later one |
| Onboarding.OnboardThreadsSids | a2p/main.go:89-235 | every call that takes the profile SID gets stage 2.1's, every call that takes the trust-product SID gets stage 3.1's, and they come after those stages; stages 2.3, 2.5, 2.7, 2.8 and 3.3 get the SID of the business info, representative, address, document and messaging profile |
| Onboarding.EvaluationPrecedesSubmission | a2p/main.go:160-229 | each submission for review, of the profile or of the trust product, comes right after a successful evaluation of the same resource |
| Onboarding.OnboardSuccess | a2p/main.go:231-278 | a success has met the prerequisites and made all eighteen calls; brand registration took the profile and trust-product SIDs; the response has the success message, the brand SID and status from stage 4.1, the service SID from stage 5.1, "not submitted", and only `AppliedForBrandRegistration` set; `params` gains that service SID |
| Onboarding.CampaignCreatedResponse | a2p/main.go:310-322 | no contract; defines the response of a successful `CompleteOnboarding` |
| Onboarding.CompleteOutcome | a2p/main.go:282-323 | `CompleteOnboarding` makes one to three calls, and a failure returns the empty response |
| Onboarding.CompleteOnboardingSteps | a2p/main.go:282-323 | the lookup comes first; the phone is added, with the looked-up SID and the stored service SID, exactly when the lookup found a number; the campaign, with that service and brand SID, is created exactly when adding succeeded; the operation succeeds exactly when the campaign was created, and then carries the campaign SID; a failure returns the error of the step that failed: the lookup's error or "no phone number found for <number>" as `GetPhoneNumberSID` gives it, the add-phone error with its prefix, or the campaign's error unchanged |
| Monitor.ProcessOutcome | a2p/main.go:325-334 | only `APPROVED` makes calls; a settled status answers "Brand registration is <status>" with no error; any other status gives "unknown status: <status>" with the empty response |
| Monitor.ProcessDelegates | a2p/main.go:325-334 | `APPROVED` returns exactly what `CompleteOnboarding` returns; dispatch succeeds exactly for a settled status, or for `APPROVED` when the completion succeeds; dispatch never fetches a status |
| Monitor.TickOutcome | a2p/main.go:346-359 | a tick fetches the status first and makes no other fetch |
| Monitor.TickFailsExactly | a2p/main.go:346-359 | a tick continues the loop exactly on a fetch error, an unknown status, or an approved status whose completion fails; otherwise it returns what dispatch returns |
| Monitor.TickFetchesOnce | a2p/main.go:346-359 | every tick fetches the status exactly once |
| Monitor.PollStep | a2p/main.go:342-361 | at a due tick, a failing tick continues with the next hour after its calls, and a succeeding tick ends the loop with its own outcome |
| Monitor.Poll | a2p/main.go:342-361 | no contract; defines the `for`/`select` loop from a given hour: at a due hour the tick runs, a failing tick waits for the next hour, a succeeding one is returned, and past the last due hour the deadline answers |
| Monitor.PollEndsOnce | a2p/main.go:342-361 | the loop ends once: either with the timeout answer, or with the result of some tick at or after its start |
| Monitor.PollReturnsFirstSuccess | a2p/main.go:342-361 | a loop that does not time out returns the answer of a due tick that succeeded and that the loop reached only through due ticks that all failed, i.e. the first successful tick |
| Monitor.PollTimesOutExactly | a2p/main.go:340-361 | the loop returns the timeout answer exactly when every due tick it reaches fails |
| Monitor.PollCountBound | a2p/main.go:337-361 | with ticks that each make one call of a kind, the loop makes at most one per due hour and at most 48, and exactly one per due hour when it times out |
| Monitor.PollTimesOut | a2p/main.go:340-345 | a sufficient condition: if the tick at every log position fails, the loop returns the timeout answer (`PollTimesOutExactly` is the exact condition) |
| Monitor.MonitorOutcome | a2p/main.go:336-362 | no contract; defines `MonitorBrandRegistration` as the loop from hour 1 over the ticks of the provider's script |
| Monitor.MonitorEndsOnce | a2p/main.go:336-362 | the monitor either returns "Brand registration checking timed out" with the timeout sentinel, or the result of a tick that did not fail and that was reached only through failed due ticks, i.e. the first tick that did not fail |
| Monitor.MonitorTimesOutExactly | a2p/main.go:340-361 | the monitor times out exactly when every tick it makes before the deadline fails |
| Monitor.MonitorFetchBound | a2p/main.go:337-361 | the monitor fetches at most 48 times; a timeout comes after 48 fetches, or 47 when the timeout wins the race at hour 48 |
| Monitor.MonitorTimesOutWhenEveryTickFails | a2p/main.go:340-345 | a sufficient condition: if the tick at every log position fails, the monitor times out |
| Monitor.SettledStatusEndsMonitor | a2p/main.go:359 | a first fetch answering `PENDING`, `IN_REVIEW`, `FAILED` or `DELETED` ends the monitor after that one call with "Brand registration is <status>" and no error |
| Monitor.FailedCompletionIsRetried | a2p/main.go:354-357 | if the status is always `APPROVED` but completion always fails, the monitor attempts completion on every tick (one phone lookup per tick) and then times out |
| Monitor.CompletionLooksUpOnce | a2p/main.go:282-288 | one completion looks the phone number up exactly once |
| Service.Params.constructor | a2p/11_models.go:156-201 | the parameters hold the given data |
| Service.A2PService.constructor | a2p/main.go:17-24 | a new service has the given provider and an empty log |
| Service.A2PService.Invoke | a2p/main.go:59-252 | a stage call is appended to the log and answered by the provider at its log position |
| Service.A2PService.Stage | a2p/main.go:59-252 | one stage: a success reaches the next stage with its resource recorded; a failure leaves the log as the whole pipeline's and records the failure at this stage |
| Service.A2PService.BusinessProfileStages | a2p/main.go:59-97 | stages 2.1–2.3 reach stage 2.4 and return the profile SID, or stop the pipeline with the error returned, stage 2.3's wrapped |
| Service.A2PService.RepresentativeStages | a2p/main.go:99-124 | stages 2.4–2.5 reach stage 2.6, or stop the pipeline with the error returned |
| Service.A2PService.DocumentStages | a2p/main.go:126-158 | stages 2.6–2.8 reach stage 2.9, or stop the pipeline with the error returned |
| Service.A2PService.ProfileSubmissionStages | a2p/main.go:160-174 | stages 2.9–2.10 reach stage 3.1, or stop the pipeline with the error returned |
| Service.A2PService.TrustProductCreationStages | a2p/main.go:176-205 | stages 3.1–3.3 reach stage 3.4 and return the trust-product SID, or stop the pipeline with the error returned |
| Service.A2PService.TrustProductSubmissionStages | a2p/main.go:207-229 | stages 3.4–3.6 reach stage 4.1, or stop the pipeline with the error returned |
| Service.A2PService.RegistrationStages | a2p/main.go:231-252 | stages 4.1 and 5.1 complete the pipeline and return the brand registration and the service SID, or stop it with the error returned |
| Service.A2PService.CustomerProfileStages | a2p/main.go:59-124 | stages 2.1–2.5 reach stage 2.6, or stop the pipeline |
| Service.A2PService.ProfileReviewStages | a2p/main.go:126-174 | stages 2.6–2.10 reach stage 3.1, or stop the pipeline |
| Service.A2PService.TrustProductStages | a2p/main.go:176-229 | stages 3.1–3.6 reach stage 4.1, or stop the pipeline |
| Service.A2PService.ProfileStages | a2p/main.go:59-174 | stages 2.1–2.10 reach stage 3.1, or stop the pipeline |
| Service.A2PService.AllStages | a2p/main.go:59-252 | all eighteen stages succeed, returning the brand registration and service SID, or the pipeline stops with the error returned |
| Service.A2PService.OnboardCustomer | a2p/main.go:35-280 | appends exactly `OnboardOutcome`'s calls to the log, returns its answer, and updates `params` only on success, with the new messaging-service SID |
| Service.A2PService.GetPhoneNumberSID | a2p/phone_number.go:70-85 | logs one listing call and returns `PhoneNumbers.GetPhoneNumberSID` of its answer |
| Service.A2PService.AddPhoneNumberToMessagingService | a2p/phone_number.go:56-68 | logs one creation call and returns `PhoneNumbers.AddPhoneNumberToMessagingService` of its answer |
| Service.A2PService.CompleteOnboarding | a2p/main.go:282-323 | appends exactly `CompleteOutcome`'s calls and returns its answer |
| Service.A2PService.ProcessRegistrationStatus | a2p/main.go:325-334 | appends exactly `ProcessOutcome`'s calls and returns its answer |
| Service.A2PService.Tick | a2p/main.go:346-359 | one tick appends exactly `TickOutcome`'s calls and returns its answer |
| Service.A2PService.PollLoop | a2p/main.go:342-361 | the loop appends exactly `Poll`'s calls from hour 1 and returns its answer |
| Service.A2PService.MonitorBrandRegistration | a2p/main.go:336-362 | appends exactly `MonitorOutcome`'s calls and returns its answer |

## Left out

- The provider's REST client and its calls (`Create*`, `Attach*`,
  `Evaluate*`, `Submit*`, `Fetch*`, `ListIncomingPhoneNumber`,
  `ListAvailablePhoneNumberLocal`, `CreatePhoneNumber`) are not modelled.
  The scripted `Provider` answers them instead: it is given each call and its
  position in the log. The list of available numbers reaches
  `GetAvailablePhoneNumbers` as a parameter, since the source calls a fresh
  client for it and not through the service.
- Building the client in `NewA2PServiceInstance` is left out, apart from the
  empty log. The account credentials are not modelled.
- The `fmt.Println` logging is left out: it is output only.
- Real timers are replaced by hours 1 to 48. The random choice of `select`
  at hour 48 is the parameter `tickAtDeadline`.
- Monitor.MonitorFetchBound: a tick's fetch and dispatch are taken to use no
  time. In Go a slow fetch or completion delays the next `select`, and the
  ticker drops the ticks it missed, so a timeout can come after fewer than
  47 or 48 fetches. The model's exact count does not cover that; the bound of
  at most 48 fetches still holds.
- `FullA2POnboardingParams.Validate` and the rest of `a2p/11_models.go` are
  not modelled. That file only declares record types, apart from a call into
  a validation library that is not part of this model. The model keeps only
  the fields the core reads.
- PhoneNumbers.GetPhoneNumberSID: a nil SID in the first listed record would
  crash the source at `phone_number.go:84`. The model requires that SID to be
  present (`FirstSidPresent`) rather than modelling the crash.
- Service.A2PService.CompleteOnboarding: the same assumption about the
  listing applies. The monitor operations assume it of every listing of
  the purchased phone number (`ListingsHaveSids`).
- The grouping of the eighteen stages into the `*Stages` methods of
  `Service.A2PService` exists only to keep each proof small. The source has
  one straight-line function.
- Sequencing is modelled as the log of calls. Concurrent use of one service
  is not modelled: the source does not synchronise it.
