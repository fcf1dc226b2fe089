/** Go's `error` values as the A2P service builds them: the package-level
    sentinels, errors coming back from the provider, and the two ways
    `fmt.Errorf` makes a new error from an old one (`%w` keeps the old error
    in the chain that `errors.Is` walks, `%v` keeps only its text). */
module Errors {

  datatype Option<T> = None | Some(value: T)

  /** A Go `(value, error)` pair in which exactly one side is meaningful. */
  datatype Result<T> = Ok(value: T) | Err(error: Error)

  /** The sentinel errors declared at package level in a2p/main.go. */
  datatype SentinelKind =
    | CreateSubaccount
    | PurchasePhoneNumber
    | GetPhoneNumberSid
    | GetTwilioUsername
    | GetTwilioPassword
    | BrandRegistrationCheckTimedOut

  datatype Error =
    | Sentinel(kind: SentinelKind)
      /** An error returned by the provider or its client library, opaque here. */
    | Remote(text: string)
      /** `fmt.Errorf(prefix + "%w", cause)`: the cause stays in the chain. */
    | Wrapped(prefix: string, cause: Error)
      /** `fmt.Errorf` without `%w`: a new error that carries only a message. */
    | Formatted(text: string)

  function SentinelText(k: SentinelKind): string
  {
    match k
    case CreateSubaccount => "create a subaccount first before proceeding"
    case PurchasePhoneNumber => "purchase a Twilio phone number first before proceeding"
    case GetPhoneNumberSid => "get the Twilio phone number SID first before proceeding"
    case GetTwilioUsername => "get the Twilio root username first before proceeding"
    case GetTwilioPassword => "get the Twilio root password first before proceeding"
    case BrandRegistrationCheckTimedOut => "checking brand registration timed out after 48 hours"
  }

  /** The message `err.Error()` returns. */
  function Text(e: Error): string
  {
    match e
    case Sentinel(k) => SentinelText(k)
    case Remote(t) => t
    case Wrapped(prefix, cause) => prefix + Text(cause)
    case Formatted(t) => t
  }

  /** `errors.Is(e, sentinel)`: the sentinel is `e` or sits in its `%w` chain.
      Only sentinels are compared, since Go compares the other errors by pointer. */
  predicate IsSentinel(e: Error, k: SentinelKind)
  {
    match e
    case Sentinel(k') => k' == k
    case Wrapped(_, cause) => IsSentinel(cause, k)
    case _ => false
  }

  /** `fmt.Errorf(prefix + "%v", cause)`: only the text of the cause survives. */
  function Formatf(prefix: string, cause: Error): (r: Error)
    ensures Text(r) == prefix + Text(cause)
    ensures forall k :: !IsSentinel(r, k)
  {
    Formatted(prefix + Text(cause))
  }
}
