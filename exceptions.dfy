/** The error taxonomy of the Outline client: the base exception and its
    seven domain-specific subclasses, each carrying a fixed message. */
module Exceptions {

  /** One constructor per exception class; `Base` is the base class raised as is. */
  datatype OutlineException =
    | Base
    | InvalidPort
    | PortAlreadyInUse
    | InvalidHostname
    | InvalidName
    | AccessKeyNotFound
    | InvalidDataLimit
    | ErrorHostname

  const InvalidPortText := "Invalid port number, must be between 1 and 65535"
  const PortAlreadyInUseText := "Port already in use"
  const InvalidHostnameText := "An invalid hostname or IP address was provided"
  const InvalidNameText := "Invalid name"
  const AccessKeyNotFoundText := "Access key not found"
  const InvalidDataLimitText := "Invalid data limit"
  const ErrorHostnameText :=
    "An internal error occurred.\nThis could be thrown if there were network\nerrors while validating the hostname"

  /** The string form of an exception: the `match` text of its class.
      Only the base class has an empty text. */
  function Message(e: OutlineException): (s: string)
    ensures s == "" <==> e == Base
    ensures e == InvalidPort ==> s == InvalidPortText
    ensures e == PortAlreadyInUse ==> s == PortAlreadyInUseText
    ensures e == InvalidHostname ==> s == InvalidHostnameText
    ensures e == InvalidName ==> s == InvalidNameText
    ensures e == AccessKeyNotFound ==> s == AccessKeyNotFoundText
    ensures e == InvalidDataLimit ==> s == InvalidDataLimitText
    ensures e == ErrorHostname ==> s == ErrorHostnameText
  {
    match e
    case Base => ""
    case InvalidPort => InvalidPortText
    case PortAlreadyInUse => PortAlreadyInUseText
    case InvalidHostname => InvalidHostnameText
    case InvalidName => InvalidNameText
    case AccessKeyNotFound => AccessKeyNotFoundText
    case InvalidDataLimit => InvalidDataLimitText
    case ErrorHostname => ErrorHostnameText
  }

  /** Every class has its own text (the eight texts even differ in length),
      so the message identifies the exception. */
  lemma MessageInjective(a: OutlineException, b: OutlineException)
    ensures Message(a) == Message(b) <==> a == b
  {
  }
}
