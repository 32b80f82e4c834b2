/** The user-readable text `handleError` stores for each fetch failure. */
module ErrorMessages {
  import opened Network
  import opened Decimal

  /** The message for `error`; the platform's `localizedDescription` of a
      wrapped error is the opaque `description`. */
  function ErrorMessage(error: NetworkError): (m: string)
    ensures |m| > 0
  {
    match error
    case NetworkFailure(d) => "Network error: " + d
    case ServerError(code) => "Server error: " + DecimalString(code)
    case DecodingError(d) => "Error decoding data: " + d
    case NoData => "No data received from the server."
    case InvalidResponse => "Invalid response from the server."
    case InvalidURL => "The API URL is invalid."
  }

  /** The server message is its fixed prefix followed by the code's text. */
  lemma ServerErrorLayout(code: int)
    ensures var m := ErrorMessage(ServerError(code));
      |m| > 14 && m[..14] == "Server error: " && m[14..] == DecimalString(code)
  {
  }

  /** The server case carries the status code: the text after the fixed
      prefix is a signed decimal numeral that reads back as the code. */
  lemma ServerErrorEmbedsStatusCode(code: int)
    ensures var m := ErrorMessage(ServerError(code));
      && |m| > 14 && m[..14] == "Server error: "
      && (m[14] == '-' || IsDigit(m[14]))
      && (forall i :: 15 <= i < |m| ==> IsDigit(m[i]))
      && DecimalValue(m[14..]) == code
  {
    ServerErrorLayout(code);
    DecimalRoundTrip(code);
  }

  /** Removing a common prefix keeps two equal strings equal. */
  lemma CancelPrefix(p: string, a: string, b: string)
    requires p + a == p + b
    ensures a == b
  {
    assert a == (p + a)[|p|..];
    assert b == (p + b)[|p|..];
  }

  /** The first two characters of each message, one pair per failure kind. */
  function KindTag(error: NetworkError): string
  {
    match error
    case NetworkFailure(_) => "Ne"
    case ServerError(_) => "Se"
    case DecodingError(_) => "Er"
    case NoData => "No"
    case InvalidResponse => "In"
    case InvalidURL => "Th"
  }

  /** Each message starts with its kind's tag. */
  lemma MessageStartsWithKindTag(error: NetworkError)
    ensures |ErrorMessage(error)| >= 2 && ErrorMessage(error)[..2] == KindTag(error)
  {
  }

  /** Different failures are reported with different messages: the message
      determines the failure, status code and description included. */
  lemma ErrorMessageInjective(e1: NetworkError, e2: NetworkError)
    requires ErrorMessage(e1) == ErrorMessage(e2)
    ensures e1 == e2
  {
    MessageStartsWithKindTag(e1);
    MessageStartsWithKindTag(e2);
    match e1
    case NetworkFailure(d1) =>
      assert e2.NetworkFailure?;
      CancelPrefix("Network error: ", d1, e2.description);
    case ServerError(c1) =>
      assert e2.ServerError?;
      CancelPrefix("Server error: ", DecimalString(c1), DecimalString(e2.statusCode));
      DecimalStringInjective(c1, e2.statusCode);
    case DecodingError(d1) =>
      assert e2.DecodingError?;
      CancelPrefix("Error decoding data: ", d1, e2.description);
    case _ =>
  }
}
