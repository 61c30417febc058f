/** pkg/client/errors.go: the error record Client.Do returns and its message. */
module ClientErrors {
  import opened Wrappers
  import opened Text
  import opened Http

  /**
   * Error: the final status (0 without a response), the buffered body, the
   * transport error, the retry count, the request's method and URL, and the
   * last response.
   */
  datatype Error = Error(
    statusCode: int,
    body: string,
    err: Option<string>,
    retries: int,
    httpMethod: string,
    url: string,
    lastResponse: Option<Response>)

  /** How %v prints an error value: its message, or <nil>. */
  function ErrText(err: Option<string>): string {
    match err
      case None => "<nil>"
      case Some(m) => m
  }

  /** "[HTTP] <Method> <URL>: status=<StatusCode>, err=<Err>". */
  function Prefix(e: Error): string {
    "[HTTP] " + e.httpMethod + " " + e.url + ": status=" + IntToString(e.statusCode) + ", err=" + ErrText(e.err)
  }

  /** Error(): the prefix, then ", body=<Body>" when there is a body. */
  function Message(e: Error): (s: string)
    ensures Prefix(e) <= s
    ensures e.body == "" <==> s == Prefix(e)
    ensures e.body != "" <==> s == Prefix(e) + ", body=" + e.body
  {
    var msg := Prefix(e);
    if |e.body| > 0 then msg + ", body=" + e.body else msg
  }

  /** The body is the part of the message after the prefix and ", body=". */
  lemma MessageBody(e: Error)
    requires e.body != ""
    ensures Message(e)[|Prefix(e)| + |", body="|..] == e.body
  {
  }

  /** Two errors with the same prefix and different bodies have different messages. */
  lemma MessageSeparatesBodies(a: Error, b: Error)
    requires Prefix(a) == Prefix(b) && a.body != b.body
    ensures Message(a) != Message(b)
  {
    if a.body != "" && b.body != "" {
      MessageBody(a);
      MessageBody(b);
    } else if a.body == "" {
      assert |Message(b)| > |Prefix(b)|;
    } else {
      assert |Message(a)| > |Prefix(a)|;
    }
  }

  /** The status in the message is the record's status, in decimal. */
  lemma MessageStatus(e: Error)
    ensures var p := "[HTTP] " + e.httpMethod + " " + e.url + ": status=";
      Message(e)[|p|..|p| + |IntToString(e.statusCode)|] == IntToString(e.statusCode)
  {
    var p := "[HTTP] " + e.httpMethod + " " + e.url + ": status=";
    assert Prefix(e) == p + IntToString(e.statusCode) + ", err=" + ErrText(e.err);
    assert Message(e)[..|Prefix(e)|] == Prefix(e);
  }
}
