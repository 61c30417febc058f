/**
 * The parts of Go's net/http and net/textproto the client and the Gin middlewares
 * lean on: canonical header names, header maps, response bodies and the request
 * and response records.  Strings stand for byte strings, one character per byte.
 */
module Http {
  import opened Wrappers

  /** A byte RFC 7230 allows in a header field name (a tchar). */
  predicate IsTokenChar(c: char) {
    ('a' <= c <= 'z') || ('A' <= c <= 'Z') || ('0' <= c <= '9')
    || c == '!' || c == '#' || c == '$' || c == '%' || c == '&' || c == '\'' || c == '*'
    || c == '+' || c == '-' || c == '.' || c == '^' || c == '_' || c == '`' || c == '|' || c == '~'
  }

  predicate IsToken(s: string) {
    forall i :: 0 <= i < |s| ==> IsTokenChar(s[i])
  }

  /** The case rule: a letter after '-' or at the start is upper case, every other letter lower case. */
  function CaseFold(c: char, upper: bool): (d: char)
    ensures IsTokenChar(c) ==> IsTokenChar(d)
    ensures (d == '-') <==> (c == '-')
  {
    if upper && 'a' <= c <= 'z' then (c as int - 32) as char
    else if !upper && 'A' <= c <= 'Z' then (c as int + 32) as char
    else c
  }

  function Canonical(s: string, upper: bool): (r: string)
    ensures |r| == |s|
    ensures IsToken(s) ==> IsToken(r)
  {
    if s == [] then [] else [CaseFold(s[0], upper)] + Canonical(s[1..], s[0] == '-')
  }

  /** textproto.CanonicalMIMEHeaderKey: a name with a byte outside the token set is left as it is. */
  function CanonicalKey(s: string): (r: string)
    ensures |r| == |s|
  {
    if IsToken(s) then Canonical(s, true) else s
  }

  lemma {:induction false} CanonicalTwice(s: string, upper: bool)
    requires IsToken(s)
    ensures Canonical(Canonical(s, upper), upper) == Canonical(s, upper)
  {
    if s != [] {
      CanonicalTwice(s[1..], s[0] == '-');
      assert Canonical(s, upper)[1..] == Canonical(s[1..], s[0] == '-');
    }
  }

  /** Canonicalising a canonical name changes nothing. */
  lemma CanonicalKeyIdempotent(s: string)
    ensures CanonicalKey(CanonicalKey(s)) == CanonicalKey(s)
  {
    if IsToken(s) {
      CanonicalTwice(s, true);
    }
  }

  /** http.Header: canonical name to its values. */
  type Header = map<string, seq<string>>

  /** Header.Get: the first value under the canonical name, "" when there is none. */
  function Get(h: Header, name: string): (v: string)
    ensures v != "" ==> CanonicalKey(name) in h
  {
    var k := CanonicalKey(name);
    if k in h && |h[k]| > 0 then h[k][0] else ""
  }

  /** Header.Set: the canonical name now holds exactly this value. */
  function Set(h: Header, name: string, v: string): (r: Header)
    ensures r.Keys == h.Keys + {CanonicalKey(name)}
  {
    h[CanonicalKey(name) := [v]]
  }

  /** Header.Del. */
  function Del(h: Header, name: string): (r: Header)
    ensures r.Keys == h.Keys - {CanonicalKey(name)}
  {
    h - {CanonicalKey(name)}
  }

  /** Setting a value and reading it back, under any spelling of the same name. */
  lemma GetAfterSet(h: Header, name: string, other: string, v: string)
    ensures CanonicalKey(other) == CanonicalKey(name) ==> Get(Set(h, name, v), other) == v
    ensures CanonicalKey(other) != CanonicalKey(name) ==> Get(Set(h, name, v), other) == Get(h, other)
  {
  }

  lemma GetAfterDel(h: Header, name: string, other: string)
    ensures CanonicalKey(other) == CanonicalKey(name) ==> Get(Del(h, name), other) == ""
    ensures CanonicalKey(other) != CanonicalKey(name) ==> Get(Del(h, name), other) == Get(h, other)
  {
  }

  /**
   * A response body: a reader yielding `data` and then failing with `failure`
   * (None: a clean end of stream), or http.MaxBytesReader over another body.
   */
  datatype Body = Reader(data: string, failure: Option<string>) | Capped(inner: Body, limit: int)

  const ErrBodyTooLarge := "http: request body too large"

  /** io.ReadAll: everything read before the first error, and that error. */
  function ReadAll(b: Body): (r: (string, Option<string>))
    ensures b.Capped? && b.limit >= 0 ==> |r.0| <= b.limit
    ensures b.Reader? ==> r == (b.data, b.failure)
  {
    match b
      case Reader(d, f) => (d, f)
      case Capped(inner, n) =>
        var (d, f) := ReadAll(inner);
        if n < 0 then ("", Some(ErrBodyTooLarge))
        else if |d| > n then (d[..n], Some(ErrBodyTooLarge))
        else (d, f)
  }

  /** A cap lets through what fits unchanged and cuts off the rest with an error. */
  lemma CappedRead(b: Body, n: int)
    requires n >= 0
    ensures ReadAll(Capped(b, n)).0 <= ReadAll(b).0
    ensures |ReadAll(b).0| <= n ==> ReadAll(Capped(b, n)) == ReadAll(b)
    ensures |ReadAll(b).0| > n ==> ReadAll(Capped(b, n)) == (ReadAll(b).0[..n], Some(ErrBodyTooLarge))
  {
  }

  /** The part of req.URL the client uses: its path and its String() form. */
  datatype URL = URL(path: string, text: string)

  /** A value stored in a context.Context under a key: a string or anything else. */
  datatype CtxValue = CtxString(s: string) | CtxOther

  datatype Response = Response(status: string, statusCode: int, header: Header, body: Option<Body>, contentLength: int)

  /** What a RoundTripper returns: a response, or an error and no response. */
  datatype Outcome = Resp(response: Response) | Fail(error: string)
}
