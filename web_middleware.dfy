/**
 * pkg/web/middleware.go: the client-IP selection chain, request-id
 * preservation, the X-Auth-App-Token gate and the extraction of IP headers
 * into the request context.  Log lines are left out.
 */
module WebMiddleware {
  import opened Wrappers
  import opened Text
  import opened Http
  import opened Gin

  /** What these middlewares keep in the gin context and the request context. */
  datatype Value = Str(s: string) | IPHeaderMap(headers: map<string, string>) | Other

  /** c.GetString: the string stored under key, "" when absent or not a string. */
  function GetString(keys: map<string, Value>, key: string): (s: string)
    ensures s != "" ==> key in keys && keys[key] == Str(s)
  {
    if key in keys && keys[key].Str? then keys[key].s else ""
  }

  /**
   * net.SplitHostPort: "host:port" or "[host]:port" split at the last colon;
   * None for every error it reports (missing port, too many colons, stray brackets).
   */
  function SplitHostPort(s: string): (r: Option<(string, string)>)
    ensures r.Some? ==> ':' !in r.value.1 && ']' !in r.value.1 && '[' !in r.value.1
    ensures r.Some? ==> s == r.value.0 + ":" + r.value.1 || s == "[" + r.value.0 + "]:" + r.value.1
  {
    match LastIndexOf(s, ':')
    case None => None
    case Some(i) =>
      if s[0] == '[' then
        match IndexOf(s, ']')
        case None => None
        case Some(end) =>
          if end + 1 != i then None
          else if '[' in s[1..] || ']' in s[end + 1..] then None
          else
            BracketedSplit(s, end, i);
            Some((s[1..end], s[i + 1..]))
      else
        if ':' in s[..i] || '[' in s || ']' in s then None
        else
          PlainSplit(s, i);
          Some((s[..i], s[i + 1..]))
  }

  /** The pieces around the last colon of a string without brackets. */
  lemma PlainSplit(s: string, i: nat)
    requires i < |s| && s[i] == ':' && forall j :: i < j < |s| ==> s[j] != ':'
    requires '[' !in s && ']' !in s
    ensures ':' !in s[i + 1..] && '[' !in s[i + 1..] && ']' !in s[i + 1..]
    ensures s == s[..i] + ":" + s[i + 1..]
  {
    assert s == s[..i] + s[i..i + 1] + s[i + 1..];
  }

  /** The pieces of "[host]:port" when the only ']' directly precedes the last colon. */
  lemma BracketedSplit(s: string, end: nat, i: nat)
    requires 0 < end && end + 1 == i < |s| && s[0] == '[' && s[end] == ']' && s[i] == ':'
    requires forall j :: i < j < |s| ==> s[j] != ':'
    requires '[' !in s[1..] && ']' !in s[end + 1..]
    ensures ':' !in s[i + 1..] && '[' !in s[i + 1..] && ']' !in s[i + 1..]
    ensures s == "[" + s[1..end] + "]:" + s[i + 1..]
  {
    assert s == s[..1] + s[1..end] + s[end..i + 1] + s[i + 1..];
    assert s[end..i + 1] == "]:";
  }

  /** A host and port free of colons and brackets split back apart. */
  lemma SplitJoined(host: string, port: string)
    requires ':' !in host && '[' !in host && ']' !in host
    requires ':' !in port && '[' !in port && ']' !in port
    ensures SplitHostPort(host + ":" + port) == Some((host, port))
  {
    var s := host + ":" + port;
    assert s[|host|] == ':';
    var i := LastIndexOf(s, ':');
    assert i == Some(|host|) by {
      forall j | |host| < j < |s| ensures s[j] != ':' {
        assert s[j] == port[j - |host| - 1];
      }
    }
    assert s[..|host|] == host;
    assert s[|host| + 1..] == port;
    assert '[' !in s && ']' !in s by {
      forall j | 0 <= j < |s| ensures s[j] != '[' && s[j] != ']' {
        if j < |host| {
          assert s[j] == host[j];
        } else if j > |host| {
          assert s[j] == port[j - |host| - 1];
        }
      }
    }
  }

  /** The headers clientIP consults, in order of preference. */
  const IPSources: seq<string> := ["X-Original-Client-Ip", "X-Client-IP", "CF-Connecting-IP", "X-Forwarded-For", "X-Real-Ip"]

  /** The IP taken from the i-th source header: the first X-Forwarded-For element, trimmed, or the value itself. */
  function FromSource(i: nat, value: string): string {
    if i == 3 then TrimSpace(FirstField(value, ',')) else value
  }

  /** The IP taken from RemoteAddr when no header names one. */
  function FromRemoteAddr(addr: string): (ip: string)
    ensures ip <= addr || (|ip| < |addr| && ip == addr[1..|ip| + 1])
  {
    if ':' in addr then
      match SplitHostPort(addr)
      case Some((host, port)) =>
        if addr == host + ":" + port then
          assert addr[..|host|] == host;
          host
        else
          assert addr[1..|host| + 1] == host;
          host
      case None => addr
    else addr
  }

  /** clientIP: the first non-empty source header, else the host part of RemoteAddr. */
  function ClientIP(h: Header, remoteAddr: string): (ip: string)
    ensures Get(h, IPSources[0]) != "" ==> ip == Get(h, IPSources[0])
    ensures Get(h, IPSources[0]) == "" && Get(h, IPSources[1]) != "" ==> ip == Get(h, IPSources[1])
    ensures (forall j :: 0 <= j < |IPSources| ==> Get(h, IPSources[j]) == "") ==> ip == FromRemoteAddr(remoteAddr)
  {
    var xOriginalClientIP := Get(h, IPSources[0]);
    var cfIP := Get(h, IPSources[2]);
    var fwdFor := Get(h, IPSources[3]);
    var realIP := Get(h, IPSources[4]);
    var xClientIP := Get(h, IPSources[1]);
    if xOriginalClientIP != "" then xOriginalClientIP
    else if xClientIP != "" then xClientIP
    else if cfIP != "" then cfIP
    else if fwdFor != "" then TrimSpace(FirstField(fwdFor, ','))
    else if realIP != "" then realIP
    else FromRemoteAddr(remoteAddr)
  }

  /**
   * The same choice stated over the list of sources: the first source header
   * with a non-empty value decides the IP.
   */
  function FirstSource(h: Header, remoteAddr: string, from: nat): string
    requires from <= |IPSources|
    decreases |IPSources| - from
  {
    if from == |IPSources| then FromRemoteAddr(remoteAddr)
    else if Get(h, IPSources[from]) != "" then FromSource(from, Get(h, IPSources[from]))
    else FirstSource(h, remoteAddr, from + 1)
  }

  lemma ClientIPIsFirstSource(h: Header, remoteAddr: string)
    ensures ClientIP(h, remoteAddr) == FirstSource(h, remoteAddr, 0)
  {
  }

  lemma {:induction false} FirstSourceAt(h: Header, remoteAddr: string, from: nat, i: nat)
    requires from <= i < |IPSources| && Get(h, IPSources[i]) != ""
    requires forall j :: from <= j < i ==> Get(h, IPSources[j]) == ""
    ensures FirstSource(h, remoteAddr, from) == FromSource(i, Get(h, IPSources[i]))
    decreases i - from
  {
    if from < i {
      assert Get(h, IPSources[from]) == "";
      FirstSourceAt(h, remoteAddr, from + 1, i);
    }
  }

  /** The first source header with a non-empty value decides the IP. */
  lemma ClientIPFirstSource(h: Header, remoteAddr: string, i: nat)
    requires i < |IPSources| && Get(h, IPSources[i]) != ""
    requires forall j :: 0 <= j < i ==> Get(h, IPSources[j]) == ""
    ensures ClientIP(h, remoteAddr) == FromSource(i, Get(h, IPSources[i]))
  {
    ClientIPIsFirstSource(h, remoteAddr);
    FirstSourceAt(h, remoteAddr, 0, i);
  }

  /** With every source header empty, the IP comes from RemoteAddr. */
  lemma ClientIPFromRemoteAddr(h: Header, remoteAddr: string)
    requires forall j :: 0 <= j < |IPSources| ==> Get(h, IPSources[j]) == ""
    ensures ClientIP(h, remoteAddr) == FromRemoteAddr(remoteAddr)
    ensures ':' !in remoteAddr ==> ClientIP(h, remoteAddr) == remoteAddr
  {
    assert Get(h, IPSources[0]) == "" && Get(h, IPSources[1]) == "" && Get(h, IPSources[2]) == "";
    assert Get(h, IPSources[3]) == "" && Get(h, IPSources[4]) == "";
  }

  /** A host:port RemoteAddr yields its host. */
  lemma RemoteAddrHost(host: string, port: string)
    requires ':' !in host && '[' !in host && ']' !in host
    requires ':' !in port && '[' !in port && ']' !in port
    ensures FromRemoteAddr(host + ":" + port) == host
  {
    SplitJoined(host, port);
    assert (host + ":" + port)[|host|] == ':';
  }

  /** XAuthAppTokenMiddleware: the header must equal the token read from X_AUTH_APP_TOKEN. */
  method XAuthAppToken(c: Context<Value>, appToken: string)
    modifies c
    ensures c.aborted <==> old(c.aborted) || c.GetHeader("X-Auth-App-Token") != appToken
    ensures c.GetHeader("X-Auth-App-Token") != appToken ==> c.status == 401 && c.errorMessage == Some("Unauthorized") && c.continued == old(c.continued)
    ensures c.GetHeader("X-Auth-App-Token") == appToken ==> c.continued && c.status == old(c.status)
    ensures c.keys == old(c.keys) && c.responseHeader == old(c.responseHeader) && c.requestValues == old(c.requestValues)
  {
    if c.GetHeader("X-Auth-App-Token") != appToken {
      c.AbortWithJSON(401, "Unauthorized");
      return;
    }
    c.Next();
  }

  /** RequestIDMiddleware: keep the incoming X-Request-ID or use `generated` (uuid.New().String()). */
  method RequestID(c: Context<Value>, generated: string)
    modifies c
    ensures var id := if c.GetHeader("X-Request-ID") != "" then c.GetHeader("X-Request-ID") else generated;
      c.keys == old(c.keys)["request_id" := Str(id)] && c.responseHeader == Http.Set(old(c.responseHeader), "X-Request-ID", id)
    ensures GetString(c.keys, "request_id") == Get(c.responseHeader, "X-Request-ID")
    ensures c.continued && c.aborted == old(c.aborted) && c.status == old(c.status) && c.requestValues == old(c.requestValues)
  {
    var requestID := c.GetHeader("X-Request-ID");
    if requestID == "" {
      requestID := generated;
    }
    c.Set("request_id", Str(requestID));
    c.SetResponseHeader("X-Request-ID", requestID);
    c.Next();
  }

  /** RealIPMiddleware: record the selected IP and the original client IP. */
  method RealIP(c: Context<Value>)
    modifies c
    ensures var ip := ClientIP(c.requestHeader, c.remoteAddr);
      c.keys == old(c.keys)["client_ip" := Str(ip)]["original_client_ip" := Str(ip)]
      && c.responseHeader == Http.Set(Http.Set(old(c.responseHeader), "X-Client-IP", ip), "X-Original-Client-Ip", ip)
    ensures GetIPFromContext(c) == ClientIP(c.requestHeader, c.remoteAddr)
    ensures c.continued && c.aborted == old(c.aborted) && c.status == old(c.status) && c.requestValues == old(c.requestValues)
  {
    var ip := ClientIP(c.requestHeader, c.remoteAddr);
    c.Set("client_ip", Str(ip));
    c.SetResponseHeader("X-Client-IP", ip);
    var originalIP := Get(c.requestHeader, "X-Original-Client-Ip");
    if originalIP != "" {
      c.Set("original_client_ip", Str(originalIP));
      c.SetResponseHeader("X-Original-Client-Ip", originalIP);
    } else {
      c.Set("original_client_ip", Str(ip));
      c.SetResponseHeader("X-Original-Client-Ip", ip);
    }
    c.Next();
  }

  /** GetIPFromContext: "" without a context, the stored client_ip string, else clientIP. */
  function GetIPFromContext(c: Context?<Value>): (ip: string)
    reads c
    ensures c == null ==> ip == ""
    ensures c != null && "client_ip" in c.keys && c.keys["client_ip"].Str? ==> ip == c.keys["client_ip"].s
    ensures c != null && !("client_ip" in c.keys && c.keys["client_ip"].Str?) ==> ip == ClientIP(c.requestHeader, c.remoteAddr)
  {
    if c == null then ""
    else if "client_ip" in c.keys && c.keys["client_ip"].Str? then c.keys["client_ip"].s
    else ClientIP(c.requestHeader, c.remoteAddr)
  }

  /** The request headers GetIPHeadersFromContext copies, under these exact names. */
  const ExtractedHeaders: seq<string> := [
    "X-Original-Client-Ip", "X-Client-IP", "CF-Connecting-IP", "CF-IPCountry",
    "X-Forwarded-For", "X-Real-IP", "X-Forwarded-Proto", "X-Forwarded-Host"
  ]

  /** The loop of GetIPHeadersFromContext: each listed header with a non-empty value, under its listed name. */
  method CopyNonEmpty(h: Header, names: seq<string>) returns (m: map<string, string>)
    ensures forall n :: n in m <==> n in names && Get(h, n) != ""
    ensures forall n :: n in m ==> m[n] == Get(h, n)
  {
    m := map[];
    for i := 0 to |names|
      invariant forall n :: n in m <==> n in names[..i] && Get(h, n) != ""
      invariant forall n :: n in m ==> m[n] == Get(h, n)
    {
      var value := Get(h, names[i]);
      if value != "" {
        m := m[names[i] := value];
      }
      assert names[..i + 1] == names[..i] + [names[i]];
    }
    assert names[..|names|] == names;
  }

  const OriginalIPHeader := "X-Original-Client-Ip"
  const ClientIPHeader := "X-Client-IP"

  /** Indexing a Go map[string]string: the zero value "" for a missing key. */
  function Lookup(m: map<string, string>, k: string): string
  {
    if k in m then m[k] else ""
  }

  /**
   * The IP headers of a request: only listed names with non-empty values (so
   * the value Lookup returns for a name also says whether it is present); the
   * request's own value for every other name; the stored original client IP
   * over the request's header; the request's X-Client-IP over the stored
   * client IP.
   */
  predicate IPHeadersOf(headers: map<string, string>, h: Header, keys: map<string, Value>)
  {
    (forall n :: n in headers ==> n in ExtractedHeaders && headers[n] != "")
    && (forall n :: n in ExtractedHeaders && n != OriginalIPHeader && n != ClientIPHeader ==>
         Lookup(headers, n) == Get(h, n))
    && (var original := GetString(keys, "original_client_ip");
        Lookup(headers, OriginalIPHeader) == if original != "" then original else Get(h, OriginalIPHeader))
    && (var incoming := Get(h, ClientIPHeader);
        Lookup(headers, ClientIPHeader) == if incoming != "" then incoming else GetString(keys, "client_ip"))
  }

  /** GetIPHeadersFromContext: the IP headers of the request, the four parts of IPHeadersOf. */
  method GetIPHeadersFromContext(c: Context<Value>) returns (headers: map<string, string>)
    ensures forall n :: n in headers ==> n in ExtractedHeaders && headers[n] != ""
    ensures forall n :: n in ExtractedHeaders && n != OriginalIPHeader && n != ClientIPHeader ==>
      Lookup(headers, n) == Get(c.requestHeader, n)
    ensures var original := GetString(c.keys, "original_client_ip");
      Lookup(headers, OriginalIPHeader) == if original != "" then original else Get(c.requestHeader, OriginalIPHeader)
    ensures var incoming := Get(c.requestHeader, ClientIPHeader);
      Lookup(headers, ClientIPHeader) == if incoming != "" then incoming else GetString(c.keys, "client_ip")
  {
    headers := CopyNonEmpty(c.requestHeader, ExtractedHeaders);
    assert OriginalIPHeader in ExtractedHeaders && ClientIPHeader in ExtractedHeaders by {
      assert ExtractedHeaders[0] == OriginalIPHeader && ExtractedHeaders[1] == ClientIPHeader;
    }
    var originalIP := GetString(c.keys, "original_client_ip");
    if originalIP != "" {
      headers := headers[OriginalIPHeader := originalIP];
    }
    var clientIP := GetString(c.keys, "client_ip");
    if clientIP != "" && Lookup(headers, ClientIPHeader) == "" {
      headers := headers[ClientIPHeader := clientIP];
    }
  }

  /** The context key the IP headers are stored under; it is defined outside the modelled files. */
  const IPHeadersContextKey := "IPHeadersContextKey"

  /** IPContextMiddleware: carry the extracted IP headers in the request context. */
  method IPContextMiddleware(c: Context<Value>)
    modifies c
    ensures IPHeadersContextKey in c.requestValues && c.requestValues[IPHeadersContextKey].IPHeaderMap?
    ensures c.requestValues == old(c.requestValues)[IPHeadersContextKey := c.requestValues[IPHeadersContextKey]]
    ensures IPHeadersOf(c.requestValues[IPHeadersContextKey].headers, c.requestHeader, old(c.keys))
    ensures c.keys == old(c.keys) && c.responseHeader == old(c.responseHeader)
    ensures c.continued && c.aborted == old(c.aborted) && c.status == old(c.status) && c.errorMessage == old(c.errorMessage)
  {
    var headers := GetIPHeadersFromContext(c);
    assert IPHeadersOf(headers, c.requestHeader, c.keys);
    c.WithRequestValue(IPHeadersContextKey, IPHeaderMap(headers));
    c.Next();
  }

  /**
   * RealIPMiddleware followed by IPContextMiddleware: with the detected IP
   * stored under both keys, the carried headers name it as the original client
   * IP, and as the client IP unless the request brought its own X-Client-IP.
   */
  lemma RealIPThenPropagated(h: Header, ip: string, keys: map<string, Value>, headers: map<string, string>)
    requires ip != ""
    requires IPHeadersOf(headers, h, keys["client_ip" := Str(ip)]["original_client_ip" := Str(ip)])
    ensures Lookup(headers, OriginalIPHeader) == ip
    ensures Get(h, ClientIPHeader) == "" ==> Lookup(headers, ClientIPHeader) == ip
    ensures Get(h, ClientIPHeader) != "" ==> Lookup(headers, ClientIPHeader) == Get(h, ClientIPHeader)
  {
    var stored := keys["client_ip" := Str(ip)]["original_client_ip" := Str(ip)];
    assert GetString(stored, "original_client_ip") == ip && GetString(stored, "client_ip") == ip;
  }
}
