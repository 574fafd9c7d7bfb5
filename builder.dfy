/** `ApiClientBuilder`: a staging record of optional settings, the `Basic` authorization
    header it can stage, and `build`, which finalises the default header map and yields an
    `ApiClient`. */
module ClientBuilder {
  import opened Wrappers
  import opened Scalars
  import opened Text
  import Base64
  import opened Pipeline

  /** The crate's name and version as Cargo supplies them at compile time. */
  datatype Package = Package(name: string, version: string)

  /** The two `HeaderValue` validity checks, kept opaque: `fromStr` is `str::parse`,
      `fromBytes` is `TryFrom<Vec<u8>>`. A value that passes is the text's, or the bytes', own. */
  datatype HeaderCheck = HeaderCheck(fromStr: string -> bool, fromBytes: seq<byte> -> bool)

  const BASIC_PREFIX: string := "Basic "

  /** The `User-Agent` used when none is staged: `<name>/<version>`. */
  function DefaultUserAgent(pkg: Package): (v: HeaderValue)
    ensures v == Utf8(pkg.name) + Utf8("/") + Utf8(pkg.version)
  {
    Utf8Append(pkg.name, "/");
    Utf8Append(pkg.name + "/", pkg.version);
    Utf8(pkg.name + "/" + pkg.version)
  }

  /** The `User-Agent` value `build` inserts: the staged text, else the default. */
  function UserAgentValue(userAgent: Option<string>, pkg: Package): (v: HeaderValue)
    ensures userAgent.Some? ==> v == Utf8(userAgent.value)
    ensures userAgent.None? ==> v == DefaultUserAgent(pkg)
  {
    if userAgent.Some? then Utf8(userAgent.value) else DefaultUserAgent(pkg)
  }

  /** The staged headers after `build`'s two inserts: `User-Agent` is the staged text or
      the default, `Accept` is always `application/json`, and every other staged header is
      kept as it is. */
  function FinalHeaders(staged: HeaderMap, userAgent: Option<string>, pkg: Package): (h: HeaderMap)
    ensures h.Keys == staged.Keys + {USER_AGENT, ACCEPT}
    ensures h[ACCEPT] == AsciiBytes(APPLICATION_JSON)
    ensures h[USER_AGENT] == UserAgentValue(userAgent, pkg)
  {
    assert USER_AGENT[0] != ACCEPT[0];
    staged[USER_AGENT := UserAgentValue(userAgent, pkg)][ACCEPT := AsciiBytes(APPLICATION_JSON)]
  }

  /** Every staged header other than `User-Agent` and `Accept` survives `build` unchanged. */
  lemma {:induction false} FinalHeadersKeepOthers(staged: HeaderMap, userAgent: Option<string>, pkg: Package, k: HeaderName)
    requires k in staged && k != USER_AGENT && k != ACCEPT
    ensures FinalHeaders(staged, userAgent, pkg)[k] == staged[k]
  {
  }

  /** The credentials `basic_auth` encodes, as RFC 7617 section 2 defines them: the user-id,
      a colon, and the password (nothing when there is none). */
  function BasicCredentials(username: string, password: Option<string>): (c: string)
    ensures |c| == |username| + 1 + |password.GetOr("")|
    ensures c[..|username|] == username && c[|username|] == ':'
    ensures c[|username| + 1..] == password.GetOr("")
  {
    username + ":" + password.GetOr("")
  }

  /** A `Basic` authorization value: `Basic ` and the padded standard Base64 of the
      credential bytes, from which those bytes are recovered. */
  function BasicHeader(plain: seq<byte>): (v: HeaderValue)
    ensures |v| == 6 + |Base64.Encode(plain)|
    ensures v[..6] == AsciiBytes(BASIC_PREFIX)
    ensures Base64.Decode(v[6..]) == Some(plain)
  {
    Base64.DecodeEncode(plain);
    var prefix := AsciiBytes(BASIC_PREFIX);
    var e := Base64.Encode(plain);
    var v := prefix + e;
    assert v[..6] == prefix && v[6..] == e;
    v
  }

  /** The value is `Basic ` and four characters per started group of three credential bytes. */
  lemma {:induction false} BasicHeaderLength(plain: seq<byte>)
    ensures |BasicHeader(plain)| == 6 + 4 * ((|plain| + 2) / 3)
  {
    Base64.EncodeLength(plain);
  }

  /** The value `basic_auth` stages: the `Basic` header of the credentials' UTF-8 bytes. */
  function BasicAuthValue(username: string, password: Option<string>): (v: HeaderValue)
    ensures |v| >= 6
    ensures v[..6] == AsciiBytes(BASIC_PREFIX)
    ensures Base64.Decode(v[6..]) == Some(Utf8(BasicCredentials(username, password)))
  {
    BasicHeader(Utf8(BasicCredentials(username, password)))
  }

  /** What `basic_auth` encodes as written: its arguments are `impl AsRef<u8>`, so each is a
      single byte, and `{}` renders that byte as a decimal number. */
  function BasicCredentialsAsWritten(username: byte, password: Option<byte>): (c: string)
    ensures c == NatToDecimal(username) + ":" + (if password.Some? then NatToDecimal(password.value) else "")
    ensures AllDigits(c[..|NatToDecimal(username)|]) && c[|NatToDecimal(username)|] == ':'
  {
    NatToDecimal(username) + ":" + (if password.Some? then NatToDecimal(password.value) else "")
  }

  /** The as-written header for user byte `a` (97) and no password carries the credentials
      "97:", not "a:". */
  lemma {:induction false} BasicAuthAsWrittenRendersDecimal()
    ensures BasicCredentialsAsWritten(97, None) == "97:"
    ensures BasicCredentials("a", None) == "a:"
    ensures BasicHeader(Utf8(BasicCredentialsAsWritten(97, None))) != BasicAuthValue("a", None)
  {
    assert NatToDecimal(9) == "9";
    assert NatToDecimal(97) == "97";
    assert BasicCredentialsAsWritten(97, None) == "97:";
    assert BasicCredentials("a", None) == "a:";
    Utf8Ascii("97:");
    Utf8Ascii("a:");
    var w := BasicHeader(Utf8("97:"));
    var m := BasicAuthValue("a", None);
    assert Base64.Decode(w[6..]) != Base64.Decode(m[6..]);
  }

  /** A user-id without a colon is recovered by splitting the credentials at the first
      colon, as RFC 7617 section 2 requires. */
  lemma {:induction false} BasicCredentialsSplit(username: string, password: Option<string>)
    requires Excludes(username, ':')
    ensures Split(BasicCredentials(username, password), ':')[0] == username
  {
    SplitFree(username, ':', password.GetOr(""));
  }

  /** A `Basic` value is visible ASCII: `Basic ` and Base64 letters and padding only. */
  lemma {:induction false} BasicHeaderVisible(plain: seq<byte>)
    ensures forall i :: 0 <= i < |BasicHeader(plain)| ==> 0x20 <= BasicHeader(plain)[i] < 0x7F
  {
    var v := BasicHeader(plain);
    Base64.EncodeAlphabet(plain);
    forall i | 0 <= i < |v|
      ensures 0x20 <= v[i] < 0x7F
    {
      if i >= 6 {
        assert v[i] == Base64.Encode(plain)[i - 6];
        assert Base64.IsLetter(v[i]) || v[i] == Base64.PAD;
      }
    }
  }

  class ApiClientBuilder {
    var basePath: Option<Url>
    var userAgent: Option<string>
    var client: Option<Transport>
    var headers: Option<HeaderMap>

    /** `Default` (and `ApiClient::builder`): nothing staged. */
    constructor ()
      ensures basePath.None? && userAgent.None? && client.None? && headers.None?
    {
      basePath := None;
      userAgent := None;
      client := None;
      headers := None;
    }

    /** `headers`: replaces the staged header map. */
    method Headers(h: HeaderMap)
      modifies this
      ensures headers == Some(h)
      ensures basePath == old(basePath) && userAgent == old(userAgent) && client == old(client)
    {
      headers := Some(h);
    }

    /** `headers_mut`: the staged map, created empty only when there is none. The source
        hands out a mutable borrow of it; this returns its value, so a caller that changes
        the map stores it back with `Headers`. */
    method HeadersMut() returns (m: HeaderMap)
      modifies this
      ensures old(headers).Some? ==> headers == old(headers)
      ensures old(headers).None? ==> headers == Some(map[])
      ensures headers == Some(m)
      ensures basePath == old(basePath) && userAgent == old(userAgent) && client == old(client)
    {
      if headers.None? {
        headers := Some(map[]);
      }
      m := headers.value;
    }

    /** `basic_auth`, corrected to take string credentials: streams them into a Base64
        encoder behind `Basic `, then inserts the value as `Authorization`, replacing an
        earlier one. The map is obtained before the value is checked. The source consumes
        the builder and drops it when the check fails, so the failure state stated here has
        no counterpart there; only the error does. */
    method BasicAuth(username: string, password: Option<string>, check: HeaderCheck) returns (r: Result<(), Error>)
      modifies this
      ensures r.Success? <==> check.fromBytes(BasicAuthValue(username, password))
      ensures r.Failure? ==> r.error == Underlying(InvalidHeaderValue)
      ensures r.Success? ==> headers == Some(old(headers).GetOr(map[])[AUTHORIZATION := BasicAuthValue(username, password)])
      ensures r.Failure? ==> headers == Some(old(headers).GetOr(map[]))
      ensures basePath == old(basePath) && userAgent == old(userAgent) && client == old(client)
    {
      var headerValue := AsciiBytes(BASIC_PREFIX);
      var plain := Utf8(username + ":");
      if password.Some? {
        Utf8Append(username + ":", password.value);
        plain := plain + Utf8(password.value);
      } else {
        assert username + ":" == BasicCredentials(username, password);
      }
      headerValue := headerValue + Base64.Encode(plain);
      var m := HeadersMut();
      if !check.fromBytes(headerValue) {
        return Failure(Underlying(InvalidHeaderValue));
      }
      headers := Some(m[AUTHORIZATION := headerValue]);
      r := Success(());
    }

    /** `user_agent`: stages the `User-Agent` text. */
    method UserAgent(ua: string)
      modifies this
      ensures userAgent == Some(ua)
      ensures basePath == old(basePath) && client == old(client) && headers == old(headers)
    {
      userAgent := Some(ua);
    }

    /** `client`: stages a transport to use as it is. */
    method Client(c: Transport)
      modifies this
      ensures client == Some(c)
      ensures basePath == old(basePath) && userAgent == old(userAgent) && headers == old(headers)
    {
      client := Some(c);
    }

    /** `build`: parses the base address, finalises the headers and, unless a transport was
        injected, builds one with those headers as its defaults. An injected transport is
        used as it is, but a staged `User-Agent` that does not parse still fails the build. */
    method Build(base: string, pkg: Package, intoUrl: string -> Result<Url, string>, check: HeaderCheck,
                 clientBuilds: HeaderMap -> bool)
      returns (r: Result<ApiClient, Error>)
      ensures intoUrl(base).Failure? ==> r == Failure(Underlying(UrlParse(intoUrl(base).error)))
      ensures intoUrl(base).Success? && userAgent.Some? && !check.fromStr(userAgent.value) ==>
        r == Failure(Underlying(InvalidHeaderValue))
      ensures r.Success? <==>
        intoUrl(base).Success? && (userAgent.Some? ==> check.fromStr(userAgent.value))
        && (client.None? ==> clientBuilds(FinalHeaders(headers.GetOr(map[]), userAgent, pkg)))
      ensures r.Success? ==> r.value.basePath == intoUrl(base).value
      ensures r.Success? && client.Some? ==> r.value.client == client.value
      ensures r.Success? && client.None? ==> r.value.client == Transport(FinalHeaders(headers.GetOr(map[]), userAgent, pkg))
    {
      var parsed := intoUrl(base);
      if parsed.Failure? {
        return Failure(Underlying(UrlParse(parsed.error)));
      }
      var hs := headers.GetOr(map[]);
      if userAgent.Some? {
        if !check.fromStr(userAgent.value) {
          return Failure(Underlying(InvalidHeaderValue));
        }
        hs := hs[USER_AGENT := Utf8(userAgent.value)];
      } else {
        hs := hs[USER_AGENT := DefaultUserAgent(pkg)];
      }
      assert hs[USER_AGENT := UserAgentValue(userAgent, pkg)] == hs;
      hs := hs[ACCEPT := AsciiBytes(APPLICATION_JSON)];
      var transport: Transport;
      if client.Some? {
        transport := client.value;
      } else {
        if !clientBuilds(hs) {
          return Failure(Underlying(ClientBuild("failed to build the HTTP client")));
        }
        transport := Transport(hs);
      }
      r := Success(ApiClient(transport, parsed.value));
    }
  }
}
