/** The URLs the clients talk to: the eAPI endpoint `http://<addr>/command-api`
    and, for the jsonrpclib client, the same URL with the credentials embedded
    in its userinfo. A URL is read back the way RFC 3986 section 3.2 lays out
    an authority: it ends at the first '/', '?' or '#'; the userinfo is what
    precedes the last '@' in it and is percent-decoded (section 2.1). */
module Url {
  import opened Py

  const SCHEME := "http://"
  const COMMAND_API := "/command-api"

  /** the characters that end an authority */
  const AUTHORITY_END: set<char> := {'/', '?', '#'}
  /** the characters a host written into a URL must not contain */
  const HOST_DELIMITERS: set<char> := {'/', '?', '#', '@'}
  /** the characters that delimit parts of an authority */
  const DELIMITERS: set<char> := {'/', '?', '#', '@', ':'}

  predicate Avoids(s: string, d: set<char>) {
    forall i :: 0 <= i < |s| ==> s[i] !in d
  }

  lemma AvoidsJoin(a: string, sep: char, b: string, d: set<char>)
    requires Avoids(a, d) && sep !in d && Avoids(b, d)
    ensures Avoids(a + [sep] + b, d)
  {
    var s := a + [sep] + b;
    forall i | 0 <= i < |s| ensures s[i] !in d {
      if i < |a| {
        assert s[i] == a[i];
      } else if i > |a| {
        assert s[i] == b[i - |a| - 1];
      }
    }
  }

  lemma AvoidsWithin(s: string, d: set<char>, e: set<char>)
    requires Avoids(s, d) && e <= d
    ensures Avoids(s, e)
  {
  }

  /** A host[:port] that can be written into a URL as it is. */
  predicate PlainHost(addr: string) {
    Avoids(addr, HOST_DELIMITERS)
  }

  /** The index of the first character of `s` in `d`, or |s| when there is none. */
  function FindFirst(s: string, d: set<char>): (n: nat)
    ensures n <= |s|
    ensures forall i :: 0 <= i < n ==> s[i] !in d
    ensures n < |s| ==> s[n] in d
  {
    if s == [] then 0 else if s[0] in d then 0 else 1 + FindFirst(s[1..], d)
  }

  /** The index of the last `c` in `s`, if any. */
  function FindLast(s: string, c: char): (r: Option<nat>)
    ensures r.None? ==> forall i :: 0 <= i < |s| ==> s[i] != c
    ensures r.Some? ==> r.value < |s| && s[r.value] == c
    ensures r.Some? ==> forall i :: r.value < i < |s| ==> s[i] != c
  {
    if s == [] then None
    else if s[|s| - 1] == c then Some(|s| - 1)
    else FindLast(s[..|s| - 1], c)
  }

  lemma FindFirstAt(s: string, d: set<char>, k: nat)
    requires k <= |s|
    requires forall i :: 0 <= i < k ==> s[i] !in d
    requires k < |s| ==> s[k] in d
    ensures FindFirst(s, d) == k
  {
  }

  lemma FindLastAt(s: string, c: char, k: nat)
    requires k < |s| && s[k] == c
    requires forall i :: k < i < |s| ==> s[i] != c
    ensures FindLast(s, c) == Some(k)
  {
  }

  /** RFC 3986 section 2.3: the characters that never need escaping. */
  predicate Unreserved(c: char) {
    'A' <= c <= 'Z' || 'a' <= c <= 'z' || '0' <= c <= '9' || c == '-' || c == '.' || c == '_' || c == '~'
  }

  predicate IsHex(c: char) {
    '0' <= c <= '9' || 'A' <= c <= 'F' || 'a' <= c <= 'f'
  }

  function HexValue(c: char): (n: nat)
    requires IsHex(c)
    ensures n < 16
  {
    if '0' <= c <= '9' then c as int - '0' as int
    else if 'A' <= c <= 'F' then c as int - 'A' as int + 10
    else c as int - 'a' as int + 10
  }

  function HexDigit(n: nat): (c: char)
    requires n < 16
    ensures IsHex(c) && HexValue(c) == n
    ensures c !in DELIMITERS && c != '%'
  {
    if n < 10 then ('0' as int + n) as char else ('A' as int + n - 10) as char
  }

  /** One character as it is written into a userinfo: an unreserved character
      as it is, any other character of one octet as `%XY` (RFC 3986 section 2.1).
      Characters beyond one octet are kept: they are no delimiters. */
  function Escape(c: char): (r: string)
    ensures Avoids(r, DELIMITERS)
    ensures |r| > 0 && (r[0] == '%' <==> !Unreserved(c) && c as int < 256)
  {
    if Unreserved(c) || c as int >= 256 then [c]
    else ['%', HexDigit(c as int / 16), HexDigit(c as int % 16)]
  }

  /** Percent-encoding of a string: no delimiter survives it. */
  function PercentEncode(s: string): (r: string)
    ensures Avoids(r, DELIMITERS)
  {
    if s == [] then [] else Escape(s[0]) + PercentEncode(s[1..])
  }

  /** Percent-decoding, as Python's urllib.unquote does it: `%XY` with two hex
      digits becomes that octet, every other character is kept. */
  function PercentDecode(s: string): string
    decreases |s|
  {
    if |s| >= 3 && s[0] == '%' && IsHex(s[1]) && IsHex(s[2]) then
      [(HexValue(s[1]) * 16 + HexValue(s[2])) as char] + PercentDecode(s[3..])
    else if s == [] then []
    else [s[0]] + PercentDecode(s[1..])
  }

  lemma DecodeEscaped(c: char, rest: string)
    ensures PercentDecode(Escape(c) + rest) == [c] + PercentDecode(rest)
  {
    var t := Escape(c) + rest;
    if Unreserved(c) || c as int >= 256 {
      assert t[0] == c && t[1..] == rest;
    } else {
      var hi, lo := c as int / 16, c as int % 16;
      assert t[0] == '%' && t[1] == HexDigit(hi) && t[2] == HexDigit(lo) && t[3..] == rest;
      assert hi * 16 + lo == c as int;
    }
  }

  lemma {:induction false} DecodeEncoded(s: string, rest: string)
    ensures PercentDecode(PercentEncode(s) + rest) == s + PercentDecode(rest)
  {
    if s != [] {
      calc {
        PercentDecode(PercentEncode(s) + rest);
        { assert PercentEncode(s) + rest == Escape(s[0]) + (PercentEncode(s[1..]) + rest); }
        PercentDecode(Escape(s[0]) + (PercentEncode(s[1..]) + rest));
        { DecodeEscaped(s[0], PercentEncode(s[1..]) + rest); }
        [s[0]] + PercentDecode(PercentEncode(s[1..]) + rest);
        { DecodeEncoded(s[1..], rest); }
        [s[0]] + (s[1..] + PercentDecode(rest));
        { assert [s[0]] + s[1..] == s; }
        s + PercentDecode(rest);
      }
    } else {
      assert PercentEncode(s) + rest == rest;
      assert s + PercentDecode(rest) == PercentDecode(rest);
    }
  }

  /** Decoding undoes encoding, for every string. */
  lemma DecodeEncode(s: string)
    ensures PercentDecode(PercentEncode(s)) == s
  {
    DecodeEncoded(s, []);
    assert PercentEncode(s) + [] == PercentEncode(s);
  }

  lemma {:induction false} EncodeUnreserved(s: string)
    requires forall i :: 0 <= i < |s| ==> Unreserved(s[i])
    ensures PercentEncode(s) == s
  {
    if s != [] {
      EncodeUnreserved(s[1..]);
    }
  }

  lemma {:induction false} DecodeWithoutPercent(s: string)
    requires Avoids(s, {'%'})
    ensures PercentDecode(s) == s
  {
    if s != [] {
      DecodeWithoutPercent(s[1..]);
    }
  }

  /** The parts of an http URL the clients rely on. */
  datatype HttpUrl = HttpUrl(userinfo: Option<string>, host: string, path: string)

  /** The reading of an http URL described at the head of this module. */
  function ParseHttpUrl(url: string): (r: Option<HttpUrl>)
    ensures r.Some? <==> |url| >= |SCHEME| && url[..|SCHEME|] == SCHEME
    ensures r.Some? ==> Avoids(r.value.host, HOST_DELIMITERS)
    ensures r.Some? && r.value.path != [] ==> r.value.path[0] in AUTHORITY_END
  {
    if |url| < |SCHEME| || url[..|SCHEME|] != SCHEME then None
    else
      var rest := url[|SCHEME|..];
      var n := FindFirst(rest, AUTHORITY_END);
      var authority := rest[..n];
      match FindLast(authority, '@')
      case None => Some(HttpUrl(None, authority, rest[n..]))
      case Some(k) => Some(HttpUrl(Some(PercentDecode(authority[..k])), authority[k + 1..], rest[n..]))
  }

  /** The credentials an HTTP basic userinfo `user:password` stands for: the
      user-id ends at the first ':' (RFC 7617 section 2). */
  function BasicCredentials(userinfo: string): (r: (string, string))
    ensures ':' !in r.0
    ensures ':' in userinfo ==> userinfo == r.0 + ":" + r.1
    ensures ':' !in userinfo ==> r == (userinfo, "")
  {
    var k := FindFirst(userinfo, {':'});
    if k < |userinfo| then
      assert userinfo == userinfo[..k] + ":" + userinfo[k + 1..];
      (userinfo[..k], userinfo[k + 1..])
    else
      assert userinfo[..k] == userinfo;
      (userinfo, "")
  }

  lemma ParseWithoutUserinfo(host: string, path: string)
    requires PlainHost(host)
    requires path != [] && path[0] in AUTHORITY_END
    ensures ParseHttpUrl(SCHEME + host + path) == Some(HttpUrl(None, host, path))
  {
    var url := SCHEME + host + path;
    assert url[..|SCHEME|] == SCHEME;
    var rest := url[|SCHEME|..];
    assert rest == host + path;
    FindFirstAt(rest, AUTHORITY_END, |host|);
    assert rest[..|host|] == host && rest[|host|..] == path;
  }

  lemma ParseWithUserinfo(info: string, host: string, path: string)
    requires Avoids(info, AUTHORITY_END)
    requires PlainHost(host)
    requires path != [] && path[0] in AUTHORITY_END
    ensures ParseHttpUrl(SCHEME + info + "@" + host + path) == Some(HttpUrl(Some(PercentDecode(info)), host, path))
  {
    var url := SCHEME + info + "@" + host + path;
    assert url[..|SCHEME|] == SCHEME;
    var rest := url[|SCHEME|..];
    var authority := info + "@" + host;
    assert rest == authority + path;
    forall i | 0 <= i < |authority| ensures rest[i] !in AUTHORITY_END {
      if i < |info| {
        assert rest[i] == info[i];
      } else if i > |info| {
        assert rest[i] == host[i - |info| - 1];
      }
    }
    FindFirstAt(rest, AUTHORITY_END, |authority|);
    assert rest[..|authority|] == authority && rest[|authority|..] == path;
    forall i | |info| < i < |authority| ensures authority[i] != '@' {
      assert authority[i] == host[i - |info| - 1];
    }
    FindLastAt(authority, '@', |info|);
    assert authority[..|info|] == info && authority[|info| + 1..] == host;
  }

  /** `"http://{}/command-api".format(switch_addr)`: the endpoint reads back as
      the switch's address with the command-api path and no credentials. */
  function Endpoint(switchAddr: string): (url: string)
    ensures PlainHost(switchAddr) ==>
      ParseHttpUrl(url) == Some(HttpUrl(None, switchAddr, "/command-api"))
  {
    if PlainHost(switchAddr) then
      ParseWithoutUserinfo(switchAddr, COMMAND_API);
      SCHEME + switchAddr + COMMAND_API
    else
      SCHEME + switchAddr + COMMAND_API
  }

  lemma ParsePlainCredentials(username: string, password: string, switchAddr: string)
    requires Avoids(username, {':', '/', '?', '#', '%'}) && Avoids(password, {'/', '?', '#', '%'})
    requires PlainHost(switchAddr)
    ensures ParseHttpUrl(SCHEME + (username + ":" + password) + "@" + switchAddr + COMMAND_API)
         == Some(HttpUrl(Some(username + ":" + password), switchAddr, "/command-api"))
  {
    var info := username + ":" + password;
    AvoidsJoin(username, ':', password, {'/', '?', '#', '%'});
    ParseWithUserinfo(info, switchAddr, COMMAND_API);
    DecodeWithoutPercent(info);
  }

  /** The jsonrpclib URL as the source writes it:
      `"http://{}:{}@{}/command-api".format(username, password, switch_addr)`,
      credentials spliced in unescaped. It reads back correctly only while
      neither credential holds a '/', '?', '#' or '%' and the username no ':'. */
  function CredentialUrlAsWritten(username: string, password: string, switchAddr: string): (url: string)
    ensures Avoids(username, {':', '/', '?', '#', '%'}) && Avoids(password, {'/', '?', '#', '%'}) && PlainHost(switchAddr) ==>
      ParseHttpUrl(url) == Some(HttpUrl(Some(username + ":" + password), switchAddr, "/command-api"))
  {
    if Avoids(username, {':', '/', '?', '#', '%'}) && Avoids(password, {'/', '?', '#', '%'}) && PlainHost(switchAddr) then
      ParsePlainCredentials(username, password, switchAddr);
      SCHEME + (username + ":" + password) + "@" + switchAddr + COMMAND_API
    else
      SCHEME + (username + ":" + password) + "@" + switchAddr + COMMAND_API
  }

  /** A password with a '/' cuts the authority short: the URL no longer names
      the switch, and carries no credentials at all. */
  lemma CredentialUrlAsWrittenMisroutes()
    ensures ParseHttpUrl(CredentialUrlAsWritten("admin", "a/b", "sw1"))
         == Some(HttpUrl(None, "admin:a", "/b@sw1/command-api"))
  {
    assert CredentialUrlAsWritten("admin", "a/b", "sw1") == SCHEME + "admin:a" + "/b@sw1/command-api";
    ParseWithoutUserinfo("admin:a", "/b@sw1/command-api");
  }

  lemma ParseEncodedCredentials(username: string, password: string, switchAddr: string)
    requires PlainHost(switchAddr)
    ensures ParseHttpUrl(SCHEME + (PercentEncode(username) + ":" + PercentEncode(password)) + "@" + switchAddr + COMMAND_API)
         == Some(HttpUrl(Some(username + ":" + password), switchAddr, "/command-api"))
  {
    var eu, ep := PercentEncode(username), PercentEncode(password);
    var info := eu + ":" + ep;
    AvoidsWithin(eu, DELIMITERS, AUTHORITY_END);
    AvoidsWithin(ep, DELIMITERS, AUTHORITY_END);
    AvoidsJoin(eu, ':', ep, AUTHORITY_END);
    ParseWithUserinfo(info, switchAddr, COMMAND_API);
    DecodeUserinfo(username, password);
  }

  /** The encoded userinfo decodes to `username:password`. */
  lemma DecodeUserinfo(username: string, password: string)
    ensures PercentDecode(PercentEncode(username) + ":" + PercentEncode(password)) == username + ":" + password
  {
    var eu, ep := PercentEncode(username), PercentEncode(password);
    Associative(eu, ":", ep);
    DecodeEncoded(username, ":" + ep);
    DecodeColon(ep);
    DecodeEncode(password);
    Associative(username, ":", password);
  }

  lemma Associative(a: string, b: string, c: string)
    ensures a + b + c == a + (b + c)
  {
  }

  lemma DecodeColon(s: string)
    ensures PercentDecode(":" + s) == ":" + PercentDecode(s)
  {
    var t := ":" + s;
    assert t[0] == ':' && t[1..] == s;
  }

  /** The jsonrpclib URL with the username and the password percent-encoded,
      so that its userinfo decodes to exactly `username:password`. */
  function CredentialUrl(username: string, password: string, switchAddr: string): (url: string)
    ensures PlainHost(switchAddr) ==>
      ParseHttpUrl(url) == Some(HttpUrl(Some(username + ":" + password), switchAddr, "/command-api"))
  {
    var info := PercentEncode(username) + ":" + PercentEncode(password);
    if PlainHost(switchAddr) then
      ParseEncodedCredentials(username, password, switchAddr);
      SCHEME + info + "@" + switchAddr + COMMAND_API
    else
      SCHEME + info + "@" + switchAddr + COMMAND_API
  }

  /** For every username without ':' (RFC 7617 forbids one) and every password,
      the URL names the switch and the basic credentials it carries are exactly
      the client's. */
  lemma CredentialUrlCarriesCredentials(username: string, password: string, switchAddr: string)
    requires ':' !in username
    requires PlainHost(switchAddr)
    ensures var parsed := ParseHttpUrl(CredentialUrl(username, password, switchAddr));
      && parsed.Some? && parsed.value.host == switchAddr && parsed.value.path == "/command-api"
      && parsed.value.userinfo.Some?
      && BasicCredentials(parsed.value.userinfo.value) == (username, password)
  {
    var info := username + ":" + password;
    FindFirstAt(info, {':'}, |username|);
    assert info[..|username|] == username && info[|username| + 1..] == password;
  }

  /** For credentials made of unreserved characters only, the percent-encoded
      URL is the very string the source builds. */
  lemma CredentialUrlAgreesOnPlainCredentials(username: string, password: string, switchAddr: string)
    requires forall i :: 0 <= i < |username| ==> Unreserved(username[i])
    requires forall i :: 0 <= i < |password| ==> Unreserved(password[i])
    ensures CredentialUrl(username, password, switchAddr) == CredentialUrlAsWritten(username, password, switchAddr)
  {
    EncodeUnreserved(username);
    EncodeUnreserved(password);
  }
}
