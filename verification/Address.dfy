/** Public addresses of tunnels: how a label becomes a URL, how the Host header of
  * a public request is turned back into a label, and how a request target is split
  * when it is captured and joined again when it is replayed.
  */
module Address {
  import opened Strings
  import opened Wrappers
  import B = Base64

  // ---- Labels, URLs and hosts ----------------------------------------------

  function PublicUrl(sub: string, base: string): string {
    "https://" + sub + "." + base
  }

  /** net.SplitHostPort, reduced to the host part; None is its error result. */
  function SplitHostPort(hostport: string): Option<string> {
    var i := LastIndexByte(hostport, ':');
    if i < 0 then None
    else if hostport[0] == '[' then
      var end := IndexByte(hostport, ']');
      if end < 0 || end + 1 != i then None
      else if '[' in hostport[1..] || ']' in hostport[end + 1..] then None
      else Some(hostport[1..end])
    else
      var host := hostport[..i];
      if ':' in host || '[' in hostport || ']' in hostport then None
      else Some(host)
  }

  function SubdomainFromHost(host: string, base: string): string {
    var h := match SplitHostPort(host) case Some(h) => h case None => host;
    var suffix := "." + base;
    if HasSuffix(h, suffix) then h[..|h| - |suffix|] else ""
  }

  function HostFromPublicUrl(url: string): string {
    var u := TrimPrefix(TrimPrefix(url, "https://"), "http://");
    var i := IndexByte(u, '/');
    if i >= 0 then u[..i] else u
  }

  // ---- Minting labels --------------------------------------------------------

  function ToLower(c: char): char {
    if 'A' <= c <= 'Z' then c - 'A' + 'a' else c
  }

  /** Drop '_' and '-', then lower-case what is left. */
  function Normalize(token: string): string {
    if token == "" then ""
    else if token[0] in "_-" then Normalize(token[1..])
    else [ToLower(token[0])] + Normalize(token[1..])
  }

  /** The printed form of a UUID: lower-case hexadecimal in groups of 8, 4, 4, 4 and 12. */
  predicate IsUuid(s: string) {
    |s| == 36 && forall i | 0 <= i < 36 ::
      if i == 8 || i == 13 || i == 18 || i == 23 then s[i] == '-' else '0' <= s[i] <= '9' || 'a' <= s[i] <= 'f'
  }

  /** newSubdomain: the label minted from random bytes, or the head of a UUID when the random source fails. */
  function NewSubdomain(random: Option<seq<B.Byte>>, uuid: string): string
    requires IsUuid(uuid)
  {
    match random
    case Some(bytes) => Normalize(B.Encode(B.Url, bytes))
    case None => uuid[..12]
  }

  /** The characters a minted label can hold; '-' comes from the UUID that stands in when the random source fails. */
  predicate IsLabel(s: string) {
    forall c | c in s :: 'a' <= c <= 'z' || '0' <= c <= '9' || c == '-'
  }

  lemma {:induction false} NormalizeMints(token: string)
    requires forall c | c in token :: B.IsUrlChar(c)
    ensures IsLabel(Normalize(token)) && '-' !in Normalize(token)
    ensures Normalize(token) == "" <==> forall c | c in token :: c in "_-"
  {
    if token != "" {
      assert forall c | c in token[1..] :: c in token;
      assert token == [token[0]] + token[1..];
      NormalizeMints(token[1..]);
      assert token[0] in token;
    }
  }

  lemma HighSextets(c: char, v: B.Sextet)
    requires B.Value(B.Url, c) == Some(v)
    ensures 62 <= v <==> c in "_-"
  {
  }

  lemma SameMembership(token: string, vs: seq<B.Sextet>)
    requires |token| == |vs| && forall i | 0 <= i < |vs| :: (62 <= vs[i] <==> token[i] in "_-")
    ensures (forall c | c in token :: c in "_-") <==> forall v | v in vs :: 62 <= v
  {
    assert forall i | 0 <= i < |vs| :: vs[i] in vs && token[i] in token;
  }

  /** Every minted label is a host label. From random bytes it has no '-', and is empty exactly when all their base64
    * sextets are '-' or '_'; the label that stands in for a failed random source has one '-', and is never empty. */
  lemma MintedLabel(random: Option<seq<B.Byte>>, uuid: string)
    requires IsUuid(uuid)
    ensures var sub := NewSubdomain(random, uuid);
      && IsLabel(sub)
      && match random
        case Some(bytes) => '-' !in sub && (sub == "" <==> forall v | v in B.Split(bytes) :: 62 <= v)
        case None => |sub| == 12 && forall i | 0 <= i < 12 :: (sub[i] == '-' <==> i == 8)
  {
    if random.Some? { MintedFromBytes(random.value); }
  }

  lemma MintedFromBytes(random: seq<B.Byte>)
    ensures var sub := Normalize(B.Encode(B.Url, random));
      IsLabel(sub) && '-' !in sub && (sub == "" <==> forall v | v in B.Split(random) :: 62 <= v)
  {
    var token, vs := B.Encode(B.Url, random), B.Split(random);
    B.EncodeAlphabet(B.Url, random);
    NormalizeMints(token);
    B.EncodeIsSplit(B.Url, random);
    B.SextetsAt(B.Url, token);
    forall i | 0 <= i < |vs|
      ensures 62 <= vs[i] <==> token[i] in "_-"
    {
      HighSextets(token[i], vs[i]);
    }
    SameMembership(token, vs);
  }

  /** How many sextets before position n stand for letters and digits. */
  function Letters(vs: seq<B.Sextet>, n: nat): nat
    requires n <= |vs|
  {
    if n == 0 then 0 else Letters(vs, n - 1) + if vs[n - 1] < 62 then 1 else 0
  }

  /** The lower-case character of a sextet below 62. */
  function LabelChar(v: B.Sextet): char
    requires v < 62
  {
    if v < 26 then 'a' + v as char else if v < 52 then 'a' + (v - 26) as char else '0' + (v - 52) as char
  }

  lemma {:induction false} LettersOfPrefix(vs: seq<B.Sextet>, m: nat, n: nat)
    requires n <= m <= |vs|
    ensures Letters(vs[..m], n) == Letters(vs, n)
    ensures n < m && vs[n] < 62 ==> Letters(vs, n) < Letters(vs, m)
    decreases m + n
  {
    if n > 0 { LettersOfPrefix(vs, m, n - 1); }
    if n < m { LettersOfPrefix(vs, m - 1, n); }
  }

  lemma {:induction false} NormalizeSnoc(token: string, c: char)
    ensures Normalize(token + [c]) == Normalize(token) + if c in "_-" then [] else [ToLower(c)]
  {
    if token == "" {
      assert token + [c] == [c];
    } else {
      assert (token + [c])[1..] == token[1..] + [c];
      NormalizeSnoc(token[1..], c);
    }
  }

  lemma CharLowered(c: char, v: B.Sextet)
    requires B.Value(B.Url, c) == Some(v)
    ensures if v < 62 then c !in "_-" && ToLower(c) == LabelChar(v) else c in "_-"
  {
  }

  /** Sextet i has its character in the label. */
  predicate Spelled(sub: string, vs: seq<B.Sextet>, i: nat)
    requires i < |vs|
  {
    vs[i] < 62 ==> Letters(vs, i) < |sub| && sub[Letters(vs, i)] == LabelChar(vs[i])
  }

  lemma StillSpelled(sub: string, more: string, vs: seq<B.Sextet>, i: nat)
    requires i < |vs| - 1 && Spelled(sub, vs[..|vs| - 1], i)
    ensures Spelled(sub + more, vs, i)
  {
    LettersOfPrefix(vs, |vs| - 1, i);
    hide LabelChar, Letters;
  }

  lemma LastSpelled(sub: string, more: string, vs: seq<B.Sextet>)
    requires vs != [] && |sub| == Letters(vs[..|vs| - 1], |vs| - 1)
    requires var v := vs[|vs| - 1]; more == if v < 62 then [LabelChar(v)] else []
    ensures Spelled(sub + more, vs, |vs| - 1) && |sub + more| == Letters(vs, |vs|)
  {
    LettersOfPrefix(vs, |vs| - 1, |vs| - 1);
    hide LabelChar;
  }

  /** Dropping '-' and '_' and lower-casing keeps every other character, in order. */
  lemma {:induction false} NormalizeKeeps(token: string, vs: seq<B.Sextet>)
    requires |token| == |vs| && forall i | 0 <= i < |vs| :: B.Value(B.Url, token[i]) == Some(vs[i])
    ensures |Normalize(token)| == Letters(vs, |vs|) && forall i: nat | i < |vs| :: Spelled(Normalize(token), vs, i)
  {
    if token != "" {
      var n := |token| - 1;
      var t, us := token[..n], vs[..n];
      NormalizeKeeps(t, us);
      assert token == t + [token[n]];
      NormalizeSnoc(t, token[n]);
      CharLowered(token[n], vs[n]);
      var more := if vs[n] < 62 then [LabelChar(vs[n])] else [];
      assert Normalize(token) == Normalize(t) + more;
      hide Spelled, Letters, LabelChar, Normalize, ToLower, B.Value;
      LastSpelled(Normalize(t), more, vs);
      forall i: nat | i < n
        ensures Spelled(Normalize(token), vs, i)
      {
        StillSpelled(Normalize(t), more, vs, i);
      }
    }
  }

  /** A label minted from random bytes has one character for each base64 sextet of theirs that is not '-' or '_', in
    * order: the letter or digit of that sextet, in lower case. */
  lemma LabelSpellsSextets(random: seq<B.Byte>, uuid: string, i: nat)
    requires IsUuid(uuid) && i < |B.Split(random)|
    ensures var vs, sub := B.Split(random), NewSubdomain(Some(random), uuid);
      && |sub| == Letters(vs, |vs|)
      && (vs[i] < 62 ==> Letters(vs, i) < |sub| && sub[Letters(vs, i)] == LabelChar(vs[i]))
  {
    B.EncodeIsSplit(B.Url, random);
    B.SextetsAt(B.Url, B.Encode(B.Url, random));
    hide B.Value, B.Encode, B.Split, B.Sextets, LabelChar, Letters, Normalize;
    NormalizeKeeps(B.Encode(B.Url, random), B.Split(random));
    assert Spelled(Normalize(B.Encode(B.Url, random)), B.Split(random), i);
  }

  // ---- Round trips -------------------------------------------------------------

  /** Under one base domain a public URL determines its label, so the unique index on URLs is one on labels. */
  lemma PublicUrlInjective(a: string, b: string, base: string)
    requires PublicUrl(a, base) == PublicUrl(b, base)
    ensures a == b
  {
    var u, n := PublicUrl(a, base), |"https://"|;
    assert u[n..|u| - |base| - 1] == a;
    assert u[n..|u| - |base| - 1] == b;
  }

  lemma UrlHost(sub: string, base: string)
    requires '/' !in sub && '/' !in base
    ensures HostFromPublicUrl(PublicUrl(sub, base)) == sub + "." + base
  {
    var h := sub + "." + base;
    assert PublicUrl(sub, base) == "https://" + h;
    assert TrimPrefix(PublicUrl(sub, base), "https://") == h;
    assert '/' !in h;
    assert "http://"[5] == '/';
    assert |h| > 5 ==> h[5] in h;
    assert !("http://" <= h);
  }

  /** The scheme before a host and everything from the first '/' after it are dropped. */
  lemma HostOfUrl(scheme: string, h: string, path: string)
    requires (scheme == "https://" || scheme == "http://") && '/' !in h && h != "http:"
    requires path == "" || path[0] == '/'
    ensures HostFromPublicUrl(scheme + h + path) == h
  {
    var url, rest := scheme + h + path, h + path;
    assert url == scheme + rest && url[|scheme|..] == rest && rest[|h|..] == path;
    assert TrimPrefix(TrimPrefix(url, "https://"), "http://") == rest by { SchemeDropped(scheme, h, path); }
    if path != "" { FirstIndexIs(rest, '/', |h|); } else { assert rest == h; }
  }

  lemma SchemeDropped(scheme: string, h: string, path: string)
    requires (scheme == "https://" || scheme == "http://") && '/' !in h && h != "http:"
    requires path == "" || path[0] == '/'
    ensures TrimPrefix(TrimPrefix(scheme + h + path, "https://"), "http://") == h + path
  {
    var url, rest := scheme + h + path, h + path;
    assert url == scheme + rest && url[|scheme|..] == rest;
    if scheme == "http://" { assert url[4] == ':' && "https://"[4] == 's'; } else { NoSecondScheme(h, path); }
  }

  lemma NoSecondScheme(h: string, path: string)
    requires '/' !in h && h != "http:" && (path == "" || path[0] == '/')
    ensures !("http://" <= h + path)
  {
    var rest := h + path;
    assert |h| > 5 ==> rest[5] == h[5] && h[5] in h;
    assert |h| < 5 && path != "" ==> rest[|h|] == '/';
    assert |h| == 5 ==> h == rest[..5];
    assert "http://"[..5] == "http:";
  }

  /** The string is this host and this port, the host in brackets or not. */
  predicate HostAndPort(s: string, host: string, port: string) {
    && ':' !in port && '[' !in port && ']' !in port && '[' !in host && ']' !in host
    && ((s == host + ":" + port && ':' !in host) || s == "[" + host + "]:" + port)
  }

  /** Exactly the strings "host:port" and "[host]:port" are split, at that colon. */
  lemma SplitsHostAndPort(s: string, host: string)
    ensures SplitHostPort(s) == Some(host) <==> exists port :: HostAndPort(s, host, port)
  {
    if SplitHostPort(s) == Some(host) { HasPort(s, host); }
    forall port | HostAndPort(s, host, port) ensures SplitHostPort(s) == Some(host) { SplitsAt(s, host, port); }
  }

  lemma HasPort(s: string, host: string)
    requires SplitHostPort(s) == Some(host)
    ensures exists port :: HostAndPort(s, host, port)
  {
    var i := LastIndexByte(s, ':');
    hide LastIndexByte, IndexByte, HostAndPort;
    if s[0] == '[' { PortAfterBracket(s, host, i, IndexByte(s, ']')); } else { PortAfterHost(s, host, i); }
    assert HostAndPort(s, host, s[i + 1..]);
  }

  lemma PortAfterHost(s: string, host: string, i: nat)
    requires i < |s| && s[i] == ':' && ':' !in s[i + 1..] && host == s[..i] && ':' !in host && '[' !in s && ']' !in s
    ensures HostAndPort(s, host, s[i + 1..])
  {
    assert s == s[..i] + ":" + s[i + 1..];
    assert forall c | c in s[i + 1..] :: c in s;
    assert forall c | c in host :: c in s;
  }

  lemma PortAfterBracket(s: string, host: string, i: nat, end: int)
    requires i < |s| && s[i] == ':' && ':' !in s[i + 1..] && s[0] == '[' && 0 <= end && end + 1 == i
    requires s[end] == ']' && ']' !in s[..end] && host == s[1..end] && '[' !in s[1..] && ']' !in s[end + 1..]
    ensures HostAndPort(s, host, s[i + 1..])
  {
    assert s == "[" + s[1..end] + "]:" + s[i + 1..];
    assert forall c | c in host :: c in s[1..] && c in s[..end];
    assert forall c | c in s[i + 1..] :: c in s[1..] && c in s[end + 1..];
  }

  lemma SplitsAt(s: string, host: string, port: string)
    requires HostAndPort(s, host, port)
    ensures SplitHostPort(s) == Some(host)
  {
    hide SplitHostPort;
    if s == host + ":" + port && ':' !in host { SplitsPlain(s, host, port); } else { SplitsBrackets(s, host, port); }
  }

  lemma SplitsPlain(s: string, host: string, port: string)
    requires ':' !in port && '[' !in port && ']' !in port && '[' !in host && ']' !in host && ':' !in host
    requires s == host + ":" + port
    ensures SplitHostPort(s) == Some(host)
  {
    assert s[|host|] == ':' && s[|host| + 1..] == port && s[..|host|] == host;
    LastIndexIs(s, ':', |host|);
    assert s[0] == if host == "" then ':' else host[0];
    assert forall c | c in s :: c in host || c == ':' || c in port;
    hide LastIndexByte, IndexByte;
  }

  /** Where the bracket closes and what stands on both sides of it. */
  lemma BracketParts(s: string, host: string, port: string)
    requires s == "[" + host + "]:" + port
    ensures var end := |host| + 1;
      && end + 1 < |s| && s[0] == '[' && s[end] == ']' && s[end + 1] == ':' && s[1..end] == host && s[end + 2..] == port
      && s[..end] == "[" + host && s[1..] == host + ("]:" + port) && s[end + 1..] == ":" + port
  {
  }

  lemma BracketEnds(s: string, host: string, port: string)
    requires ':' !in port && ']' !in host && s == "[" + host + "]:" + port
    ensures IndexByte(s, ']') == |host| + 1 && LastIndexByte(s, ':') == |host| + 2
  {
    hide IndexByte, LastIndexByte;
    BracketParts(s, host, port);
    FirstIndexIs(s, ']', |host| + 1);
    LastIndexIs(s, ':', |host| + 2);
  }

  lemma NoBracketsInside(s: string, host: string, port: string)
    requires '[' !in port && ']' !in port && '[' !in host && s == "[" + host + "]:" + port
    ensures |s| > |host| + 2 && '[' !in s[1..] && ']' !in s[|host| + 2..]
  {
    BracketParts(s, host, port);
    assert forall c | c in host + ("]:" + port) :: c in host || c == ']' || c == ':' || c in port;
    assert forall c | c in ":" + port :: c == ':' || c in port;
  }

  lemma SplitsBrackets(s: string, host: string, port: string)
    requires ':' !in port && '[' !in port && ']' !in port && '[' !in host && ']' !in host
    requires s == "[" + host + "]:" + port
    ensures SplitHostPort(s) == Some(host)
  {
    hide LastIndexByte, IndexByte;
    BracketEnds(s, host, port);
    NoBracketsInside(s, host, port);
    assert s[0] == '[' && s[1..|host| + 1] == host by { BracketParts(s, host, port); }
  }

  /** With no port in the Host header, exactly the hosts "label.base" lead to a label. */
  lemma HostNamesLabel(host: string, sub: string, base: string)
    requires ':' !in host && sub != ""
    ensures SubdomainFromHost(host, base) == sub <==> host == sub + "." + base
  {
  }

  /** A minted, non-empty label survives the trip through its public URL and the Host header of a request. */
  lemma HostRoundTrip(sub: string, base: string)
    requires IsLabel(sub) && sub != "" && ':' !in base && '/' !in base
    ensures SubdomainFromHost(HostFromPublicUrl(PublicUrl(sub, base)), base) == sub
  {
    UrlHost(sub, base);
    HostNamesLabel(sub + "." + base, sub, base);
  }

  lemma HostWithPort(h: string, port: string)
    requires h != "" && ':' !in h && h[0] != '['
    requires forall c | c in port :: '0' <= c <= '9'
    ensures SplitHostPort(h + ":" + port) == if '[' in h || ']' in h then None else Some(h)
  {
    var hp := h + ":" + port;
    assert hp[|h|] == ':' && hp[|h| + 1..] == port && hp[..|h|] == h && hp[0] == h[0];
    LastIndexIs(hp, ':', |h|);
  }

  lemma PortHidesSuffix(h: string, port: string, suffix: string)
    requires suffix != "" && suffix[0] == '.' && ':' !in suffix
    requires forall c | c in port :: '0' <= c <= '9'
    ensures !HasSuffix(h + ":" + port, suffix)
  {
    var hp := h + ":" + port;
    var n := |hp| - |suffix|;
    if |h| < n {
      assert hp[n] == port[n - |h| - 1] && port[n - |h| - 1] in port;
    } else if 0 <= n {
      assert hp[n..][|h| - n] == ':';
    }
  }

  lemma StripSuffix(sub: string, base: string, port: string)
    requires IsLabel(sub) && sub != "" && ':' !in base
    requires forall c | c in port :: '0' <= c <= '9'
    ensures SubdomainFromHost(sub + "." + base + ":" + port, base) == sub <==> '[' !in base && ']' !in base
  {
    var h, suffix := sub + "." + base, "." + base;
    assert h == sub + suffix;
    assert h[0] == sub[0] && sub[0] in sub;
    assert '[' !in sub && ']' !in sub && ':' !in sub;
    HostWithPort(h, port);
    PortHidesSuffix(h, port, suffix);
    if '[' !in base && ']' !in base {
      assert '[' !in h && ']' !in h;
      assert SplitHostPort(h + ":" + port) == Some(h);
      assert HasSuffix(h, suffix);
    } else {
      assert SplitHostPort(h + ":" + port) == None;
    }
  }

  /** With a port appended the label survives exactly when the base domain holds no bracket. */
  lemma HostRoundTripWithPort(sub: string, base: string, port: string)
    requires IsLabel(sub) && sub != "" && ':' !in base && '/' !in base
    requires forall c | c in port :: '0' <= c <= '9'
    ensures SubdomainFromHost(HostFromPublicUrl(PublicUrl(sub, base)) + ":" + port, base) == sub
       <==> '[' !in base && ']' !in base
  {
    UrlHost(sub, base);
    StripSuffix(sub, base, port);
  }

  // ---- Request targets -----------------------------------------------------------

  /** handlePublic and Replay: a target from its path and raw query. */
  function JoinTarget(path: string, query: string): string {
    if query != "" then path + "?" + query else path
  }

  /** capture: the path and query a target is stored as. */
  function SplitTarget(target: string): (string, string) {
    var i := IndexByte(target, '?');
    if i >= 0 then (target[..i], target[i + 1..]) else (target, "")
  }

  lemma JoinAt(target: string, i: nat)
    requires i < |target| && target[i] == '?'
    ensures JoinTarget(target[..i], target[i + 1..]) == target <==> i != |target| - 1
  {
  }

  /** Replay rebuilds the captured target, except when its first '?' is its last character. */
  lemma ReplayRebuildsTarget(target: string)
    ensures (var (path, query) := SplitTarget(target); JoinTarget(path, query) == target)
       <==> (target == "" || IndexByte(target, '?') != |target| - 1)
  {
    var i := IndexByte(target, '?');
    if 0 <= i { JoinAt(target, i); }
  }

  /** capture recovers the path and query of a request exactly when the decoded path holds no '?'. */
  lemma CaptureRecoversPathAndQuery(path: string, query: string)
    ensures SplitTarget(JoinTarget(path, query)) == (path, query) <==> '?' !in path
  {
    var target := JoinTarget(path, query);
    var i := IndexByte(target, '?');
    if '?' in path {
      var j := IndexByte(path, '?');
      assert target[..j] == path[..j];
      FirstIndexIs(target, '?', j);
    } else if query != "" {
      assert target[..|path|] == path && target[|path| + 1..] == query;
      FirstIndexIs(target, '?', |path|);
    }
  }
}
