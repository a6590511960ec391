/**
  The two pieces of text processing the Shellshock transform borrows from Python's libraries:
  `re.search('(?P<url>https?://[^\s;]+)', command)` and the network location that
  `urlparse.urlparse(url).netloc` yields (Python 2.7's `urlsplit`), together with the host part
  `netloc.split(':')[0]`.
*/
module UrlParsing {
  import opened Wrappers

  // ---------------------------------------------------------------------------------------------
  // The URL pattern https?://[^\s;]+
  // ---------------------------------------------------------------------------------------------

  /** The characters `\s` matches in a Python 2 pattern compiled without the UNICODE flag. */
  const Whitespace: set<char> := {' ', '\t', '\n', '\r', '\U{0B}', '\U{0C}'}

  /** The class `[^\s;]`. */
  predicate IsUrlChar(c: char)
  {
    c !in Whitespace && c != ';'
  }

  predicate AllUrlChars(t: string)
  {
    forall k :: 0 <= k < |t| ==> IsUrlChar(t[k])
  }

  /** The whole of `t` matches `https?://[^\s;]+`: the declarative reading of the pattern. */
  predicate UrlShaped(t: string)
  {
    || (|t| > 7 && t[..7] == "http://" && AllUrlChars(t[7..]))
    || (|t| > 8 && t[..8] == "https://" && AllUrlChars(t[8..]))
  }

  /** The substring of `s` from `i` to `j` has the shape of the pattern. */
  predicate ShapedAt(s: string, i: nat, j: nat)
    requires i <= j <= |s|
  {
    UrlShaped(s[i..j])
  }

  /** The length of the `https?://` prefix the matcher accepts at `i`, 0 if none. */
  function PrefixLength(s: string, i: nat): (p: nat)
    requires i <= |s|
    ensures p == 0 || p == 7 || p == 8
    ensures p > 0 ==> i + p <= |s|
  {
    if i + 7 <= |s| && s[i..i + 7] == "http://" then 7
    else if i + 8 <= |s| && s[i..i + 8] == "https://" then 8
    else 0
  }

  /** The greedy `[^\s;]+`: the length of the longest run of URL characters starting at `k`. */
  function RunLength(s: string, k: nat): (n: nat)
    requires k <= |s|
    ensures k + n <= |s|
    ensures forall m :: k <= m < k + n ==> IsUrlChar(s[m])
    ensures k + n < |s| ==> !IsUrlChar(s[k + n])
    decreases |s| - k
  {
    if k < |s| && IsUrlChar(s[k]) then 1 + RunLength(s, k + 1) else 0
  }

  /** The matcher succeeds when it starts at `i`. */
  predicate MatchesAt(s: string, i: nat)
    requires i <= |s|
  {
    var p := PrefixLength(s, i);
    p > 0 && RunLength(s, i + p) > 0
  }

  /** Where the match starting at `i` ends: prefix, then as many URL characters as there are. */
  function MatchEnd(s: string, i: nat): nat
    requires i <= |s|
  {
    var p := PrefixLength(s, i);
    i + p + RunLength(s, i + p)
  }

  /** The first start position at or after `from` where the matcher succeeds. */
  function LeftmostMatch(s: string, from: nat): (r: Option<nat>)
    requires from <= |s|
    ensures r.Some? ==> from <= r.value < |s| && MatchesAt(s, r.value)
    ensures r.Some? ==> forall j :: from <= j < r.value ==> !MatchesAt(s, j)
    ensures r.None? ==> forall j :: from <= j < |s| ==> !MatchesAt(s, j)
    decreases |s| - from
  {
    if from == |s| then None
    else if MatchesAt(s, from) then Some(from)
    else LeftmostMatch(s, from + 1)
  }

  /** A substring that has the shape of the pattern begins with the prefix the matcher accepts. */
  lemma ShapedPrefix(s: string, i: nat, j: nat)
    requires i <= j <= |s| && UrlShaped(s[i..j])
    ensures var p := PrefixLength(s, i);
      p > 0 && i + p < j && AllUrlChars(s[i..j][p..])
  {
    var t := s[i..j];
    if |t| > 7 && t[..7] == "http://" && AllUrlChars(t[7..]) {
      assert s[i..i + 7] == t[..7];
    } else {
      assert |t| > 8 && t[..8] == "https://" && AllUrlChars(t[8..]);
      var u := s[i..i + 8];
      assert forall k :: 0 <= k < 8 ==> u[k] == t[..8][k];
      assert u == "https://";
      assert u[4] == 's' && s[i..i + 7][4] == u[4];
      assert s[i..i + 7] != "http://";
    }
  }

  /** A substring that has the shape of the pattern starts where the matcher succeeds and ends no later than its match. */
  lemma ShapedIsWithinMatch(s: string, i: nat, j: nat)
    requires i <= j <= |s| && UrlShaped(s[i..j])
    ensures MatchesAt(s, i) && j <= MatchEnd(s, i)
  {
    ShapedPrefix(s, i, j);
    var p := PrefixLength(s, i);
    forall m | i + p <= m < j
      ensures IsUrlChar(s[m])
    {
      assert s[i..j][p..][m - i - p] == s[m];
    }
  }

  /** The text the matcher returns has the shape of the pattern. */
  lemma MatchIsShaped(s: string, i: nat)
    requires i <= |s| && MatchesAt(s, i)
    ensures UrlShaped(s[i..MatchEnd(s, i)])
  {
    var p := PrefixLength(s, i);
    var t := s[i..MatchEnd(s, i)];
    assert t[..p] == s[i..i + p];
    forall k | 0 <= k < |t| - p
      ensures IsUrlChar(t[p..][k])
    {
      assert t[p..][k] == s[i + p + k];
    }
  }

  /**
    `re.search(r'https?://[^\s;]+', s)` as the span (start, end) of its match: the leftmost
    start at which the pattern matches, and there the longest match, None when no substring matches.
  */
  function Search(s: string): (r: Option<(nat, nat)>)
    ensures r.Some? ==> r.value.0 < r.value.1 <= |s| && ShapedAt(s, r.value.0, r.value.1)
    ensures r.Some? ==> forall i, j :: 0 <= i < r.value.0 && i <= j <= |s| ==> !ShapedAt(s, i, j)
    ensures r.Some? ==> forall j :: r.value.1 < j <= |s| ==> !ShapedAt(s, r.value.0, j)
    ensures r.None? ==> forall i, j :: 0 <= i <= j <= |s| ==> !ShapedAt(s, i, j)
  {
    var first := LeftmostMatch(s, 0);
    NoShapeBeforeMatch(s, if first.Some? then first.value else |s|);
    match first
    case None => None
    case Some(i) =>
      MatchIsShaped(s, i);
      NoLongerShape(s, i);
      Some((i, MatchEnd(s, i)))
  }

  /** Where the matcher fails at every start before `bound`, no substring starting there has the shape. */
  lemma NoShapeBeforeMatch(s: string, bound: nat)
    requires bound <= |s|
    requires forall j :: 0 <= j < bound ==> !MatchesAt(s, j)
    ensures forall i, j :: 0 <= i < bound && i <= j <= |s| ==> !ShapedAt(s, i, j)
  {
    forall i, j | 0 <= i < bound && i <= j <= |s| && ShapedAt(s, i, j)
      ensures false
    {
      ShapedIsWithinMatch(s, i, j);
    }
  }

  /** No substring starting at a match and running past its end has the shape. */
  lemma NoLongerShape(s: string, i: nat)
    requires i <= |s| && MatchesAt(s, i)
    ensures forall j :: MatchEnd(s, i) < j <= |s| ==> !ShapedAt(s, i, j)
  {
    forall j | MatchEnd(s, i) < j <= |s| && ShapedAt(s, i, j)
      ensures false
    {
      ShapedIsWithinMatch(s, i, j);
    }
  }

  // ---------------------------------------------------------------------------------------------
  // urlparse(url).netloc and its host part
  // ---------------------------------------------------------------------------------------------

  /** The prefix of `s` before the first character from `stops`, all of `s` when there is none. */
  function TakeUntil(s: string, stops: set<char>): (r: string)
    ensures |r| <= |s| && r == s[..|r|]
    ensures forall k :: 0 <= k < |r| ==> r[k] !in stops
    ensures |r| < |s| ==> s[|r|] in stops
  {
    if s == [] || s[0] in stops then [] else [s[0]] + TakeUntil(s[1..], stops)
  }

  /** TakeUntil stops exactly at the end of a stop-free prefix followed by a stop or by nothing. */
  lemma {:induction false} TakeUntilConcat(a: string, b: string, stops: set<char>)
    requires forall k :: 0 <= k < |a| ==> a[k] !in stops
    requires b == [] || b[0] in stops
    ensures TakeUntil(a + b, stops) == a
  {
    var r := TakeUntil(a + b, stops);
    assert (a + b)[..|a|] == a;
  }

  /** Characters urlsplit accepts in a scheme. */
  predicate IsSchemeChar(c: char)
  {
    ('a' <= c <= 'z') || ('A' <= c <= 'Z') || ('0' <= c <= '9') || c == '+' || c == '-' || c == '.'
  }

  predicate IsDigit(c: char)
  {
    '0' <= c <= '9'
  }

  /** A non-empty run of scheme characters. */
  predicate IsSchemeName(s: string)
  {
    s != [] && forall k :: 0 <= k < |s| ==> IsSchemeChar(s[k])
  }

  /** A non-empty run of digits, which urlsplit takes for a port rather than a path. */
  predicate IsPortNumber(s: string)
  {
    s != [] && forall k :: 0 <= k < |s| ==> IsDigit(s[k])
  }

  /**
    What urlsplit goes on with once it has taken off a scheme. Where the text before the first ':'
    is exactly "http", its fast path takes off "http:" unconditionally. Otherwise it goes on with
    the text after the first ':' when the text before it is a non-empty run of scheme characters
    and the text after it is not a port number (empty, or not all digits), and with the whole of
    `url` in every other case.
  */
  function AfterScheme(url: string): (rest: string)
    ensures |rest| <= |url| && rest == url[|url| - |rest|..]
    ensures rest != url ==>
      var i := |url| - |rest| - 1;
      url[i] == ':' && IsSchemeName(url[..i]) && (url[..i] == "http" || !IsPortNumber(rest))
    ensures var i := |TakeUntil(url, {':'})|;
      i < |url| && (url[..i] == "http" || (IsSchemeName(url[..i]) && !IsPortNumber(url[i + 1..])))
      ==> rest == url[i + 1..]
  {
    var i := |TakeUntil(url, {':'})|;
    if i < |url| && url[..i] == "http" then url[i + 1..]
    else if i < |url| && IsSchemeName(url[..i]) && !IsPortNumber(url[i + 1..]) then url[i + 1..]
    else url
  }

  /**
    `urlparse.urlparse(url).netloc`: after the scheme, the text following "//" up to the first
    '/', '?' or '#', and "" when there is no "//"; None where urlsplit raises ValueError because
    the network location has a '[' without a ']' or the reverse.
  */
  function Netloc(url: string): (r: Option<string>)
    ensures var rest := AfterScheme(url);
      !(|rest| >= 2 && rest[..2] == "//") ==> r == Some("")
    ensures var rest := AfterScheme(url);
      r.Some? && |rest| >= 2 && rest[..2] == "//" ==>
        var n := r.value;
        && 2 + |n| <= |rest| && rest[2..2 + |n|] == n
        && Avoids(n, {'/', '?', '#'})
        && (2 + |n| == |rest| || rest[2 + |n|] in {'/', '?', '#'})
    ensures r.Some? ==> ('[' in r.value) == (']' in r.value)
    ensures var rest := AfterScheme(url);
      r.None? <==> |rest| >= 2 && rest[..2] == "//"
                   && var n := TakeUntil(rest[2..], {'/', '?', '#'}); ('[' in n) != (']' in n)
  {
    var rest := AfterScheme(url);
    if |rest| >= 2 && rest[..2] == "//" then
      var n := TakeUntil(rest[2..], {'/', '?', '#'});
      if ('[' in n) != (']' in n) then None else Some(n)
    else Some("")
  }

  /** `netloc.split(':')[0]`. */
  function HostOf(netloc: string): (h: string)
    ensures ':' !in h
    ensures |h| <= |netloc| && h == netloc[..|h|]
    ensures |h| < |netloc| ==> netloc[|h|] == ':'
  {
    TakeUntil(netloc, {':'})
  }

  /** No character of `s` is one of `cs`. */
  predicate Avoids(s: string, cs: set<char>)
  {
    forall k :: 0 <= k < |s| ==> s[k] !in cs
  }

  /** Two strings free of `cs` concatenate to one free of `cs`. */
  lemma AvoidsConcat(a: string, b: string, cs: set<char>)
    requires Avoids(a, cs) && Avoids(b, cs)
    ensures Avoids(a + b, cs)
  {
    forall k | 0 <= k < |a + b|
      ensures (a + b)[k] !in cs
    {
      if k >= |a| {
        assert (a + b)[k] == b[k - |a|];
      }
    }
  }

  /** The fast path: a URL starting with "http:" loses exactly that prefix, whatever follows it. */
  lemma AfterSchemeOfHttp(rest: string)
    ensures AfterScheme("http:" + rest) == rest
  {
    var url := "http:" + rest;
    assert url == "http" + (":" + rest);
    TakeUntilConcat("http", ":" + rest, {':'});
    assert url[..4] == "http";
    assert url[5..] == rest;
  }

  /** A scheme followed by ':' and a path that starts with '/' loses exactly the scheme and the colon. */
  lemma AfterSchemeOfUrl(scheme: string, rest: string)
    requires IsSchemeName(scheme)
    requires rest != [] && rest[0] == '/'
    ensures AfterScheme(scheme + ":" + rest) == rest
  {
    if scheme == "http" {
      assert scheme + ":" + rest == "http:" + rest;
      AfterSchemeOfHttp(rest);
    } else {
      AfterSchemeOfOtherUrl(scheme, rest);
    }
  }

  /** Off the fast path, a path starting with '/' is not a port number, so the scheme comes off. */
  lemma AfterSchemeOfOtherUrl(scheme: string, rest: string)
    requires IsSchemeName(scheme) && scheme != "http"
    requires rest != [] && rest[0] == '/'
    ensures AfterScheme(scheme + ":" + rest) == rest
  {
    var url := scheme + ":" + rest;
    var i := |scheme|;
    assert url == scheme + (":" + rest);
    TakeUntilConcat(scheme, ":" + rest, {':'});
    assert |TakeUntil(url, {':'})| == i;
    assert url[..i] == scheme;
    assert url[i + 1..] == rest;
    assert !IsDigit(rest[0]);
  }

  /** A URL of the shape scheme://authority[/...|?...|#...] yields its authority as netloc. */
  lemma NetlocOfSchemeUrl(scheme: string, authority: string, tail: string)
    requires IsSchemeName(scheme)
    requires Avoids(authority, {'/', '?', '#'})
    requires ('[' in authority) == (']' in authority)
    requires tail == [] || tail[0] in {'/', '?', '#'}
    ensures Netloc(scheme + "://" + authority + tail) == Some(authority)
  {
    var rest := "//" + authority + tail;
    assert scheme + "://" + authority + tail == scheme + ":" + rest;
    AfterSchemeOfUrl(scheme, rest);
    AuthorityOfRest(authority, tail);
  }

  /** After "//", the network location runs up to the first '/', '?' or '#'. */
  lemma AuthorityOfRest(authority: string, tail: string)
    requires Avoids(authority, {'/', '?', '#'})
    requires tail == [] || tail[0] in {'/', '?', '#'}
    ensures var rest := "//" + authority + tail;
      |rest| >= 2 && rest[..2] == "//" && TakeUntil(rest[2..], {'/', '?', '#'}) == authority
  {
    var rest := "//" + authority + tail;
    assert rest[2..] == authority + tail;
    TakeUntilConcat(authority, tail, {'/', '?', '#'});
  }

  /** The host of "host:port" is the text before the colon, and a colon-free netloc is its own host. */
  lemma {:induction false} HostOfHostPort(host: string, port: string)
    requires ':' !in host
    ensures HostOf(host + ":" + port) == host
    ensures HostOf(host) == host
  {
    assert forall k :: 0 <= k < |host| ==> host[k] != ':';
    TakeUntilConcat(host, ":" + port, {':'});
    assert host + ":" + port == host + (":" + port);
    TakeUntilConcat(host, [], {':'});
    assert host + [] == host;
  }

  /** "host:port" with a colon-free, bracket-free host and a bracket-free port is a valid netloc. */
  lemma AuthorityOfHostPort(host: string, port: string)
    requires Avoids(host, {'/', '?', '#', ':', '[', ']'}) && Avoids(port, {'/', '?', '#', '[', ']'})
    ensures var authority := host + ":" + port;
      Avoids(authority, {'/', '?', '#'}) && '[' !in authority && ']' !in authority
    ensures HostOf(host + ":" + port) == host
  {
    var stops := {'/', '?', '#', '[', ']'};
    AvoidsConcat(host, ":", stops);
    AvoidsConcat(host + ":", port, stops);
    assert ':' !in host by {
      assert forall k :: 0 <= k < |host| ==> host[k] != ':';
    }
    HostOfHostPort(host, port);
  }

  /** A URL scheme://host:port[/...|?...|#...] has netloc "host:port", whose host part is `host`. */
  lemma NetlocOfHostPortUrl(scheme: string, host: string, port: string, tail: string)
    requires IsSchemeName(scheme)
    requires Avoids(host, {'/', '?', '#', ':', '[', ']'}) && Avoids(port, {'/', '?', '#', '[', ']'})
    requires tail == [] || tail[0] in {'/', '?', '#'}
    ensures Netloc(scheme + "://" + host + ":" + port + tail) == Some(host + ":" + port)
    ensures HostOf(host + ":" + port) == host
  {
    assert scheme + "://" + host + ":" + port + tail == scheme + "://" + (host + ":" + port) + tail;
    AuthorityOfHostPort(host, port);
    NetlocOfSchemeUrl(scheme, host + ":" + port, tail);
  }

  /** A URL scheme://host[/...|?...|#...] without a port has netloc `host`, which is its own host part. */
  lemma NetlocOfHostUrl(scheme: string, host: string, tail: string)
    requires IsSchemeName(scheme)
    requires Avoids(host, {'/', '?', '#', ':', '[', ']'})
    requires tail == [] || tail[0] in {'/', '?', '#'}
    ensures Netloc(scheme + "://" + host + tail) == Some(host)
    ensures HostOf(host) == host
  {
    assert Avoids(host, {'/', '?', '#'});
    assert '[' !in host && ']' !in host && ':' !in host by {
      assert forall k :: 0 <= k < |host| ==> host[k] !in {':', '[', ']'};
    }
    NetlocOfSchemeUrl(scheme, host, tail);
    HostOfHostPort(host, "");
  }
}
