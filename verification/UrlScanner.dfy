/**
 Finding the vacancy id in a chat message: the `https?://[^\s<>()]+` scan, trailing punctuation, the URL
 components of section 3 of RFC 3986 as far as the code reads them, and the hh.ru host and path tests.
 Texts on which the standard parser raises (brackets in the host) are outside this model.
 */
module UrlScanner {
  import opened Wrappers
  import opened Text

  datatype UrlError = InvalidVacancyUrl | MultipleVacancyUrls

  const HTTP: string := "http://"
  const HTTPS: string := "https://"
  const ROOT_HOST: string := "hh.ru"
  const VACANCY_PATH: string := "/vacancy/"
  const TRAILING: set<char> := {'.', ',', ';', ':', '!', '?', ')', ']', '}'}

  predicate IsUrlChar(c: char) {
    !IsSpace(c) && c != '<' && c != '>' && c != '(' && c != ')'
  }

  function SchemeLength(s: string): (r: nat)
    ensures r <= |s|
  {
    if HTTPS <= s then |HTTPS| else if HTTP <= s then |HTTP| else 0
  }

  function UrlRun(s: string): (r: nat)
    ensures r <= |s| && (forall i | 0 <= i < r :: IsUrlChar(s[i])) && (r < |s| ==> !IsUrlChar(s[r]))
  {
    if s != [] && IsUrlChar(s[0]) then 1 + UrlRun(s[1..]) else 0
  }

  /** How far the pattern matches at the start of the text; zero when it does not. */
  function MatchLength(s: string): (r: nat)
    ensures r <= |s|
  {
    var p := SchemeLength(s);
    if p > 0 && UrlRun(s[p..]) > 0 then p + UrlRun(s[p..]) else 0
  }

  /** `URL_PATTERN.findall`: the leftmost, non-overlapping matches. */
  function FindUrls(s: string): seq<string>
    decreases |s|
  {
    if s == [] then []
    else if MatchLength(s) > 0 then [s[..MatchLength(s)]] + FindUrls(s[MatchLength(s)..])
    else FindUrls(s[1..])
  }

  /** `raw_url.rstrip(".,;:!?)]}")`. */
  function StripTrailing(s: string): string {
    if s != [] && s[|s| - 1] in TRAILING then StripTrailing(s[..|s| - 1]) else s
  }

  /** The part before the first of the given characters. */
  function Before(s: string, stops: set<char>): (r: string)
    ensures r <= s
  {
    if s == [] || s[0] in stops then [] else [s[0]] + Before(s[1..], stops)
  }

  /** The part behind the last occurrence of `c`, or everything. */
  function AfterLast(s: string, c: char): (r: string)
    ensures |r| <= |s| && r == s[|s| - |r|..]
  {
    if c !in s then s else
      if c in s[1..] then AfterLast(s[1..], c) else s[IndexOf(s, c) + 1..]
  }

  function IndexOf(s: string, c: char): (r: nat)
    requires c in s
    ensures r < |s| && s[r] == c && c !in s[..r]
  {
    if s[0] == c then 0 else 1 + IndexOf(s[1..], c)
  }

  function Authority(url: string): string {
    Before(url[SchemeLength(url)..], {'/', '?', '#'})
  }

  /** Without user information and port, in lower case. */
  function Hostname(url: string): string {
    Lower(Before(AfterLast(Authority(url), '@'), {':'}))
  }

  /** Without query and fragment; `;parameters` of the last segment are cut off as well. */
  function Path(url: string): string {
    WithoutParameters(Before(url[SchemeLength(url) + |Authority(url)|..], {'?', '#'}))
  }

  function WithoutParameters(path: string): string {
    var last := AfterLast(path, '/');
    path[..|path| - |last|] + Before(last, {';'})
  }

  predicate IsHhHost(host: string) {
    host == ROOT_HOST || EndsWith(host, "." + ROOT_HOST)
  }

  predicate EndsWith(s: string, suffix: string) {
    |suffix| <= |s| && s[|s| - |suffix|..] == suffix
  }

  predicate IsDigit(c: char) {
    '0' <= c <= '9'
  }

  predicate IsNumber(s: string) {
    s != [] && forall i | 0 <= i < |s| :: IsDigit(s[i])
  }

  function ParseNumber(s: string): nat
    requires forall i | 0 <= i < |s| :: IsDigit(s[i])
  {
    if s == [] then 0 else
      assert IsDigit(s[|s| - 1]);
      10 * ParseNumber(s[..|s| - 1]) + (s[|s| - 1] as int - '0' as int)
  }

  /** `re.fullmatch(r"/vacancy/(\d+)/?", path)`. */
  function VacancyPath(path: string): Option<nat> {
    if !(VACANCY_PATH <= path) then None else
      var body := path[|VACANCY_PATH|..];
      var number := if body != [] && body[|body| - 1] == '/' then body[..|body| - 1] else body;
      if IsNumber(number) then Some(ParseNumber(number)) else None
  }

  /** The vacancy a matched URL points to, if it is one of hh.ru. */
  function VacancyOf(rawUrl: string): Option<nat> {
    var url := StripTrailing(rawUrl);
    if IsHhHost(Hostname(url)) then VacancyPath(Path(url)) else None
  }

  function Collect(idOf: string -> Option<nat>, urls: seq<string>): seq<nat> {
    if urls == [] then [] else
      Collect(idOf, urls[..|urls| - 1]) +
      match idOf(urls[|urls| - 1])
      case Some(id) => [id]
      case None => []
  }

  /** All vacancy ids in a message, in order. */
  function VacancyIds(text: string): seq<nat> {
    Collect(VacancyOf, FindUrls(text))
  }

  function ParseVacancyId(text: string): Outcome<nat, UrlError> {
    var ids := VacancyIds(text);
    if |ids| > 1 then Raised(MultipleVacancyUrls)
    else if ids == [] then Raised(InvalidVacancyUrl)
    else Returned(ids[0])
  }

  lemma CollectStep(urls: seq<string>, i: nat)
    requires i < |urls|
    ensures Collect(VacancyOf, urls[..i + 1]) ==
            Collect(VacancyOf, urls[..i]) + if VacancyOf(urls[i]).Some? then [VacancyOf(urls[i]).value] else []
  {
    hide VacancyOf;
    assert urls[..i + 1][..i] == urls[..i];
  }

  method ParseHhVacancyId(messageText: string) returns (r: Outcome<nat, UrlError>)
    ensures r == ParseVacancyId(messageText)
  {
    hide Hostname, Path, VacancyPath, FindUrls, Collect, StripTrailing, IsHhHost;
    var vacancyIds: seq<nat> := [];
    var urls := FindUrls(messageText);
    assert urls[..0] == [];
    CollectNone();
    for i := 0 to |urls|
      invariant vacancyIds == Collect(VacancyOf, urls[..i])
    {
      CollectStep(urls, i);
      var url := StripTrailing(urls[i]);
      if !IsHhHost(Hostname(url)) {
        continue;
      }
      var id := VacancyPath(Path(url));
      if id.None? {
        continue;
      }
      vacancyIds := vacancyIds + [id.value];
    }
    assert urls[..|urls|] == urls;
    if |vacancyIds| > 1 {
      return Raised(MultipleVacancyUrls);
    }
    if vacancyIds == [] {
      return Raised(InvalidVacancyUrl);
    }
    return Returned(vacancyIds[0]);
  }

  lemma CollectNone()
    ensures Collect(VacancyOf, []) == []
  {
    hide VacancyOf;
  }

  // ---------- Scanning is a homomorphism ----------

  lemma {:induction false} UrlRunStopsAt(a: string, b: string)
    requires b == [] || !IsUrlChar(b[0])
    ensures UrlRun(a + b) == UrlRun(a)
  {
    if a == [] {
      assert a + b == b;
    } else {
      assert (a + b)[1..] == a[1..] + b;
      UrlRunStopsAt(a[1..], b);
    }
  }

  /** A prefix of URL characters cannot straddle a character that no URL contains. */
  lemma PrefixStopsAt(p: string, a: string, b: string)
    requires forall i | 0 <= i < |p| :: IsUrlChar(p[i])
    requires b != [] && !IsUrlChar(b[0])
    ensures p <= a + b <==> p <= a
  {
    if |a| < |p| {
      assert (a + b)[|a|] == b[0] != p[|a|];
    } else {
      assert (a + b)[..|p|] == a[..|p|];
    }
  }

  lemma SchemeStopsAt(a: string, b: string)
    requires b != [] && !IsUrlChar(b[0])
    ensures SchemeLength(a + b) == SchemeLength(a)
  {
    PrefixStopsAt(HTTP, a, b);
    PrefixStopsAt(HTTPS, a, b);
  }

  lemma MatchStopsAt(a: string, b: string)
    requires b != [] && !IsUrlChar(b[0])
    ensures MatchLength(a + b) == MatchLength(a)
  {
    SchemeStopsAt(a, b);
    var p := SchemeLength(a);
    if p > 0 {
      assert (a + b)[p..] == a[p..] + b;
      UrlRunStopsAt(a[p..], b);
    }
  }

  /** A character outside every URL, such as whitespace, cuts the scan in two. */
  lemma {:induction false} FindUrlsSplits(a: string, gap: char, b: string)
    requires !IsUrlChar(gap)
    ensures FindUrls(a + [gap] + b) == FindUrls(a) + FindUrls(b)
    decreases |a|
  {
    hide MatchLength, IsUrlChar;
    var s := a + [gap] + b;
    assert s == a + ([gap] + b);
    MatchStopsAt(a, [gap] + b);
    var k := MatchLength(a);
    if a == [] {
      assert s[1..] == b;
    } else if k > 0 {
      assert s[..k] == a[..k];
      assert s[k..] == a[k..] + [gap] + b;
      FindUrlsSplits(a[k..], gap, b);
    } else {
      assert s[1..] == a[1..] + [gap] + b;
      FindUrlsSplits(a[1..], gap, b);
    }
  }

  lemma {:induction false} CollectConcat(idOf: string -> Option<nat>, xs: seq<string>, ys: seq<string>)
    ensures Collect(idOf, xs + ys) == Collect(idOf, xs) + Collect(idOf, ys)
    decreases |ys|
  {
    if ys == [] {
      assert xs + ys == xs;
    } else {
      assert (xs + ys)[..|xs + ys| - 1] == xs + ys[..|ys| - 1];
      CollectConcat(idOf, xs, ys[..|ys| - 1]);
    }
  }

  /** The vacancies of two texts joined by whitespace are those of the first, then those of the second. */
  lemma VacancyIdsSplit(a: string, gap: char, b: string)
    requires !IsUrlChar(gap)
    ensures VacancyIds(a + [gap] + b) == VacancyIds(a) + VacancyIds(b)
  {
    FindUrlsSplits(a, gap, b);
    CollectConcat(VacancyOf, FindUrls(a), FindUrls(b));
  }

  // ---------- What a match is ----------

  predicate EndsUrl(c: char) {
    IsSpace(c) || c in {'<', '>', '(', ')'}
  }

  /** A scheme at position `i`, and behind it a character that does not end a URL. */
  predicate StartsAt(s: string, i: nat)
    requires i <= |s|
  {
    || ("http://" <= s[i..] && i + 7 < |s| && !EndsUrl(s[i + 7]))
    || ("https://" <= s[i..] && i + 8 < |s| && !EndsUrl(s[i + 8]))
  }

  lemma MatchesWhereItStarts(s: string)
    ensures MatchLength(s) > 0 <==> StartsAt(s, 0)
  {
    assert s[0..] == s;
    assert HTTP <= s ==> s[4] == HTTP[4] == ':';
    assert HTTPS <= s ==> s[4] == HTTPS[4] == 's';
    var p := SchemeLength(s);
    if 0 < p < |s| {
      assert s[p..][0] == s[p];
    }
  }

  lemma StartsLater(s: string, k: nat)
    requires k < |s|
    ensures StartsAt(s[1..], k) == StartsAt(s, k + 1)
  {
    assert s[1..][k..] == s[k + 1..];
  }

  /** A match runs to the first character that ends a URL. */
  lemma MatchRuns(s: string, j: nat)
    requires StartsAt(s, 0) && j <= |s|
    requires (forall k | 0 <= k < j :: !EndsUrl(s[k])) && (j < |s| ==> EndsUrl(s[j]))
    ensures MatchLength(s) == j
  {
    MatchesWhereItStarts(s);
    var p := SchemeLength(s);
    var r := UrlRun(s[p..]);
    SchemeHasUrlChars(s);
    assert forall k | 0 <= k < r :: IsUrlChar(s[p..][k]) && s[p..][k] == s[p + k];
    if p + r < |s| {
      assert s[p..][r] == s[p + r];
    }
  }

  lemma SchemeHasUrlChars(s: string)
    ensures forall k | 0 <= k < SchemeLength(s) :: IsUrlChar(s[k])
  {
    forall k | 0 <= k < SchemeLength(s) ensures IsUrlChar(s[k]) {
      assert s[k] == if SchemeLength(s) == |HTTPS| then HTTPS[k] else HTTP[k];
    }
  }

  /** The scan takes the first position where a match starts, runs on to its end, and goes on from there. */
  lemma {:induction false} FirstMatch(s: string, i: nat, j: nat)
    requires i <= j <= |s| && StartsAt(s, i) && forall k | 0 <= k < i :: !StartsAt(s, k)
    requires (forall k | i <= k < j :: !EndsUrl(s[k])) && (j < |s| ==> EndsUrl(s[j]))
    ensures FindUrls(s) == [s[i..j]] + FindUrls(s[j..])
    decreases |s|
  {
    hide MatchLength, EndsUrl, StartsAt;
    MatchesWhereItStarts(s);
    if i == 0 {
      MatchRuns(s, j);
      assert s[0..j] == s[..j];
    } else {
      forall k | 0 <= k < i ensures StartsAt(s[1..], k) == StartsAt(s, k + 1) {
        StartsLater(s, k);
      }
      FirstMatch(s[1..], i - 1, j - 1);
      assert s[1..][i - 1..j - 1] == s[i..j] && s[1..][j - 1..] == s[j..];
    }
  }

  lemma {:induction false} NoMatch(s: string)
    requires forall i | 0 <= i <= |s| :: !StartsAt(s, i)
    ensures FindUrls(s) == []
  {
    hide MatchLength, StartsAt;
    if s != [] {
      MatchesWhereItStarts(s);
      forall k | 0 <= k < |s| ensures !StartsAt(s[1..], k) {
        StartsLater(s, k);
      }
      NoMatch(s[1..]);
    }
  }

  /** Trailing punctuation: all of it is cut off, and nothing else. */
  lemma {:induction false} StripTrailingIs(s: string)
    ensures var r := StripTrailing(s);
      && r <= s && (r != "" ==> r[|r| - 1] !in ".,;:!?)]}")
      && forall k | |r| <= k < |s| :: s[k] in ".,;:!?)]}"
  {
    hide TRAILING;
    if s != [] {
      TrailingListed(s[|s| - 1]);
      if s[|s| - 1] in TRAILING {
        StripTrailingIs(s[..|s| - 1]);
      }
    }
  }

  lemma TrailingListed(c: char)
    ensures c in TRAILING <==> c in ".,;:!?)]}"
  {
  }

  /** One vacancy is returned; none and several are told apart. */
  lemma CountDecides(text: string)
    ensures VacancyIds(text) == [] <==> ParseVacancyId(text) == Raised(InvalidVacancyUrl)
    ensures |VacancyIds(text)| >= 2 <==> ParseVacancyId(text) == Raised(MultipleVacancyUrls)
    ensures forall n: nat :: VacancyIds(text) == [n] <==> ParseVacancyId(text) == Returned(n)
  {
    hide VacancyIds;
    forall n: nat ensures VacancyIds(text) == [n] <==> ParseVacancyId(text) == Returned(n) {
      if |VacancyIds(text)| == 1 {
        assert VacancyIds(text) == [VacancyIds(text)[0]];
      }
    }
  }

  // ---------- Which hosts and paths are accepted ----------

  /** hh.ru and what ends in a dot and hh.ru; nothing that only looks like it. */
  lemma HostAcceptedIff(host: string)
    ensures IsHhHost(host) <==> host == "hh.ru" || exists sub :: host == sub + ".hh.ru"
  {
    if IsHhHost(host) && host != "hh.ru" {
      assert host == host[..|host| - 6] + ".hh.ru";
    }
    if sub :| host == sub + ".hh.ru" {
      assert host[|host| - 6..] == ".hh.ru";
    }
  }

  /** The path of a vacancy: nothing but its number, and possibly one slash behind it. */
  lemma PathAcceptedIff(path: string, n: nat)
    ensures VacancyPath(path) == Some(n) <==>
            exists digits :: IsNumber(digits) && ParseNumber(digits) == n
                             && (path == "/vacancy/" + digits || path == "/vacancy/" + digits + "/")
  {
    if VacancyPath(path) == Some(n) {
      var body := path[9..];
      var number := if body != [] && body[|body| - 1] == '/' then body[..|body| - 1] else body;
      assert path == "/vacancy/" + body;
      assert path == "/vacancy/" + number || path == "/vacancy/" + number + "/";
    } else if digits :|
        IsNumber(digits) && ParseNumber(digits) == n
        && (path == "/vacancy/" + digits || path == "/vacancy/" + digits + "/") {
      NumberedPath(path, digits);
    }
  }

  lemma NumberedPath(path: string, digits: string)
    requires IsNumber(digits) && (path == "/vacancy/" + digits || path == "/vacancy/" + digits + "/")
    ensures VacancyPath(path) == Some(ParseNumber(digits))
  {
    var body := path[9..];
    if path == "/vacancy/" + digits {
      assert body == digits;
      assert IsDigit(body[|body| - 1]);
    } else {
      assert body == digits + "/";
      assert body[..|body| - 1] == digits;
    }
  }

  /** User information with its at sign, a host, and a port with its colon, as they stand in a URL. */
  predicate IsAuthority(user: string, host: string, port: string) {
    && (user == "" || user[|user| - 1] == '@') && (port == "" || port[0] == ':')
    && (forall i | 0 <= i < |user| :: user[i] !in {'/', '?', '#'})
    && (forall i | 0 <= i < |host| :: host[i] !in {'/', '?', '#', '@', ':'})
    && (forall i | 0 <= i < |port| :: port[i] !in {'/', '?', '#', '@'})
  }

  /** A path without parameters, and a query or fragment behind it. */
  predicate IsPathAndQuery(path: string, query: string) {
    && (path == "" || path[0] == '/') && (query == "" || query[0] in {'?', '#'})
    && (forall i | 0 <= i < |path| :: path[i] !in {'?', '#', ';'})
  }

  lemma HostOf(user: string, host: string, port: string)
    requires IsAuthority(user, host, port)
    ensures Before(AfterLast(user + host + port, '@'), {':'}) == host
  {
    var rest := host + port;
    assert user + host + port == user + rest;
    assert '@' !in rest;
    if user == "" {
      assert user + rest == rest;
    } else {
      AfterLastStops(user, rest, '@');
    }
    BeforeStops(host, port, {':'});
  }

  lemma NoParameters(path: string)
    requires ';' !in path
    ensures WithoutParameters(path) == path
  {
    hide AfterLast, Before;
    var last := AfterLast(path, '/');
    assert forall i | 0 <= i < |last| :: last[i] == path[|path| - |last| + i] != ';';
    assert last + [] == last;
    BeforeStops(last, [], {';'});
  }

  /**
   A link is a vacancy exactly if its host is hh.ru or ends in a dot and hh.ru, in any case, and its path is that of a
   vacancy; user information, port, query and fragment do not matter.
   */
  lemma LinkAcceptedIff(scheme: string, user: string, host: string, port: string, path: string, query: string, n: nat)
    requires scheme in {"http://", "https://"} && IsAuthority(user, host, port) && IsPathAndQuery(path, query)
    requires var url := scheme + (user + host + port) + (path + query); url[|url| - 1] !in ".,;:!?)]}"
    ensures VacancyOf(scheme + (user + host + port) + (path + query)) == Some(n) <==>
            && (Lower(host) == "hh.ru" || exists sub :: Lower(host) == sub + ".hh.ru")
            && exists digits :: IsNumber(digits) && ParseNumber(digits) == n
                                && (path == "/vacancy/" + digits || path == "/vacancy/" + digits + "/")
  {
    hide VacancyPath, IsHhHost, Before, AfterLast, WithoutParameters;
    var authority := user + host + port;
    var url := scheme + authority + (path + query);
    StripTrailingIs(url);
    assert StripTrailing(url) == url;
    assert forall i | 0 <= i < |authority| :: authority[i] !in {'/', '?', '#'};
    Components(scheme, authority, path, query);
    HostOf(user, host, port);
    NoParameters(path);
    HostAcceptedIff(Lower(host));
    PathAcceptedIff(path, n);
  }

  // ---------- Canonical URLs parse back ----------

  function Digits(n: nat): (s: string)
    ensures IsNumber(s)
    ensures ParseNumber(s) == n
  {
    var last := '0' + (n % 10) as char;
    if n < 10 then [last] else
      assert (Digits(n / 10) + [last])[..|Digits(n / 10)|] == Digits(n / 10);
      Digits(n / 10) + [last]
  }

  /** A regional subdomain with its dot, or nothing. */
  predicate IsSubdomain(sub: string) {
    && (sub != [] ==> sub[|sub| - 1] == '.')
    && forall i | 0 <= i < |sub| :: IsUrlChar(sub[i]) && sub[i] !in {'/', '?', '#', '@', ':'}
  }

  /** Trailing punctuation, possibly behind a query or fragment. */
  predicate IsTail(tail: string) {
    && (forall i | 0 <= i < |tail| :: IsUrlChar(tail[i]))
    && (StripTrailing(tail) != [] ==> tail[0] in {'?', '#'})
  }

  function VacancyUrl(scheme: string, sub: string, n: nat, slash: string): string {
    scheme + (sub + ROOT_HOST) + (VACANCY_PATH + Digits(n) + slash)
  }

  lemma {:induction false} StripTrailingKeeps(a: string, b: string)
    requires a != [] && a[|a| - 1] !in TRAILING
    ensures StripTrailing(a + b) == a + StripTrailing(b)
    decreases |b|
  {
    if b == [] {
      assert a + b == a;
    } else {
      assert (a + b)[|a + b| - 1] == b[|b| - 1];
      if b[|b| - 1] in TRAILING {
        assert (a + b)[..|a + b| - 1] == a + b[..|b| - 1];
        StripTrailingKeeps(a, b[..|b| - 1]);
      }
    }
  }

  lemma {:induction false} BeforeStops(a: string, b: string, stops: set<char>)
    requires forall i | 0 <= i < |a| :: a[i] !in stops
    requires b == [] || b[0] in stops
    ensures Before(a + b, stops) == a
  {
    if a == [] {
      assert a + b == b;
    } else {
      assert (a + b)[1..] == a[1..] + b;
      BeforeStops(a[1..], b, stops);
    }
  }

  lemma {:induction false} AfterLastStops(a: string, b: string, c: char)
    requires a != [] && a[|a| - 1] == c && c !in b
    ensures AfterLast(a + b, c) == b
    decreases |a|
  {
    var s := a + b;
    assert s[|a| - 1] == c;
    if |a| == 1 {
      assert s[1..] == b;
      assert IndexOf(s, c) == 0;
    } else {
      assert s[1..] == a[1..] + b;
      assert s[1..][|a| - 2] == c;
      AfterLastStops(a[1..], b, c);
    }
  }

  lemma {:induction false} StripTrailingIsPrefix(s: string)
    ensures StripTrailing(s) <= s
  {
    if s != [] && s[|s| - 1] in TRAILING {
      StripTrailingIsPrefix(s[..|s| - 1]);
    }
  }

  lemma LowerConcat(a: string, b: string)
    ensures Lower(a + b) == Lower(a) + Lower(b)
  {
  }

  /** The components of a URL put together from a scheme, an authority, a path and a rest. */
  lemma Components(scheme: string, authority: string, path: string, tail: string)
    requires scheme in {HTTP, HTTPS}
    requires forall i | 0 <= i < |authority| :: authority[i] !in {'/', '?', '#'}
    requires (path == [] || path[0] == '/') && forall i | 0 <= i < |path| :: path[i] !in {'?', '#'}
    requires tail == [] || tail[0] in {'?', '#'}
    ensures var url := scheme + authority + (path + tail);
      Authority(url) == authority && Path(url) == WithoutParameters(path)
  {
    var rest := path + tail;
    var url := scheme + authority + rest;
    assert url == scheme + (authority + rest);
    SchemeOf(scheme, authority + rest);
    assert url[|scheme|..] == authority + rest;
    BeforeStops(authority, rest, {'/', '?', '#'});
    assert url[|scheme| + |authority|..] == rest;
    BeforeStops(path, tail, {'?', '#'});
  }

  lemma Regroup(a: string, b: string, c: string)
    ensures a + b + c == a + (b + c)
  {
  }

  lemma CanonicalComponents(scheme: string, sub: string, n: nat, slash: string, tail: string)
    requires scheme in {HTTP, HTTPS} && IsSubdomain(sub) && slash in {"", "/"}
    requires tail == [] || tail[0] in {'?', '#'}
    ensures var url := VacancyUrl(scheme, sub, n, slash) + tail;
      && Authority(url) == sub + ROOT_HOST
      && Path(url) == VACANCY_PATH + Digits(n) + slash
  {
    PathChars(n, slash);
    PathParameters(n, slash);
    AuthorityChars(sub);
    var authority, path := sub + ROOT_HOST, VACANCY_PATH + Digits(n) + slash;
    Components(scheme, authority, path, tail);
    Regroup(scheme + authority, path, tail);
  }

  lemma AuthorityChars(sub: string)
    requires IsSubdomain(sub)
    ensures var authority := sub + ROOT_HOST;
      forall i | 0 <= i < |authority| :: authority[i] !in {'/', '?', '#', '@', ':'} && IsUrlChar(authority[i])
  {
    var authority := sub + ROOT_HOST;
    forall i | 0 <= i < |authority|
      ensures authority[i] !in {'/', '?', '#', '@', ':'} && IsUrlChar(authority[i])
    {
      assert authority[i] == if i < |sub| then sub[i] else ROOT_HOST[i - |sub|];
    }
  }

  lemma SchemeOf(scheme: string, rest: string)
    requires scheme in {HTTP, HTTPS}
    ensures SchemeLength(scheme + rest) == |scheme|
  {
    if scheme == HTTP {
      assert (scheme + rest)[4] == ':';
    } else {
      assert (scheme + rest)[..|scheme|] == scheme;
    }
  }

  lemma PathChars(n: nat, slash: string)
    requires slash in {"", "/"}
    ensures var path := VACANCY_PATH + Digits(n) + slash;
      forall i | 0 <= i < |path| :: path[i] !in {'?', '#', ';'} && IsUrlChar(path[i])
  {
    var path := VACANCY_PATH + Digits(n) + slash;
    forall i | 0 <= i < |path| ensures path[i] !in {'?', '#', ';'} && IsUrlChar(path[i]) {
      if |VACANCY_PATH| <= i < |VACANCY_PATH| + |Digits(n)| {
        assert path[i] == Digits(n)[i - |VACANCY_PATH|];
      } else if i < |VACANCY_PATH| {
        assert path[i] == VACANCY_PATH[i];
      }
    }
  }

  /** A vacancy path has no parameters to cut off. */
  lemma PathParameters(n: nat, slash: string)
    requires slash in {"", "/"}
    ensures var path := VACANCY_PATH + Digits(n) + slash;
      WithoutParameters(path) == path
  {
    var digits := Digits(n);
    if slash == "/" {
      var path := VACANCY_PATH + digits + slash;
      AfterLastStops(path, [], '/');
      assert path + [] == path;
    } else {
      var path := VACANCY_PATH + digits;
      assert path + slash == path;
      AfterLastStops(VACANCY_PATH, digits, '/');
      BeforeStops(digits, [], {';'});
      assert digits + [] == digits;
    }
  }

  lemma RootHostIsLower()
    ensures Lower(ROOT_HOST) == ROOT_HOST
  {
  }

  lemma SubdomainHost(sub: string, root: string)
    requires sub != [] && sub[|sub| - 1] == '.'
    ensures EndsWith(sub + root, "." + root)
  {
    assert (sub + root)[|sub| - 1..] == "." + root;
  }

  lemma CanonicalHost(sub: string)
    requires IsSubdomain(sub)
    ensures IsHhHost(Lower(Before(AfterLast(sub + ROOT_HOST, '@'), {':'})))
  {
    var authority := sub + ROOT_HOST;
    assert '@' !in authority && Before(authority, {':'}) == authority by {
      AuthorityChars(sub);
      BeforeStops(authority, [], {':'});
      assert authority + [] == authority;
    }
    LowerConcat(sub, ROOT_HOST);
    RootHostIsLower();
    if sub != [] {
      SubdomainHost(Lower(sub), ROOT_HOST);
    }
  }

  lemma CanonicalPath(n: nat, slash: string)
    requires slash in {"", "/"}
    ensures VacancyPath(VACANCY_PATH + Digits(n) + slash) == Some(n)
  {
    hide VacancyPath, Digits;
    var path := VACANCY_PATH + Digits(n);
    assert slash == "" ==> path + slash == path;
    NumberedPath(path + slash, Digits(n));
  }

  /**
   Every spelling of a vacancy link is read back as its id: either scheme, any regional subdomain, an optional
   final slash, a query or fragment, and trailing punctuation.
   */
  lemma VacancyUrlRoundTrip(scheme: string, sub: string, n: nat, slash: string, tail: string)
    requires scheme in {HTTP, HTTPS} && IsSubdomain(sub) && slash in {"", "/"} && IsTail(tail)
    ensures VacancyOf(VacancyUrl(scheme, sub, n, slash) + tail) == Some(n)
  {
    var core := VacancyUrl(scheme, sub, n, slash);
    var last := core[|core| - 1];
    assert last == if slash == "/" then '/' else Digits(n)[|Digits(n)| - 1];
    assert last !in TRAILING;
    StripTrailingKeeps(core, tail);
    StripTrailingIsPrefix(tail);
    var kept := StripTrailing(tail);
    CanonicalComponents(scheme, sub, n, slash, kept);
    CanonicalHost(sub);
    CanonicalPath(n, slash);
  }

  lemma {:induction false} UrlRunOf(s: string)
    requires forall i | 0 <= i < |s| :: IsUrlChar(s[i])
    ensures UrlRun(s) == |s|
  {
    if s != [] {
      UrlRunOf(s[1..]);
    }
  }

  /** A message that is one vacancy link yields one match, the whole message. */
  lemma VacancyUrlIsOneMatch(scheme: string, sub: string, n: nat, slash: string, tail: string)
    requires scheme in {HTTP, HTTPS} && IsSubdomain(sub) && slash in {"", "/"} && IsTail(tail)
    ensures VacancyIds(VacancyUrl(scheme, sub, n, slash) + tail) == [n]
  {
    var authority, path := sub + ROOT_HOST, VACANCY_PATH + Digits(n) + slash;
    PathChars(n, slash);
    AuthorityChars(sub);
    OneMatch(scheme, authority, path, tail);
    VacancyUrlRoundTrip(scheme, sub, n, slash, tail);
    CollectOne(VacancyOf, VacancyUrl(scheme, sub, n, slash) + tail);
  }

  /** The canonical link of a vacancy. */
  function Link(n: nat): string {
    VacancyUrl(HTTPS, "", n, "")
  }

  lemma LinkParses(n: nat)
    ensures ParseVacancyId(Link(n)) == Returned(n)
  {
    hide VacancyIds, VacancyUrl;
    VacancyUrlIsOneMatch(HTTPS, "", n, "", "");
    assert VacancyUrl(HTTPS, "", n, "") + "" == VacancyUrl(HTTPS, "", n, "");
  }

  lemma CollectOne(idOf: string -> Option<nat>, url: string)
    ensures Collect(idOf, [url]) == if idOf(url).Some? then [idOf(url).value] else []
  {
    assert [url][..0] == [];
    assert Collect(idOf, []) == [];
  }

  lemma OneMatch(scheme: string, authority: string, path: string, tail: string)
    requires scheme in {HTTP, HTTPS} && path != []
    requires forall i | 0 <= i < |authority| :: IsUrlChar(authority[i])
    requires forall i | 0 <= i < |path| :: IsUrlChar(path[i])
    requires forall i | 0 <= i < |tail| :: IsUrlChar(tail[i])
    ensures var url := scheme + authority + path + tail; FindUrls(url) == [url]
  {
    var rest := authority + path + tail;
    var url := scheme + authority + path + tail;
    assert url == scheme + rest;
    SchemeOf(scheme, rest);
    UrlRunOf(rest);
    assert url[|scheme|..] == rest;
    assert url[..|url|] == url && url[|url|..] == [];
  }

  /** One link among other words is found; a second one is refused. */
  lemma LinkInText(a: string, gap: char, b: string, n: nat)
    requires !IsUrlChar(gap) && VacancyIds(b) == [n]
    ensures ParseVacancyId(a + [gap] + b) == if VacancyIds(a) == [] then Returned(n) else Raised(MultipleVacancyUrls)
  {
    VacancyIdsSplit(a, gap, b);
    if VacancyIds(a) == [] {
      assert VacancyIds(a) + [n] == [n];
    }
  }
}
