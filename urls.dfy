/** The part of Python's `urllib.parse.urlparse` that `ToolPath.is_url`
    observes: the scheme (section 3.1 of RFC 3986) and the network location
    (the authority of section 3.2 of RFC 3986), and the one malformed input
    that makes the parser raise `ValueError` (an unmatched IPv6 bracket). */
module Urls {
  import opened Wrappers

  datatype UrlParts = UrlParts(scheme: string, netloc: string, rest: string)

  datatype UrlError = InvalidIPv6

  predicate IsAlpha(c: char) {
    'a' <= c <= 'z' || 'A' <= c <= 'Z'
  }

  predicate IsDigit(c: char) {
    '0' <= c <= '9'
  }

  /** scheme = ALPHA *( ALPHA / DIGIT / "+" / "-" / "." ) */
  predicate IsSchemeChar(c: char) {
    IsAlpha(c) || IsDigit(c) || c == '+' || c == '-' || c == '.'
  }

  /** The characters that end the authority. */
  predicate IsDelim(c: char) {
    c == '/' || c == '?' || c == '#'
  }

  function LowerChar(c: char): char {
    if 'A' <= c <= 'Z' then (c as int + 32) as char else c
  }

  function Lower(s: string): (r: string)
    ensures |r| == |s|
  {
    seq(|s|, k requires 0 <= k < |s| => LowerChar(s[k]))
  }

  /** The index of the first ':' in `s`, or `|s|` when there is none. */
  function FindColon(s: string): (i: nat)
    ensures i <= |s|
    ensures i < |s| ==> s[i] == ':'
    ensures forall k | 0 <= k < i :: s[k] != ':'
  {
    if s == [] || s[0] == ':' then 0 else 1 + FindColon(s[1..])
  }

  /** The index of the first delimiter in `s`, or `|s|` when there is none. */
  function FindDelim(s: string): (i: nat)
    ensures i <= |s|
    ensures i < |s| ==> IsDelim(s[i])
    ensures forall k | 0 <= k < i :: !IsDelim(s[k])
  {
    if s == [] || IsDelim(s[0]) then 0 else 1 + FindDelim(s[1..])
  }

  /** A bracket without its partner makes the parser raise `ValueError`. */
  predicate Balanced(netloc: string) {
    ('[' in netloc) == (']' in netloc)
  }

  /** Splits off the scheme when the text before the first ':' is a valid
      non-empty scheme; otherwise there is no scheme. */
  function SplitScheme(s: string): (string, string) {
    var i := FindColon(s);
    if 0 < i < |s| && IsAlpha(s[0]) && forall k | 0 <= k < i :: IsSchemeChar(s[k])
    then (Lower(s[..i]), s[i + 1..])
    else ("", s)
  }

  /** `urlsplit`: the scheme, then, after a leading "//", the authority up to
      the first '/', '?' or '#'. */
  function UrlSplit(s: string): Result<UrlParts, UrlError> {
    var (scheme, rest) := SplitScheme(s);
    if |rest| >= 2 && rest[0] == '/' && rest[1] == '/' then
      var d := 2 + FindDelim(rest[2..]);
      var netloc := rest[2..d];
      if Balanced(netloc) then Success(UrlParts(scheme, netloc, rest[d..]))
      else Failure(InvalidIPv6)
    else Success(UrlParts(scheme, "", rest))
  }

  /** `ToolPath.is_url`: a non-empty scheme and a non-empty network location;
      false when parsing raises `ValueError`. */
  function IsUrl(s: string): bool {
    match UrlSplit(s)
    case Success(p) => p.scheme != "" && p.netloc != ""
    case Failure(_) => false
  }

  // An independent description of a remote reference, by positions in the
  // string: `i` is the ':' that ends the scheme, `j` ends the authority.

  ghost predicate SchemeEndsAt(s: string, i: int) {
    0 < i < |s| && s[i] == ':' && IsAlpha(s[0]) &&
    forall k | 0 <= k < i :: IsSchemeChar(s[k])
  }

  ghost predicate AuthorityEndsAt(s: string, i: int, j: int) {
    0 <= i && i + 3 < j <= |s| && s[i + 1] == '/' && s[i + 2] == '/' &&
    (forall k | i + 3 <= k < j :: !IsDelim(s[k])) &&
    (j == |s| || IsDelim(s[j])) &&
    Balanced(s[i + 3..j])
  }

  /** `scheme "://" authority` with a valid scheme, a non-empty authority
      and no unmatched bracket in it, followed by anything that starts with a
      delimiter. */
  ghost predicate IsRemote(s: string) {
    exists i, j :: SchemeEndsAt(s, i) && AuthorityEndsAt(s, i, j)
  }

  lemma SchemeEndIsFirstColon(s: string, i: int)
    requires SchemeEndsAt(s, i)
    ensures FindColon(s) == i
  {
  }

  lemma UrlIsRemote(s: string)
    requires IsUrl(s)
    ensures IsRemote(s)
  {
    var i := FindColon(s);
    var (scheme, rest) := SplitScheme(s);
    assert scheme != "";
    assert SchemeEndsAt(s, i) && rest == s[i + 1..];
    var t := rest[2..];
    assert t == s[i + 3..];
    var f := FindDelim(t);
    var j := i + 3 + f;
    assert rest[2..2 + f] == s[i + 3..j];
    assert f > 0;
    assert forall k | i + 3 <= k < j :: s[k] == t[k - i - 3];
    assert j < |s| ==> s[j] == t[f];
    assert AuthorityEndsAt(s, i, j);
  }

  lemma SplitAtSchemeEnd(s: string, i: int)
    requires SchemeEndsAt(s, i)
    ensures SplitScheme(s) == (Lower(s[..i]), s[i + 1..])
  {
    SchemeEndIsFirstColon(s, i);
  }

  lemma DelimAtAuthorityEnd(s: string, i: int, j: int)
    requires AuthorityEndsAt(s, i, j)
    ensures FindDelim(s[i + 3..]) == j - i - 3
  {
    var t := s[i + 3..];
    assert forall k | 0 <= k < j - i - 3 :: t[k] == s[k + i + 3];
    assert j < |s| ==> t[j - i - 3] == s[j];
  }

  /** A remote reference splits at its scheme end and its authority end. */
  lemma SplitOfRemote(s: string, i: int, j: int)
    requires SchemeEndsAt(s, i) && AuthorityEndsAt(s, i, j)
    ensures UrlSplit(s) == Success(UrlParts(Lower(s[..i]), s[i + 3..j], s[j..]))
  {
    SplitAtSchemeEnd(s, i);
    DelimAtAuthorityEnd(s, i, j);
    AfterScheme(s, i, j);
    SplitWithAuthority(s, Lower(s[..i]), s[i + 1..], j - i - 1);
  }

  lemma SplitWithAuthority(s: string, scheme: string, rest: string, d: int)
    requires SplitScheme(s) == (scheme, rest)
    requires |rest| >= 2 && rest[0] == '/' && rest[1] == '/'
    requires d == 2 + FindDelim(rest[2..]) && Balanced(rest[2..d])
    ensures UrlSplit(s) == Success(UrlParts(scheme, rest[2..d], rest[d..]))
  {
  }

  lemma AfterScheme(s: string, i: int, j: int)
    requires 0 <= i && i + 3 <= j <= |s| && s[i + 1] == '/' && s[i + 2] == '/'
    ensures var rest := s[i + 1..];
      && |rest| >= 2 && rest[0] == '/' && rest[1] == '/'
      && rest[2..] == s[i + 3..]
      && rest[2..j - i - 1] == s[i + 3..j]
      && rest[j - i - 1..] == s[j..]
  {
  }

  lemma RemoteIsUrl(s: string)
    requires IsRemote(s)
    ensures IsUrl(s)
  {
    var i, j :| SchemeEndsAt(s, i) && AuthorityEndsAt(s, i, j);
    SplitOfRemote(s, i, j);
    assert |Lower(s[..i])| == i;
    assert |s[i + 3..j]| == j - i - 3;
  }

  /** `is_url` holds exactly of the remote references. */
  lemma IsUrlIff(s: string)
    ensures IsUrl(s) <==> IsRemote(s)
  {
    if IsUrl(s) {
      UrlIsRemote(s);
    }
    if IsRemote(s) {
      RemoteIsUrl(s);
    }
  }

  lemma SplitValidScheme(scheme: string, tail: string)
    requires |scheme| > 0 && IsAlpha(scheme[0])
    requires forall k | 0 <= k < |scheme| :: IsSchemeChar(scheme[k])
    ensures SplitScheme(scheme + ":" + tail) == (Lower(scheme), tail)
  {
    var s := scheme + ":" + tail;
    assert SchemeEndsAt(s, |scheme|);
    SchemeEndIsFirstColon(s, |scheme|);
    assert s[..|scheme|] == scheme;
    assert s[|scheme| + 1..] == tail;
  }

  lemma FindDelimAfterHost(host: string, path: string)
    requires forall k | 0 <= k < |host| :: !IsDelim(host[k])
    requires path == [] || IsDelim(path[0])
    ensures FindDelim(host + path) == |host|
  {
    var t := host + path;
    var f := FindDelim(t);
    if |host| < |t| {
      assert t[|host|] == path[0];
    }
  }

  /** Composing a valid scheme, "://", a non-empty authority without
      delimiters or brackets, and a path that starts with a delimiter always
      gives a remote reference, and parsing it recovers the lower-cased
      scheme, the host and the path. */
  lemma ComposedUrl(scheme: string, host: string, path: string)
    requires |scheme| > 0 && IsAlpha(scheme[0])
    requires forall k | 0 <= k < |scheme| :: IsSchemeChar(scheme[k])
    requires |host| > 0 && '[' !in host && ']' !in host
    requires forall k | 0 <= k < |host| :: !IsDelim(host[k])
    requires path == [] || IsDelim(path[0])
    ensures UrlSplit(scheme + "://" + host + path) == Success(UrlParts(Lower(scheme), host, path))
    ensures IsUrl(scheme + "://" + host + path)
  {
    var tail := "//" + host + path;
    assert scheme + "://" + host + path == scheme + ":" + tail;
    SplitValidScheme(scheme, tail);
    AuthorityOf(host, path);
    FindDelimAfterHost(host, path);
  }

  lemma AuthorityOf(host: string, path: string)
    ensures var rest := "//" + host + path;
      && |rest| >= 2 && rest[0] == '/' && rest[1] == '/'
      && rest[2..] == host + path
      && rest[2..2 + |host|] == host
      && rest[2 + |host|..] == path
  {
  }

  const ToolkitScheme := "https"
  const ToolkitHost := "github.com"
  const ToolkitRepository := "/log2timeline/plaso.git"

  /** The toolkit location `check_config` falls back to,
      "https://github.com/log2timeline/plaso.git". */
  const DefaultToolkit := ToolkitScheme + "://" + ToolkitHost + ToolkitRepository

  /** The default toolkit location of the configuration is a remote reference. */
  lemma DefaultToolkitIsUrl()
    ensures IsUrl(DefaultToolkit)
  {
    assert forall k | 0 <= k < |ToolkitScheme| :: IsSchemeChar(ToolkitScheme[k]);
    assert forall k | 0 <= k < |ToolkitHost| :: !IsDelim(ToolkitHost[k]);
    assert '[' !in ToolkitHost && ']' !in ToolkitHost;
    ComposedUrl(ToolkitScheme, ToolkitHost, ToolkitRepository);
  }

  /** A string without ':' is never a remote reference. */
  lemma NoColonIsLocal(s: string)
    requires ':' !in s
    ensures !IsUrl(s)
  {
    IsUrlIff(s);
  }

  /** A drive-letter path such as `C:\scripts` has a scheme but no network
      location, so it is not a remote reference. */
  lemma DriveLetterIsLocal(d: char, path: string)
    requires IsAlpha(d)
    ensures !IsUrl([d, ':', '\\'] + path)
  {
    var s := [d, ':', '\\'] + path;
    assert s[1..][0] == ':';
    assert FindColon(s) == 1;
    var (scheme, rest) := SplitScheme(s);
    assert rest == s[2..] && rest[0] == '\\';
  }
}
