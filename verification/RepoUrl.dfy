/**
 * The two rules a repository URL meets: the API's, on the way in, and the workspace's, before git is
 * pointed at it. Parsing a URL is a parameter; what is assumed of it is in `LikeUrl`.
 */
module RepoUrl {
  import opened Common

  const GIT_URL_SUFFIX := ".git"
  const REPO_PATH_SEGMENTS := 2
  const DEFAULT_ALLOWED_SCHEME := "https://"
  const NON_AUTHORITY_CHARACTERS := {'/', '\\', '?', '#', '@'}

  /** A parsed URL. */
  datatype Url = Url(origin: string, username: string, password: string, pathname: string, search: string,
                     hash: string, href: string)

  type Parser = string -> Option<Url>

  // ---------------------------------------------------------------- paths

  predicate EndsWith(s: string, suffix: string) {
    |suffix| <= |s| && s[|s| - |suffix|..] == suffix
  }

  predicate SegmentChar(c: char) {
    IsAlphanumeric(c) || c in {'.', '_', '-'}
  }

  /** A character or more, all of them allowed in an owner or repository name. */
  predicate Segment(s: string) {
    s != "" && forall i :: 0 <= i < |s| ==> SegmentChar(s[i])
  }

  function SplitPath(s: string): (parts: seq<string>)
    ensures |parts| >= 1
  {
    if s == "" then [""]
    else
      var rest := SplitPath(s[1..]);
      if s[0] == '/' then [""] + rest else [[s[0]] + rest[0]] + rest[1..]
  }

  function WithoutSuffix(path: string): string {
    if EndsWith(path, GIT_URL_SUFFIX) then path[..|path| - |GIT_URL_SUFFIX|] else path
  }

  /** The API's rule: drop a `.git`, split at the slashes, and want two segments after the first slash. */
  predicate PlainPath(path: string) {
    var segments := SplitPath(WithoutSuffix(path))[1..];
    |segments| == REPO_PATH_SEGMENTS && Segment(segments[0]) && Segment(segments[1])
  }

  function Slashed(owner: string, repository: string): string {
    "/" + owner + "/" + repository
  }

  /** The workspace's rule, read off its pattern: a slash, an owner, a slash, a name, and perhaps a `.git`. */
  ghost predicate RepositoryPath(path: string) {
    exists owner, repository, suffix :: Fits(path, owner, repository, suffix)
  }

  ghost predicate Fits(path: string, owner: string, repository: string, suffix: string) {
    && Segment(owner) && Segment(repository) && suffix in {"", GIT_URL_SUFFIX}
    && path == Slashed(owner, repository + suffix)
  }

  ghost predicate NoSlash(s: string) {
    forall i :: 0 <= i < |s| ==> s[i] != '/'
  }

  lemma {:induction false} SplitAtSlash(part: string, rest: string)
    requires NoSlash(part)
    ensures SplitPath(part + "/" + rest) == [part] + SplitPath(rest)
  {
    var s := part + "/" + rest;
    if part == "" {
      assert s[1..] == rest;
    } else {
      assert s[1..] == part[1..] + "/" + rest;
      SplitAtSlash(part[1..], rest);
      assert ([part[1..]] + SplitPath(rest))[1..] == SplitPath(rest);
      assert [part[0]] + part[1..] == part;
    }
  }

  lemma {:induction false} SplitWhole(part: string)
    requires NoSlash(part)
    ensures SplitPath(part) == [part]
  {
    if part != "" {
      SplitWhole(part[1..]);
      assert [part[0]] + part[1..] == part;
    }
  }

  lemma SplitSlashed(owner: string, repository: string)
    requires NoSlash(owner) && NoSlash(repository)
    ensures SplitPath(Slashed(owner, repository)) == ["", owner, repository]
  {
    assert Slashed(owner, repository) == "" + "/" + (owner + "/" + repository);
    SplitAtSlash("", owner + "/" + repository);
    SplitAtSlash(owner, repository);
    SplitWhole(repository);
    assert [""] + ([owner] + [repository]) == ["", owner, repository];
  }

  /** The text before the first slash, and the text after it. */
  lemma {:induction false} FirstPart(s: string) returns (tail: string)
    ensures NoSlash(SplitPath(s)[0])
    ensures |SplitPath(s)| == 1 ==> s == SplitPath(s)[0]
    ensures |SplitPath(s)| > 1 ==> s == SplitPath(s)[0] + "/" + tail && SplitPath(s)[1..] == SplitPath(tail)
  {
    tail := "";
    if s != "" {
      if s[0] == '/' {
        tail := s[1..];
        assert s == "" + "/" + tail;
        assert ([""] + SplitPath(tail))[1..] == SplitPath(tail);
      } else {
        tail := FirstPart(s[1..]);
        var rest := SplitPath(s[1..]);
        assert SplitPath(s)[1..] == rest[1..];
        assert s == [s[0]] + s[1..];
      }
    }
  }

  lemma {:induction false} SplitAfterSlash(t: string)
    ensures SplitPath("/" + t) == [""] + SplitPath(t)
  {
    assert ("/" + t)[1..] == t;
  }

  lemma {:induction false} TwoParts(t: string)
    requires |SplitPath(t)| == 2
    ensures t == SplitPath(t)[0] + "/" + SplitPath(t)[1]
  {
    var tail := FirstPart(t);
    var _ := FirstPart(tail);
    assert SplitPath(t)[1..] == [SplitPath(t)[1]];
  }

  /** Two segments after a leading slash are an owner and a name. */
  lemma {:induction false} TwoSegments(s: string)
    requires s != "" && s[0] == '/' && |SplitPath(s)| == 3
    ensures s == Slashed(SplitPath(s)[1], SplitPath(s)[2])
  {
    var t := s[1..];
    assert s == "/" + t;
    SplitAfterSlash(t);
    TwoParts(t);
    assert "/" + (SplitPath(t)[0] + "/" + SplitPath(t)[1]) == Slashed(SplitPath(t)[0], SplitPath(t)[1]);
  }

  lemma SegmentHasNoSlash(s: string)
    requires Segment(s)
    ensures NoSlash(s)
  {
  }

  lemma SegmentJoins(a: string, b: string)
    requires Segment(a) && (b == "" || Segment(b))
    ensures Segment(a + b)
  {
  }

  /** The workspace's pattern says no more than two segments: its optional suffix is made of segment characters. */
  lemma {:induction false} PatternIsTwoSegments(path: string)
    requires path != "" && path[0] == '/'
    ensures RepositoryPath(path) <==>
      var parts := SplitPath(path); |parts| == 3 && Segment(parts[1]) && Segment(parts[2])
  {
    if RepositoryPath(path) {
      var owner, repository, suffix :| Fits(path, owner, repository, suffix);
      SegmentJoins(repository, suffix);
      SegmentHasNoSlash(owner);
      SegmentHasNoSlash(repository + suffix);
      SplitSlashed(owner, repository + suffix);
    }
    var parts := SplitPath(path);
    if |parts| == 3 && Segment(parts[1]) && Segment(parts[2]) {
      TwoSegments(path);
      assert parts[2] + "" == parts[2];
      assert Fits(path, parts[1], parts[2], "");
    }
  }

  /** What the API's rule accepts, written out. */
  lemma PlainIsSlashed(path: string) returns (owner: string, repository: string)
    requires path != "" && path[0] == '/' && PlainPath(path)
    ensures Segment(owner) && Segment(repository) && WithoutSuffix(path) == Slashed(owner, repository)
  {
    var stripped := WithoutSuffix(path);
    assert stripped != "" ==> stripped[0] == path[0];
    assert stripped == "" ==> SplitPath(stripped) == [""];
    TwoSegments(stripped);
    owner, repository := SplitPath(stripped)[1], SplitPath(stripped)[2];
  }

  lemma SuffixBack(path: string)
    ensures path == WithoutSuffix(path) || path == WithoutSuffix(path) + GIT_URL_SUFFIX
  {
    if EndsWith(path, GIT_URL_SUFFIX) {
      assert path == path[..|path| - 4] + path[|path| - 4..];
    }
  }

  /** What the API accepts, the workspace accepts. */
  lemma PlainFitsPattern(path: string)
    requires path != "" && path[0] == '/' && PlainPath(path)
    ensures RepositoryPath(path)
  {
    var owner, repository := PlainIsSlashed(path);
    SuffixBack(path);
    if path == WithoutSuffix(path) {
      assert repository + "" == repository;
      assert Fits(path, owner, repository, "");
    } else {
      assert Slashed(owner, repository) + GIT_URL_SUFFIX == Slashed(owner, repository + GIT_URL_SUFFIX);
      assert Fits(path, owner, repository, GIT_URL_SUFFIX);
    }
  }

  lemma StripsName(owner: string, name: string)
    requires Segment(owner) && Segment(name)
    ensures EndsWith(Slashed(owner, name), GIT_URL_SUFFIX) <==> EndsWith(name, GIT_URL_SUFFIX)
    ensures EndsWith(name, GIT_URL_SUFFIX) ==>
              WithoutSuffix(Slashed(owner, name)) == Slashed(owner, name[..|name| - |GIT_URL_SUFFIX|])
  {
    var path := Slashed(owner, name);
    if |name| >= 4 {
      assert path[|path| - 4..] == name[|name| - 4..];
    } else {
      assert |path| >= 4 ==> path[|path| - 4..][3 - |name|] == '/';
      assert GIT_URL_SUFFIX[0] != '/' && GIT_URL_SUFFIX[1] != '/' && GIT_URL_SUFFIX[2] != '/';
    }
  }

  /** A path whose repository is named `.git`. */
  ghost predicate NamedGit(path: string) {
    exists owner :: Segment(owner) && path == Slashed(owner, GIT_URL_SUFFIX)
  }

  lemma GitIsNotPlain(path: string, owner: string)
    requires Segment(owner) && path == Slashed(owner, GIT_URL_SUFFIX)
    ensures RepositoryPath(path) && !PlainPath(path)
  {
    assert Segment(GIT_URL_SUFFIX);
    assert GIT_URL_SUFFIX + "" == GIT_URL_SUFFIX;
    assert Fits(path, owner, GIT_URL_SUFFIX, "");
    NamePlain(owner, GIT_URL_SUFFIX);
  }

  lemma PatternIsPlainOrGit(path: string)
    requires path != "" && path[0] == '/' && RepositoryPath(path)
    ensures PlainPath(path) || NamedGit(path)
  {
    PatternIsTwoSegments(path);
    var parts := SplitPath(path);
    TwoSegments(path);
    NamePlain(parts[1], parts[2]);
  }

  /** On a path with a leading slash the two rules differ exactly where the repository's name is `.git`. */
  lemma RulesDifferAtGit(path: string)
    requires path != "" && path[0] == '/'
    ensures RepositoryPath(path) <==> PlainPath(path) || NamedGit(path)
    ensures !(PlainPath(path) && NamedGit(path))
  {
    if RepositoryPath(path) {
      PatternIsPlainOrGit(path);
    }
    if PlainPath(path) {
      PlainFitsPattern(path);
    }
    if NamedGit(path) {
      var owner :| Segment(owner) && path == Slashed(owner, GIT_URL_SUFFIX);
      GitIsNotPlain(path, owner);
    }
  }

  lemma NamePlain(owner: string, name: string)
    requires Segment(owner) && Segment(name)
    ensures PlainPath(Slashed(owner, name)) <==> name != GIT_URL_SUFFIX
  {
    StripsName(owner, name);
    SegmentHasNoSlash(owner);
    SegmentHasNoSlash(name);
    if EndsWith(name, GIT_URL_SUFFIX) {
      var short := name[..|name| - 4];
      SplitSlashed(owner, short);
      assert short == "" ==> name == name[|name| - 4..];
    } else {
      SplitSlashed(owner, name);
    }
  }

  // ---------------------------------------------------------------- the API's rule

  predicate IsHierarchicalHttpUrl(value: string) {
    StartsWith(value, "http://") || StartsWith(value, "https://")
  }

  function AfterScheme(value: string): string {
    if value == "" then ""
    else if StartsWith(value, "://") then value[3..]
    else AfterScheme(value[1..])
  }

  /** The text up to the first `/`, `?` or `#`. */
  function Authority(s: string): string {
    if s == "" || s[0] in {'/', '?', '#'} then "" else [s[0]] + Authority(s[1..])
  }

  predicate HasUserinfoSeparator(value: string) {
    '@' in Authority(AfterScheme(value))
  }

  /** Nothing in the written text is a place a credential hides. */
  predicate WrittenPlainly(value: string) {
    IsHierarchicalHttpUrl(value) && !HasUserinfoSeparator(value) && '?' !in value && '#' !in value
  }

  function ParseCredentialFreeUrl(parse: Parser, value: string): Option<Url> {
    if !IsHierarchicalHttpUrl(value) then None
    else if HasUserinfoSeparator(value) then None
    else if '?' in value || '#' in value then None
    else parse(value)
  }

  function ParsePlainRepoUrl(parse: Parser, value: string): Option<Url> {
    match ParseCredentialFreeUrl(parse, value)
    case None => None
    case Some(url) => if PlainPath(url.pathname) then Some(url) else None
  }

  function ParseAllowedRepoOrigin(parse: Parser, entry: string): Option<string> {
    var withScheme := if IsHierarchicalHttpUrl(entry) then entry else DEFAULT_ALLOWED_SCHEME + entry;
    if exists c :: c in AfterScheme(withScheme) && c in NON_AUTHORITY_CHARACTERS then None
    else
      match parse(withScheme)
      case None => None
      case Some(url) => Some(url.origin)
  }

  predicate OnAllowedOrigin(parse: Parser, url: Url, allowedHosts: seq<string>) {
    exists entry :: entry in allowedHosts && ParseAllowedRepoOrigin(parse, entry) == Some(url.origin)
  }

  predicate IsAllowedRepoUrl(parse: Parser, value: string, allowedHosts: seq<string>) {
    match ParsePlainRepoUrl(parse, value)
    case None => false
    case Some(url) => OnAllowedOrigin(parse, url, allowedHosts)
  }

  // ---------------------------------------------------------------- the workspace's rule

  datatype Policy = AnyUrl | OnOrigin(origin: string)

  ghost predicate IsRepoUrlOnOrigin(url: Url, origin: string) {
    && url.origin == origin && url.username == "" && url.password == "" && url.search == "" && url.hash == ""
    && RepositoryPath(url.pathname)
  }

  /** The text git is given, or nothing when preparation refuses. */
  ghost function ResolveRepoUrl(parse: Parser, url: string, policy: Policy): Option<string> {
    if policy.AnyUrl? then Some(url)
    else
      match parse(url)
      case None => None
      case Some(parsed) => if IsRepoUrlOnOrigin(parsed, policy.origin) then Some(parsed.href) else None
  }

  // ---------------------------------------------------------------- what parsing a URL does

  predicate Dropped(c: char) {
    c in {'\t', '\n', '\r'}
  }

  function WithoutTabs(s: string): string {
    if s == "" then "" else (if Dropped(s[0]) then "" else [s[0]]) + WithoutTabs(s[1..])
  }

  function WithoutSlashes(s: string): string {
    if s != "" && s[0] in {'/', '\\'} then WithoutSlashes(s[1..]) else s
  }

  /** The text up to the first character that ends an authority for the parser. */
  function UpToEnd(s: string): string {
    if s == "" || s[0] in {'/', '\\', '?', '#'} then "" else [s[0]] + UpToEnd(s[1..])
  }

  /**
   * The authority as the URL parser reads it (section 4.4 of the WHATWG URL standard): tabs
   * and line breaks are dropped, any further slashes and backslashes are skipped, and a backslash ends it.
   */
  function AuthorityRead(value: string): string {
    UpToEnd(WithoutSlashes(WithoutTabs(AfterScheme(value))))
  }

  /**
   * What is assumed of URL parsing: http text without `?` and `#` yields no query and no fragment, its
   * path begins with a slash, and it yields credentials only if an `@` stands in the authority that is read.
   */
  ghost predicate LikeUrl(parse: Parser) {
    forall value :: WrittenPlainly(value) && parse(value).Some? ==>
      var url := parse(value).value;
      && url.search == "" && url.hash == "" && url.pathname != "" && url.pathname[0] == '/'
      && ('@' !in AuthorityRead(value) ==> NoCredentials(url))
  }

  predicate NoCredentials(url: Url) {
    url.username == "" && url.password == ""
  }

  /** Nothing but a host stands right after the scheme: no further slash, and nothing that is dropped before one. */
  predicate HostFollows(value: string) {
    var rest := AfterScheme(value);
    rest != "" && rest[0] !in {'/', '\\'} && !Dropped(rest[0])
  }

  lemma {:induction false} ReadWithin(s: string)
    requires '@' in UpToEnd(WithoutTabs(s))
    ensures '@' in Authority(s)
  {
    if s != "" && Dropped(s[0]) {
      assert "" + WithoutTabs(s[1..]) == WithoutTabs(s[1..]);
      ReadWithin(s[1..]);
    } else if s != "" {
      var rest := WithoutTabs(s[1..]);
      assert WithoutTabs(s)[1..] == rest;
      if s[0] != '@' {
        assert '@' in UpToEnd(rest);
        ReadWithin(s[1..]);
      }
    }
  }

  /** Where a host follows the scheme, the authority that is read holds an `@` only if the written one does. */
  lemma HostFollowsHidesNothing(value: string)
    requires HostFollows(value) && !HasUserinfoSeparator(value)
    ensures '@' !in AuthorityRead(value)
  {
    var rest := AfterScheme(value);
    assert WithoutTabs(rest)[0] == rest[0];
    if '@' in UpToEnd(WithoutTabs(rest)) {
      ReadWithin(rest);
    }
  }

  // ---------------------------------------------------------------- one refines the other

  /**
   * A URL the API accepts is on an allowed origin, and the workspace of that origin accepts it, and
   * clones it as it was parsed, exactly when parsing it yields no credentials.
   */
  lemma AllowedIsResolvedExactly(parse: Parser, value: string, allowedHosts: seq<string>)
    requires LikeUrl(parse) && IsAllowedRepoUrl(parse, value, allowedHosts)
    ensures parse(value).Some? && OnAllowedOrigin(parse, parse(value).value, allowedHosts)
    ensures var url := parse(value).value;
      ResolveRepoUrl(parse, value, OnOrigin(url.origin)) == if NoCredentials(url) then Some(url.href) else None
  {
    var url := ParsePlainRepoUrl(parse, value).value;
    assert WrittenPlainly(value) && parse(value) == Some(url);
    PlainFitsPattern(url.pathname);
  }

  /** In particular when a host follows the scheme right away, which a caller can read off the text. */
  lemma AllowedIsResolved(parse: Parser, value: string, allowedHosts: seq<string>)
    requires LikeUrl(parse) && IsAllowedRepoUrl(parse, value, allowedHosts) && HostFollows(value)
    ensures parse(value).Some? && OnAllowedOrigin(parse, parse(value).value, allowedHosts)
    ensures ResolveRepoUrl(parse, value, OnOrigin(parse(value).value.origin)) == Some(parse(value).value.href)
  {
    AllowedIsResolvedExactly(parse, value, allowedHosts);
    HostFollowsHidesNothing(value);
  }

  /**
   * For plainly written text, the workspace accepts what parses without credentials, on its origin, to
   * a path the API accepts or to a repository named `.git`.
   */
  lemma ResolvedIsPlainOrGit(parse: Parser, value: string, origin: string)
    requires LikeUrl(parse) && WrittenPlainly(value)
    ensures ResolveRepoUrl(parse, value, OnOrigin(origin)).Some? <==>
      && parse(value).Some? && parse(value).value.origin == origin && NoCredentials(parse(value).value)
      && (|| ParsePlainRepoUrl(parse, value).Some?
          || NamedGit(parse(value).value.pathname))
  {
    if parse(value).Some? {
      RulesDifferAtGit(parse(value).value.pathname);
    }
  }

  // ---------------------------------------------------------------- what an entry of the allow-list means

  predicate BareHost(host: string) {
    forall c :: c in host ==> c !in NON_AUTHORITY_CHARACTERS
  }

  /** An entry spells a scheme and a host, or a host alone, which means https. */
  predicate Spells(entry: string, scheme: string, host: string) {
    || (scheme in {"http", "https"} && entry == scheme + "://" + host)
    || (scheme == "https" && entry == host && !IsHierarchicalHttpUrl(entry))
  }

  lemma EveryEntrySpells(entry: string) returns (scheme: string, host: string)
    ensures Spells(entry, scheme, host)
  {
    if StartsWith(entry, "http://") {
      scheme, host := "http", entry[7..];
      assert entry == entry[..7] + host;
    } else if StartsWith(entry, "https://") {
      scheme, host := "https", entry[8..];
      assert entry == entry[..8] + host;
    } else {
      scheme, host := "https", entry;
    }
  }

  lemma SchemeIsWritten(scheme: string, rest: string)
    requires scheme in {"http", "https"}
    ensures var value := scheme + "://" + rest; IsHierarchicalHttpUrl(value) && AfterScheme(value) == rest
  {
    var value := scheme + "://" + rest;
    assert value[..|scheme| + 3] == scheme + "://";
    SchemeEnds(scheme, rest);
  }

  /**
   * An entry authorises an origin exactly if what follows its scheme is bare, with nothing that ends or
   * divides an authority in it, and parses; the origin is then the one of that scheme and host.
   */
  lemma EntryMeans(parse: Parser, entry: string, scheme: string, host: string)
    requires Spells(entry, scheme, host)
    ensures var url := parse(scheme + "://" + host);
      ParseAllowedRepoOrigin(parse, entry) == if BareHost(host) && url.Some? then Some(url.value.origin) else None
  {
    SchemeIsWritten(scheme, host);
    assert entry == host ==> DEFAULT_ALLOWED_SCHEME + entry == scheme + "://" + host || IsHierarchicalHttpUrl(entry);
  }

  /** A segment that is not resolved away. */
  predicate Named(s: string) {
    Segment(s) && s != "." && s != ".."
  }

  /**
   * What is assumed of URL parsing in this direction: a path of plain segments after a bare host is read as
   * it is written, on the origin of that host.
   */
  ghost predicate ReadsPlainPaths(parse: Parser) {
    forall scheme, host, owner, name ::
      scheme in {"http", "https"} && BareHost(host) && Named(owner) && Named(name) && parse(scheme + "://" + host).Some? ==>
        var url := parse(scheme + "://" + (host + Slashed(owner, name)));
        && url.Some? && url.value.origin == parse(scheme + "://" + host).value.origin
        && url.value.pathname == Slashed(owner, name)
  }

  lemma {:induction false} AuthorityIsHost(host: string, rest: string)
    requires BareHost(host) && rest != "" && rest[0] == '/'
    ensures Authority(host + rest) == host
  {
    if host == "" {
      assert host + rest == rest;
    } else {
      assert host[0] in host && (host + rest)[1..] == host[1..] + rest;
      assert forall c :: c in host[1..] ==> c in host;
      AuthorityIsHost(host[1..], rest);
      assert [host[0]] + host[1..] == host;
    }
  }

  lemma SegmentHolds(s: string, c: char)
    requires Segment(s) && c in s
    ensures SegmentChar(c)
  {
    var i :| 0 <= i < |s| && s[i] == c;
  }

  lemma PlainText(scheme: string, host: string, owner: string, name: string)
    requires scheme in {"http", "https"} && BareHost(host) && Segment(owner) && Segment(name)
    ensures WrittenPlainly(scheme + "://" + (host + Slashed(owner, name)))
  {
    var path := Slashed(owner, name);
    var value := scheme + "://" + (host + path);
    SchemeIsWritten(scheme, host + path);
    AuthorityIsHost(host, path);
    forall c | c in {'?', '#'}
      ensures c !in value
    {
      if c in owner {
        SegmentHolds(owner, c);
      }
      if c in name {
        SegmentHolds(name, c);
      }
      assert c !in scheme && c !in "://" && c !in "/";
      assert c !in path;
    }
    assert '?' !in value && '#' !in value;
  }

  /** Every repository on a host that is listed is admitted, unless it is named `.git`. */
  lemma ListedIsAllowed(parse: Parser, allowedHosts: seq<string>, entry: string, scheme: string, host: string,
                        owner: string, name: string)
    requires ReadsPlainPaths(parse) && Spells(entry, scheme, host) && entry in allowedHosts
    requires ParseAllowedRepoOrigin(parse, entry).Some? && Named(owner) && Named(name)
    ensures IsAllowedRepoUrl(parse, scheme + "://" + (host + Slashed(owner, name)), allowedHosts) <==> name != GIT_URL_SUFFIX
  {
    EntryMeans(parse, entry, scheme, host);
    PlainText(scheme, host, owner, name);
    NamePlain(owner, name);
  }

  // ---------------------------------------------------------------- where it fails

  /** What follows the scheme in `https:///u:t@h/a/b`. */
  const SLASHED_REST := "/" + ("u:t" + "@h/a/b")
  const SLASHED_URL := "https" + "://" + SLASHED_REST
  const HOST_URL := "https" + "://" + "h"

  /** What the URL parser answers for that text, and for the origin it is on. */
  function SlashedParse(value: string): Option<Url> {
    if value == SLASHED_URL then Some(Url(HOST_URL, "u", "t", Slashed("a", "b"), "", "", "https://u:t@h/a/b"))
    else if value == HOST_URL then Some(Url(HOST_URL, "", "", "/", "", "", "https://h/"))
    else None
  }

  lemma SlashedAfterScheme()
    ensures AfterScheme(SLASHED_URL) == SLASHED_REST
  {
    SchemeEnds("https", SLASHED_REST);
  }

  lemma SlashedIsPlain()
    ensures WrittenPlainly(SLASHED_URL)
  {
    SlashedAfterScheme();
    assert Authority(SLASHED_REST) == "";
    assert SLASHED_URL[..8] == "https://";
    assert '?' !in "https" && '?' !in "://" && '?' !in SLASHED_REST;
    assert '#' !in "https" && '#' !in "://" && '#' !in SLASHED_REST;
  }

  lemma SlashedIsRead()
    ensures !HostFollows(SLASHED_URL) && '@' in AuthorityRead(SLASHED_URL)
  {
    SlashedAfterScheme();
    SlashIsSkipped("u:t", "@h/a/b");
  }

  lemma {:induction false} SlashIsSkipped(before: string, rest: string)
    requires before != "" && before[0] !in {'/', '\\'} && rest != "" && rest[0] == '@'
    requires forall i :: 0 <= i < |before| ==> before[i] !in {'/', '\\', '?', '#'} && !Dropped(before[i])
    requires forall i :: 0 <= i < |rest| ==> !Dropped(rest[i])
    ensures '@' in UpToEnd(WithoutSlashes(WithoutTabs("/" + (before + rest))))
  {
    var read := before + rest;
    assert ("/" + read)[1..] == read;
    NothingDropped("/" + read);
    assert WithoutSlashes(read) == read;
    UpToHolds(before, rest);
  }

  lemma HostOrigin()
    ensures ParseAllowedRepoOrigin(SlashedParse, "h") == Some(HOST_URL)
  {
    SchemeEnds("https", "h");
    assert DEFAULT_ALLOWED_SCHEME + "h" == HOST_URL;
    assert !IsHierarchicalHttpUrl("h");
    assert |SLASHED_URL| != |HOST_URL|;
  }

  lemma SlashedParseIsLikeUrl()
    ensures LikeUrl(SlashedParse)
  {
    SlashedIsRead();
  }

  /**
   * A third slash hides the credentials: the written authority is empty, the parser reads the one
   * after the slashes. The API accepts the text and the workspace refuses it.
   */
  lemma ThirdSlashHidesCredentials()
    ensures LikeUrl(SlashedParse) && IsAllowedRepoUrl(SlashedParse, SLASHED_URL, ["h"])
    ensures !HostFollows(SLASHED_URL) && ResolveRepoUrl(SlashedParse, SLASHED_URL, OnOrigin(HOST_URL)).None?
  {
    SlashedParseIsLikeUrl();
    SlashedIsPlain();
    SlashedIsRead();
    HostOrigin();
    NamePlain("a", "b");
    assert "h" in ["h"];
  }

  lemma {:induction false} SchemeEnds(scheme: string, rest: string)
    requires ':' !in scheme
    ensures AfterScheme(scheme + "://" + rest) == rest
  {
    var s := scheme + "://" + rest;
    if scheme == "" {
      assert s[..3] == "://" && s[3..] == rest;
    } else {
      assert s[0] == scheme[0] && scheme[0] in scheme;
      assert s[..3][0] != ':';
      assert s[1..] == scheme[1..] + "://" + rest;
      SchemeEnds(scheme[1..], rest);
    }
  }

  lemma {:induction false} NothingDropped(s: string)
    requires forall i :: 0 <= i < |s| ==> !Dropped(s[i])
    ensures WithoutTabs(s) == s
  {
    if s != "" {
      NothingDropped(s[1..]);
      assert s == [s[0]] + s[1..];
    }
  }

  lemma {:induction false} UpToHolds(before: string, rest: string)
    requires rest != "" && rest[0] == '@'
    requires forall i :: 0 <= i < |before| ==> before[i] !in {'/', '\\', '?', '#'}
    ensures '@' in UpToEnd(before + rest)
  {
    var s := before + rest;
    if before == "" {
      assert s == rest;
    } else {
      assert s[1..] == before[1..] + rest;
      UpToHolds(before[1..], rest);
    }
  }
}
