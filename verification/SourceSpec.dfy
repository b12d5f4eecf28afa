/**
  The `dir::scm+url#ref` notation of a manifest's sources, and the clones it leads to.

  The URL's scheme is computed as url.Parse does; which texts it accepts, and how String writes what
  follows the scheme's colon, are parameters.
*/
module SourceSpec {
  import opened Prelude
  import opened Text

  // ---------------------------------------------------------------------------
  // path.Base
  // ---------------------------------------------------------------------------

  function StripSlashes(p: string): (r: string)
    ensures r <= p && (r != "" ==> r[|r| - 1] != '/')
    ensures forall i | |r| <= i < |p| :: p[i] == '/'
  {
    if p != "" && p[|p| - 1] == '/' then StripSlashes(p[..|p| - 1]) else p
  }

  function Base(p: string): string {
    if p == "" then "."
    else
      var last := AfterSlash(StripSlashes(p));
      if last == "" then "/" else last
  }

  // ---------------------------------------------------------------------------
  // The scheme of url.Parse
  // ---------------------------------------------------------------------------

  predicate Letter(c: char) {
    'a' <= c <= 'z' || 'A' <= c <= 'Z'
  }

  predicate SchemeChar(c: char) {
    Letter(c) || '0' <= c <= '9' || c == '+' || c == '-' || c == '.'
  }

  function Lower(c: char): char {
    if 'A' <= c <= 'Z' then (c as int + 32) as char else c
  }

  function ToLower(s: string): (r: string)
    ensures |r| == |s| && forall i | 0 <= i < |s| :: r[i] == Lower(s[i])
  {
    if s == "" then "" else [Lower(s[0])] + ToLower(s[1..])
  }

  /** How many scheme characters `s` starts with. */
  function SchemeRun(s: string): (n: nat)
    ensures n <= |s|
    ensures forall i | 0 <= i < n :: SchemeChar(s[i])
    ensures n < |s| ==> !SchemeChar(s[n])
  {
    if s == "" || !SchemeChar(s[0]) then 0 else 1 + SchemeRun(s[1..])
  }

  /** The alphabet of schemes in section 3.1 of RFC 3986, by ASCII codes. */
  predicate InAlphabet(c: char, first: bool) {
    || 65 <= c as int <= 90 || 97 <= c as int <= 122
    || (!first && (48 <= c as int <= 57 || c as int in {43, 45, 46}))
  }

  lemma SchemeAlphabet(c: char)
    ensures Letter(c) <==> InAlphabet(c, true)
    ensures SchemeChar(c) <==> InAlphabet(c, false)
    ensures Lower(c) as int == if 65 <= c as int <= 90 then c as int + 32 else c as int
  {
  }

  datatype Url = Url(scheme: string, rest: string)

  /** Which texts url.Parse accepts, and how String writes what follows the scheme's colon. */
  datatype UrlLib = UrlLib(parses: string -> bool, normal: string -> string)

  /** The scheme in lower case; empty when the text does not start with one. */
  function ParseUrl(lib: UrlLib, s: string): Option<Url> {
    if !lib.parses(s) || (s != "" && s[0] == ':') then None
    else
      var n := SchemeRun(s);
      if 0 < n < |s| && Letter(s[0]) && s[n] == ':' then Some(Url(ToLower(s[..n]), s[n + 1..]))
      else Some(Url("", s))
  }

  /** `s` starts with a scheme of `n` characters. */
  predicate StartsWithScheme(s: string, n: nat) {
    0 < n < |s| && s[n] == ':' && forall i | 0 <= i < n :: InAlphabet(s[i], i == 0)
  }

  /** A text has at most one scheme, which ends at its first colon. */
  lemma SchemeIsRun(s: string, n: nat)
    ensures StartsWithScheme(s, n) <==> 0 < n == SchemeRun(s) < |s| && s[n] == ':' && Letter(s[0])
  {
    forall c: char ensures SchemeChar(c) <==> InAlphabet(c, false) {
      SchemeAlphabet(c);
    }
    if StartsWithScheme(s, n) {
      assert Letter(s[0]);
      assert !SchemeChar(s[n]);
      assert forall i | 0 <= i < n :: SchemeChar(s[i]);
    }
  }

  /** What starts with a colon is no URL; any other accepted text is its scheme in lower case and the rest. */
  lemma ParseUrlSplits(lib: UrlLib, s: string)
    ensures ParseUrl(lib, s).None? <==> !lib.parses(s) || (s != "" && s[0] == ':')
    ensures forall n: nat | ParseUrl(lib, s).Some? && StartsWithScheme(s, n) ::
      ParseUrl(lib, s) == Some(Url(ToLower(s[..n]), s[n + 1..]))
    ensures ParseUrl(lib, s).Some? && (forall n: nat :: !StartsWithScheme(s, n)) ==>
      ParseUrl(lib, s) == Some(Url("", s))
  {
    forall n: nat ensures StartsWithScheme(s, n) <==> 0 < n == SchemeRun(s) < |s| && s[n] == ':' && Letter(s[0]) {
      SchemeIsRun(s, n);
    }
  }

  /** URL.String. */
  function ShowUrl(u: Url): string {
    if u.scheme == "" then u.rest else u.scheme + ":" + u.rest
  }

  // ---------------------------------------------------------------------------
  // One source
  // ---------------------------------------------------------------------------

  datatype Source = Source(scm: string, url: string, name: string, ref: string)

  /** `name` before the trimming of ".git"; `named` when a directory part was written. */
  datatype Place = Place(url: string, name: string, named: bool)

  function CutRef(s: string): (string, string) {
    var bits := Split(s, "#");
    if |bits| == 2 then (bits[0], bits[1]) else (s, "")
  }

  function CutDirectory(s: string): Place {
    var bits := Split(s, "::");
    if |bits| == 2 then Place(bits[1], if bits[0] != "" then bits[0] else Base(s), true)
    else Place(s, Base(s), |bits| != 1)
  }

  /** The version control system, "git" unless the scheme says otherwise, and the URL without it. */
  function CutScm(lib: UrlLib, s: string): (string, string) {
    var u := ParseUrl(lib, s);
    if u.None? then ("git", s)
    else
      var bits := Split(u.value.scheme, "+");
      if |bits| == 2 then (bits[0], ShowUrl(Url(bits[1], lib.normal(u.value.rest)))) else ("git", s)
  }

  function ParseSource(lib: UrlLib, text: string): Source {
    var (s, ref) := CutRef(text);
    var place := CutDirectory(s);
    var (scm, url) := CutScm(lib, place.url);
    var name := if scm == "git" && !place.named then TrimSuffix(place.name, ".git") else place.name;
    Source(scm, url, name, ref)
  }

  // ---------------------------------------------------------------------------
  // Round trip
  // ---------------------------------------------------------------------------

  predicate Free(s: string) {
    '#' !in s && !Contains(s, "::")
  }

  /** A directory that can be written before "::". */
  predicate ValidDirectory(dir: string) {
    dir != "" && Free(dir) && dir[|dir| - 1] != ':'
  }

  predicate LowerScheme(s: string) {
    s != "" && forall i | 0 <= i < |s| :: SchemeChar(s[i]) && s[i] != '+' && Lower(s[i]) == s[i]
  }

  predicate ValidScm(scm: string) {
    LowerScheme(scm) && Letter(scm[0])
  }

  /** The part from the scheme on: `scm+scheme:rest`, or just `scheme:rest`. */
  function PrintUrl(scm: Option<string>, url: Url): string {
    (if scm.Some? then scm.value + "+" else "") + (url.scheme + ":" + url.rest)
  }

  function PrintDirectory(dir: Option<string>, s: string): string {
    if dir.Some? then dir.value + "::" + s else s
  }

  function PrintRef(s: string, ref: Option<string>): string {
    if ref.Some? then s + "#" + ref.value else s
  }

  lemma HashAt(s: string, i: nat)
    ensures At(s, "#", i) <==> i < |s| && s[i] == '#'
  {
  }

  lemma CutPrintedRef(s: string, ref: Option<string>)
    requires '#' !in s && (ref.Some? ==> '#' !in ref.value)
    ensures CutRef(PrintRef(s, ref)) == (s, ref.GetOr(""))
  {
    NoHash(s);
    if ref.Some? {
      NoHash(ref.value);
      HashSplits(s, ref.value);
      SplitWithout(ref.value, "#");
    } else {
      SplitWithout(s, "#");
    }
  }

  lemma NoHash(s: string)
    requires '#' !in s
    ensures !Contains(s, "#")
  {
    forall i | 0 <= i <= |s| ensures !At(s, "#", i) {
      HashAt(s, i);
    }
  }

  lemma ColonsAt(s: string, i: nat)
    ensures At(s, "::", i) <==> i + 1 < |s| && s[i] == ':' && s[i + 1] == ':'
  {
  }

  lemma CutPrintedDirectory(dir: Option<string>, s: string)
    requires !Contains(s, "::") && (dir.Some? ==> ValidDirectory(dir.value))
    ensures CutDirectory(PrintDirectory(dir, s)) ==
      if dir.Some? then Place(s, dir.value, true) else Place(s, Base(s), false)
  {
    SplitWithout(s, "::");
    if dir.Some? {
      ColonsSplit(dir.value, s);
    }
  }

  lemma {:induction false} SchemeRunOf(scheme: string, rest: string)
    requires forall i | 0 <= i < |scheme| :: SchemeChar(scheme[i])
    requires rest != "" && !SchemeChar(rest[0])
    ensures SchemeRun(scheme + rest) == |scheme|
    decreases |scheme|
  {
    if scheme == "" {
      assert scheme + rest == rest;
    } else {
      SchemeRunOf(scheme[1..], rest);
      assert (scheme + rest)[1..] == scheme[1..] + rest;
    }
  }

  lemma ParsePrinted(lib: UrlLib, scheme: string, rest: string)
    requires scheme != "" && Letter(scheme[0]) && lib.parses(scheme + ":" + rest)
    requires forall i | 0 <= i < |scheme| :: SchemeChar(scheme[i]) && Lower(scheme[i]) == scheme[i]
    ensures ParseUrl(lib, scheme + ":" + rest) == Some(Url(scheme, rest))
  {
    var s := scheme + ":" + rest;
    assert s == scheme + (":" + rest);
    SchemeRunOf(scheme, ":" + rest);
    assert s[..|scheme|] == scheme && s[|scheme| + 1..] == rest && s[0] == scheme[0];
    assert ToLower(scheme) == scheme;
  }

  lemma PlusAt(s: string, i: nat)
    ensures At(s, "+", i) <==> i < |s| && s[i] == '+'
  {
  }

  lemma NoPlus(s: string)
    requires LowerScheme(s)
    ensures !Contains(s, "+")
  {
    forall i | 0 <= i <= |s| ensures !At(s, "+", i) {
      PlusAt(s, i);
    }
  }

  lemma SplitScheme(scm: string, scheme: string)
    requires LowerScheme(scm) && LowerScheme(scheme)
    ensures Split(scm + "+" + scheme, "+") == [scm, scheme]
  {
    var whole := scm + "+" + scheme;
    forall i | 0 <= i < |scm| ensures !At(whole, "+", i) {
      PlusAt(whole, i);
      assert whole[i] == scm[i];
    }
    SplitAtFirst(scm, "+", scheme);
    NoPlus(scheme);
    SplitWithout(scheme, "+");
  }

  lemma CutPrintedScm(lib: UrlLib, scm: Option<string>, url: Url)
    requires LowerScheme(url.scheme) && lib.parses(PrintUrl(scm, url))
    requires if scm.Some? then ValidScm(scm.value) else Letter(url.scheme[0])
    ensures CutScm(lib, PrintUrl(scm, url)) == (scm.GetOr("git"), ShowUrl(Written(lib, scm, url)))
  {
    if scm.Some? {
      var scheme := scm.value + "+" + url.scheme;
      assert PrintUrl(scm, url) == scheme + ":" + url.rest;
      ParsePrinted(lib, scheme, url.rest);
      SplitScheme(scm.value, url.scheme);
    } else {
      assert PrintUrl(scm, url) == ShowUrl(url);
      ParsePrinted(lib, url.scheme, url.rest);
      NoPlus(url.scheme);
      SplitWithout(url.scheme, "+");
    }
  }

  /** A URL without its `scm+` is written anew; one that had none is kept as it is. */
  function Written(lib: UrlLib, scm: Option<string>, url: Url): Url {
    if scm.Some? then url.(rest := lib.normal(url.rest)) else url
  }

  lemma WrittenIsSame(lib: UrlLib, scm: Option<string>, url: Url)
    requires url.scheme != ""
    ensures ShowUrl(Written(lib, scm, url)) == ShowUrl(url) <==> scm.None? || lib.normal(url.rest) == url.rest
  {
    var n := |url.scheme| + 1;
    assert ShowUrl(url)[n..] == url.rest && ShowUrl(Written(lib, scm, url))[n..] == Written(lib, scm, url).rest;
  }

  /** Every part of the notation that can be told apart when it is printed. */
  predicate Readable(lib: UrlLib, dir: Option<string>, scm: Option<string>, url: Url, ref: Option<string>) {
    && (dir.Some? ==> ValidDirectory(dir.value))
    && (ref.Some? ==> '#' !in ref.value)
    && LowerScheme(url.scheme)
    && (if scm.Some? then ValidScm(scm.value) else Letter(url.scheme[0]))
    && Free(PrintUrl(scm, url)) && lib.parses(PrintUrl(scm, url))
  }

  function Print(dir: Option<string>, scm: Option<string>, url: Url, ref: Option<string>): string {
    PrintRef(PrintDirectory(dir, PrintUrl(scm, url)), ref)
  }

  function DefaultName(scm: string, base: string): string {
    if scm == "git" then TrimSuffix(base, ".git") else base
  }

  /**
    Reading the printed notation gives back exactly its parts, the URL as String writes it; it comes back
    as it was printed exactly when it had no `scm+` or String keeps it.
  */
  lemma SourceRoundTrip(lib: UrlLib, dir: Option<string>, scm: Option<string>, url: Url, ref: Option<string>)
    requires Readable(lib, dir, scm, url, ref)
    ensures var s := ParseSource(lib, Print(dir, scm, url, ref));
      && s.scm == scm.GetOr("git") && s.url == ShowUrl(Written(lib, scm, url)) && s.ref == ref.GetOr("")
      && s.name == if dir.Some? then dir.value else DefaultName(s.scm, Base(PrintUrl(scm, url)))
    ensures ParseSource(lib, Print(dir, scm, url, ref)).url == ShowUrl(url) <==>
      scm.None? || lib.normal(url.rest) == url.rest
  {
    CutPrintedRef(PrintDirectory(dir, PrintUrl(scm, url)), ref);
    CutPrintedDirectory(dir, PrintUrl(scm, url));
    CutPrintedScm(lib, scm, url);
    WrittenIsSame(lib, scm, url);
  }

  /** An empty directory before "::" leaves the default name, but then ".git" is not trimmed from it. */
  lemma EmptyDirectoryKeepsSuffix(lib: UrlLib, url: Url)
    requires LowerScheme(url.scheme) && Letter(url.scheme[0])
    requires Free(ShowUrl(url)) && lib.parses(ShowUrl(url))
    ensures ParseSource(lib, "::" + ShowUrl(url)) == Source("git", ShowUrl(url), Base("::" + ShowUrl(url)), "")
  {
    var u := ShowUrl(url);
    CutPrintedRef("::" + u, None);
    SplitWithout(u, "::");
    assert "" + "::" + u == "::" + u;
    SplitAtFirst("", "::", u);
    assert PrintUrl(None, url) == u;
    CutPrintedScm(lib, None, url);
  }

  /** Only one "#" and only one "::" count; a text with more of them is taken whole. */
  lemma MoreSeparatorsAreKept(a: string, b: string, c: string)
    ensures '#' !in a && '#' !in b ==> CutRef(a + "#" + (b + "#" + c)) == (a + "#" + (b + "#" + c), "")
    ensures ValidDirectory(a) && ValidDirectory(b) ==>
      var s := a + "::" + (b + "::" + c); CutDirectory(s) == Place(s, Base(s), true)
  {
    if '#' !in a && '#' !in b {
      HashSplits(a, b + "#" + c);
      HashSplits(b, c);
    }
    if ValidDirectory(a) && ValidDirectory(b) {
      ColonsSplit(a, b + "::" + c);
      ColonsSplit(b, c);
    }
  }

  lemma HashSplits(a: string, rest: string)
    requires '#' !in a
    ensures Split(a + "#" + rest, "#") == [a] + Split(rest, "#")
  {
    var whole := a + "#" + rest;
    forall i | 0 <= i < |a| ensures !At(whole, "#", i) {
      HashAt(whole, i);
      assert whole[i] == a[i];
    }
    SplitAtFirst(a, "#", rest);
  }

  lemma ColonsSplit(d: string, rest: string)
    requires ValidDirectory(d)
    ensures Split(d + "::" + rest, "::") == [d] + Split(rest, "::")
  {
    var whole := d + "::" + rest;
    forall i | 0 <= i < |d| ensures !At(whole, "::", i) {
      ColonsAt(whole, i);
      ColonsAt(d, i);
      assert !At(d, "::", i);
    }
    SplitAtFirst(d, "::", rest);
  }

  /** A text that is no URL is left to git as it is. */
  lemma NoUrlIsGit(lib: UrlLib, s: string)
    requires ParseUrl(lib, s).None?
    ensures CutScm(lib, s) == ("git", s)
  {
  }

  // ---------------------------------------------------------------------------
  // The default name
  // ---------------------------------------------------------------------------

  lemma {:induction false} StripPrefixed(pre: string, p: string)
    requires StripSlashes(p) != ""
    ensures StripSlashes(pre + p) == pre + StripSlashes(p)
    decreases |p|
  {
    var n := |p| - 1;
    assert (pre + p)[..|pre + p| - 1] == pre + p[..n];
    if p[n] == '/' {
      StripPrefixed(pre, p[..n]);
    }
  }

  lemma AfterSnoc(p: string, c: char)
    ensures AfterSlash(p + [c]) == if c == '/' then "" else AfterSlash(p) + [c]
  {
  }

  lemma {:induction false} AfterPrefixed(pre: string, p: string)
    requires '/' in p
    ensures AfterSlash(pre + p) == AfterSlash(p)
    decreases |p|
  {
    var q, c := p[..|p| - 1], p[|p| - 1];
    assert p == q + [c] && pre + p == (pre + q) + [c];
    AfterSnoc(q, c);
    AfterSnoc(pre + q, c);
    if c != '/' {
      AfterPrefixed(pre, q);
    }
  }

  lemma {:induction false} AfterNoSlash(p: string)
    requires '/' !in p
    ensures AfterSlash(p) == p
  {
    if p != "" {
      AfterNoSlash(p[..|p| - 1]);
      assert p == p[..|p| - 1] + [p[|p| - 1]];
    }
  }

  /**
    Without a directory the repository is named after the URL, unless the URL has no slash before its
    last name: then the `scm+` prefix stays in the name.
  */
  lemma NameIsBaseOfUrl(scm: string, url: Url)
    requires LowerScheme(url.scheme) && ValidScm(scm)
    ensures Base(PrintUrl(Some(scm), url)) == Base(ShowUrl(url)) <==> '/' in StripSlashes(ShowUrl(url))
  {
    var u, pre := ShowUrl(url), scm + "+";
    assert PrintUrl(Some(scm), url) == pre + u;
    assert u[0] == url.scheme[0] && u[0] != '/';
    var p := StripSlashes(u);
    assert p != "";
    StripPrefixed(pre, u);
    NotLastSlash(p);
    NotLastSlash(pre + p);
    if '/' in p {
      AfterPrefixed(pre, p);
    } else {
      AfterNoSlash(pre + p);
      AfterNoSlash(p);
    }
  }

  lemma NotLastSlash(p: string)
    requires p != "" && p[|p| - 1] != '/'
    ensures AfterSlash(p) != ""
  {
  }

  // ---------------------------------------------------------------------------
  // Cloning
  // ---------------------------------------------------------------------------

  datatype GitVariant = Git | Git9 | OtherGit

  datatype Command =
    | GitClone(url: string, dir: string)
    | GitCheckout(dir: string, ref: string)
    | GitSubmodules(dir: string)
    | Git9Clone(url: string, dir: string)
    | Git9Branch(dir: string, ref: string)
    | HgClone(url: string, dir: string)
    | HgUpdate(dir: string, ref: string)

  /** The commands for one source; None when the source is refused. */
  function Commands(lib: UrlLib, variant: GitVariant, text: string): Option<seq<Command>> {
    var s := ParseSource(lib, text);
    if s.scm == "git" then
      match variant
      case Git =>
        Some([GitClone(s.url, s.name)]
             + (if s.ref != "" then [GitCheckout(s.name, s.ref)] else [])
             + [GitSubmodules(s.name)])
      case Git9 =>
        if '@' in s.url then None
        else Some([Git9Clone(s.url, s.name)] + if s.ref != "" then [Git9Branch(s.name, s.ref)] else [])
      // No clone is attempted, and an error left over from url.Parse is returned.
      case OtherGit => if ParseUrl(lib, CutDirectory(CutRef(text).0).url).Some? then Some([]) else None
    else if s.scm == "hg" then
      Some([HgClone(s.url, s.name)] + if s.ref != "" then [HgUpdate(s.name, s.ref)] else [])
    else None
  }

  type Planner = string -> Option<seq<Command>>

  function PlannerOf(lib: UrlLib, variant: GitVariant): Planner {
    text => Commands(lib, variant, text)
  }

  /** The commands of the sources before the first refused one. */
  function Plan(planner: Planner, sources: seq<string>): seq<Command> {
    if sources == [] || planner(sources[0]).None? then []
    else planner(sources[0]).value + Plan(planner, sources[1..])
  }

  predicate AllAccepted(planner: Planner, sources: seq<string>) {
    forall i | 0 <= i < |sources| :: planner(sources[i]).Some?
  }

  lemma {:induction false} PlanSplit(planner: Planner, done: seq<string>, rest: seq<string>)
    requires AllAccepted(planner, done)
    ensures Plan(planner, done + rest) == Plan(planner, done) + Plan(planner, rest)
    decreases |done|
  {
    if done == [] {
      assert done + rest == rest;
    } else {
      PlanSplit(planner, done[1..], rest);
      assert (done + rest)[1..] == done[1..] + rest;
    }
  }

  lemma PlanNext(planner: Planner, sources: seq<string>, i: nat)
    requires i < |sources| && AllAccepted(planner, sources[..i]) && planner(sources[i]).Some?
    ensures Plan(planner, sources[..i + 1]) == Plan(planner, sources[..i]) + planner(sources[i]).value
  {
    PlanSplit(planner, sources[..i], [sources[i]]);
    assert sources[..i + 1] == sources[..i] + [sources[i]];
    assert Plan(planner, [sources[i]][1..]) == [];
  }

  predicate AllWork(works: nat -> bool, n: nat) {
    forall k | 0 <= k < n :: works(k)
  }

  /**
    Runs the plan's commands in order until one fails; `works` tells the outcome of the n-th command.
    It succeeds exactly when every source is accepted and every command works; on a failure
    everything before the failing command or the refused source has been cloned.
  */
  method RunPlan(planner: Planner, sources: seq<string>, works: nat -> bool) returns (ran: seq<Command>, ok: bool)
    ensures ran <= Plan(planner, sources)
    ensures ok <==> ran == Plan(planner, sources) && AllAccepted(planner, sources) && AllWork(works, |ran|)
    ensures ran == Plan(planner, sources) || (ran != [] && !works(|ran| - 1))
    ensures ran != [] ==> AllWork(works, |ran| - 1)
  {
    ran, ok := [], true;
    var i := 0;
    while i < |sources|
      invariant i <= |sources| && ok
      invariant AllAccepted(planner, sources[..i])
      invariant ran == Plan(planner, sources[..i])
      invariant AllWork(works, |ran|)
    {
      ghost var before := ran;
      assert sources == sources[..i] + sources[i..];
      PlanSplit(planner, sources[..i], sources[i..]);
      var commands := planner(sources[i]);
      if commands.None? {
        return ran, false;
      }
      PlanNext(planner, sources, i);
      assert commands.value <= Plan(planner, sources[i..]);
      var c := 0;
      while c < |commands.value|
        invariant c <= |commands.value|
        invariant ran == before + commands.value[..c]
        invariant AllWork(works, |ran|)
      {
        ran := ran + [commands.value[c]];
        c := c + 1;
        if !works(|ran| - 1) {
          assert ran == before + commands.value[..c];
          return ran, false;
        }
      }
      assert commands.value[..|commands.value|] == commands.value;
      i := i + 1;
    }
    assert sources[..i] == sources;
  }

  /** Clones the manifest's sources. */
  method CloneRepos(lib: UrlLib, variant: GitVariant, sources: seq<string>, works: nat -> bool)
    returns (ran: seq<Command>, ok: bool)
    ensures ran <= Plan(PlannerOf(lib, variant), sources)
    ensures ok <==> ran == Plan(PlannerOf(lib, variant), sources)
                    && AllAccepted(PlannerOf(lib, variant), sources) && AllWork(works, |ran|)
    ensures ran == Plan(PlannerOf(lib, variant), sources) || (ran != [] && !works(|ran| - 1))
    ensures ran != [] ==> AllWork(works, |ran| - 1)
  {
    ran, ok := RunPlan(PlannerOf(lib, variant), sources, works);
  }

  // ---------------------------------------------------------------------------
  // What a written source comes to
  // ---------------------------------------------------------------------------

  /** `command` is there exactly if a revision was written. */
  predicate OnlyWith(ref: Option<string>, command: Command, commands: seq<Command>) {
    commands == if ref.Some? && ref.value != "" then [command] else []
  }

  /** The name of the clone: the directory as written, or the URL's last part, without ".git" for git. */
  ghost predicate IsNamed(name: string, dir: Option<string>, git: bool, url: string) {
    if dir.Some? then name == dir.value
    else if git && exists p :: Base(url) == p + ".git" then name + ".git" == Base(url)
    else name == Base(url)
  }

  /**
    A written source is cloned from the URL that was written, into the directory that was written, or its
    default, and brought to the revision that was written, if one was.  Git images of another variant clone
    nothing, git on Plan 9 refuses a URL with an "@", and version control systems but git and hg are refused.
  */
  lemma WrittenSourceIsCloned(lib: UrlLib, variant: GitVariant, dir: Option<string>, scm: Option<string>, url: Url,
      ref: Option<string>)
    returns (name: string, revision: seq<Command>)
    requires Readable(lib, dir, scm, url, ref)
    ensures IsNamed(name, dir, scm.GetOr("git") == "git", PrintUrl(scm, url))
    ensures var from := url.scheme + ":" + (if scm.Some? then lib.normal(url.rest) else url.rest);
      PlannerOf(lib, variant)(Print(dir, scm, url, ref)) ==
      if scm.GetOr("git") == "git" then
        match variant
        case Git => Some([GitClone(from, name)] + revision + [GitSubmodules(name)])
        case Git9 => if '@' in from then None else Some([Git9Clone(from, name)] + revision)
        case OtherGit => Some([])
      else if scm == Some("hg") then Some([HgClone(from, name)] + revision)
      else None
    ensures OnlyWith(ref,
                     if scm == Some("hg") then HgUpdate(name, ref.GetOr(""))
                     else if variant.Git9? then Git9Branch(name, ref.GetOr(""))
                     else GitCheckout(name, ref.GetOr("")),
                     revision)
  {
    var text := Print(dir, scm, url, ref);
    SourceRoundTrip(lib, dir, scm, url, ref);
    CutPrintedRef(PrintDirectory(dir, PrintUrl(scm, url)), ref);
    CutPrintedDirectory(dir, PrintUrl(scm, url));
    PrintedUrlParses(lib, scm, url);
    var s := ParseSource(lib, text);
    name := s.name;
    revision := if s.ref == "" then []
                else if scm == Some("hg") then [HgUpdate(name, s.ref)]
                else if variant.Git9? then [Git9Branch(name, s.ref)]
                else [GitCheckout(name, s.ref)];
  }

  lemma PrintedUrlParses(lib: UrlLib, scm: Option<string>, url: Url)
    requires LowerScheme(url.scheme) && lib.parses(PrintUrl(scm, url))
    requires if scm.Some? then ValidScm(scm.value) else Letter(url.scheme[0])
    ensures ParseUrl(lib, PrintUrl(scm, url)).Some?
  {
    if scm.Some? {
      var scheme := scm.value + "+" + url.scheme;
      assert PrintUrl(scm, url) == scheme + ":" + url.rest;
      ParsePrinted(lib, scheme, url.rest);
    } else {
      assert PrintUrl(scm, url) == ShowUrl(url);
      ParsePrinted(lib, url.scheme, url.rest);
    }
  }

  lemma {:induction false} AfterSlashSplits(p: string) returns (pre: string)
    ensures '/' !in AfterSlash(p)
    ensures p == pre + AfterSlash(p) && (pre == "" || pre[|pre| - 1] == '/')
    decreases |p|
  {
    if p == "" || p[|p| - 1] == '/' {
      pre := p;
    } else {
      pre := AfterSlashSplits(p[..|p| - 1]);
      assert p == p[..|p| - 1] + [p[|p| - 1]];
    }
  }

  predicate OnlySlashes(p: string) {
    forall i | 0 <= i < |p| :: p[i] == '/'
  }

  /** path.Base is the last part of the path, whatever slashes follow it; "." for no path, "/" for slashes only. */
  lemma BaseIsLastPart(p: string) returns (pre: string, post: string)
    ensures p == "" ==> Base(p) == "."
    ensures p != "" && OnlySlashes(p) ==> Base(p) == "/"
    ensures !OnlySlashes(p) ==>
      && Base(p) != "" && '/' !in Base(p) && OnlySlashes(post)
      && p == pre + Base(p) + post && (pre == "" || pre[|pre| - 1] == '/')
  {
    var r := StripSlashes(p);
    pre := AfterSlashSplits(r);
    post := p[|r|..];
    assert forall i | 0 <= i < |post| :: post[i] == p[|r| + i];
    if r != "" {
      NotLastSlash(r);
      assert p == r + post;
      assert p[|r| - 1] != '/';
    }
  }
}
