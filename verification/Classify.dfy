/**
 * Path classes of a discovery scan (`discovery/classify.rs`). Names are octet
 * strings; an octet is represented by the character with the same code.
 */
module Classify {
  type Path = seq<string>

  datatype Selector = Home | Runtime

  /** The file kinds that `st_mode & S_IFMT` tells apart. */
  datatype Kind = Directory | Regular | Symlink | Socket | Fifo | CharacterDevice | BlockDevice

  datatype Class =
    | Configuration
    | Data
    | State
    | Cache
    | CredentialShaped
    | RuntimeSocket
    | RuntimeOther
    | Unclassified

  // ------------------------------------------------------------ case folding

  function LowerChar(c: char): char {
    if 'A' <= c <= 'Z' then (c as int + 32) as char else c
  }

  function Lower(s: string): (r: string)
    ensures |r| == |s| && forall i :: 0 <= i < |s| ==> r[i] == LowerChar(s[i])
  {
    seq(|s|, i requires 0 <= i < |s| => LowerChar(s[i]))
  }

  /** The path as text: lower-cased components separated by slashes. */
  function Joined(path: Path): string
    decreases |path|
  {
    if path == [] then ""
    else if |path| == 1 then Lower(path[0])
    else Lower(path[0]) + "/" + Joined(path[1..])
  }

  lemma {:induction false} JoinedSnoc(path: Path, name: string)
    requires path != []
    ensures Joined(path + [name]) == Joined(path) + "/" + Lower(name)
    decreases |path|
  {
    if |path| == 1 {
      assert (path + [name])[1..] == [name];
    } else {
      JoinedSnoc(path[1..], name);
      assert (path + [name])[1..] == path[1..] + [name];
      assert Joined(path + [name]) == Lower(path[0]) + "/" + (Joined(path[1..]) + "/" + Lower(name));
    }
  }

  method JoinedAsciiLowercase(path: Path) returns (value: string)
    ensures value == Joined(path)
  {
    value := "";
    for index := 0 to |path|
      invariant value == Joined(path[..index])
    {
      assert path[..index + 1] == path[..index] + [path[index]];
      if index > 0 {
        JoinedSnoc(path[..index], path[index]);
        value := value + "/";
      }
      value := value + Lower(path[index]);
    }
    assert path[..|path|] == path;
  }

  // -------------------------------------------------------------- the matcher

  const PREFIXES: seq<string> := [
    ".anthropic", ".aws", ".azure", ".cargo/credentials", ".cargo/credentials.toml", ".claude", ".codex",
    ".config/anthropic", ".config/gcloud", ".config/gh", ".config/opencode", ".docker", ".env", ".git-credentials",
    ".gnupg", ".kube", ".netrc", ".npmrc", ".openai", ".pypirc", ".ssh"]

  predicate EndsWith(s: string, suffix: string) {
    |s| >= |suffix| && s[|s| - |suffix|..] == suffix
  }

  /** `value` is the prefix itself or continues it after a slash. */
  predicate HasPathPrefix(value: string, prefix: string) {
    value == prefix || prefix + "/" <= value
  }

  predicate CredentialShapedComponent(name: string) {
    var lower := Lower(name);
    || lower == "auth.json" || lower == "credentials" || lower == "credentials.json" || lower == "hosts.yml"
    || lower == "token" || lower == "token.json" || lower == ".pgpass"
    || EndsWith(lower, ".pem") || EndsWith(lower, ".key") || EndsWith(lower, ".p12") || EndsWith(lower, ".pfx")
    || EndsWith(lower, ".kdbx")
  }

  predicate CredentialShapedPath(path: Path) {
    var value := Joined(path);
    || (exists i :: 0 <= i < |PREFIXES| && HasPathPrefix(value, PREFIXES[i]))
    || value == ".env" || ".env." <= value
    || exists i :: 0 <= i < |path| && CredentialShapedComponent(path[i])
  }

  predicate StartsWith(path: Path, prefix: Path) {
    prefix <= path
  }

  /** The class of an entry; `caches` are the platform's derived cache directories. */
  function ClassOf(caches: seq<Path>, selector: Selector, path: Path, kind: Kind): Class {
    if CredentialShapedPath(path) then CredentialShaped
    else if kind == Socket then RuntimeSocket
    else if selector == Runtime then RuntimeOther
    else if path == [] then Unclassified
    else if path[0] == ".cache" || (exists i :: 0 <= i < |caches| && StartsWith(path, caches[i])) then Cache
    else if path[0] == ".config" then Configuration
    else if StartsWith(path, [".local", "state"]) then State
    else if StartsWith(path, [".local", "share"]) || StartsWith(path, [".local", "bin"]) || !("." <= path[0]) then Data
    else if |path| == 1 && kind == Regular then Configuration
    else Unclassified
  }

  // ---------------------------------------------------------- disclosed globs

  /** One component of a glob: a literal name, `prefix*suffix`, or `**`. */
  datatype Segment = Literal(text: string) | Wild(prefix: string, suffix: string) | Globstar

  predicate SegmentMatches(segment: Segment, name: string) {
    match segment
    case Literal(text) => name == text
    case Wild(prefix, suffix) => |prefix| + |suffix| <= |name| && prefix <= name && EndsWith(name, suffix)
    case Globstar => false
  }

  /** Glob matching under ASCII case folding; `**` stands for zero or more components. */
  predicate Matches(glob: seq<Segment>, path: Path)
    decreases |glob| + |path|
  {
    if glob == [] then path == []
    else if glob[0].Globstar? then Matches(glob[1..], path) || (path != [] && Matches(glob, path[1..]))
    else path != [] && SegmentMatches(glob[0], Lower(path[0])) && Matches(glob[1..], path[1..])
  }

  const CREDENTIAL_PATTERNS: seq<seq<Segment>> :=
    PATTERNS_A + PATTERNS_B + PATTERNS_C + PATTERNS_D + PATTERNS_E + PATTERNS_F

  const PATTERNS_A: seq<seq<Segment>> := [
    [Literal(".anthropic")],
    [Literal(".anthropic"), Globstar],
    [Literal(".aws")],
    [Literal(".aws"), Globstar],
    [Literal(".azure")],
    [Literal(".azure"), Globstar],
    [Literal(".cargo"), Literal("credentials")],
    [Literal(".cargo"), Literal("credentials"), Globstar],
    [Literal(".cargo"), Literal("credentials.toml")],
    [Literal(".cargo"), Literal("credentials.toml"), Globstar]]

  const PATTERNS_B: seq<seq<Segment>> := [
    [Literal(".claude")],
    [Literal(".claude"), Globstar],
    [Literal(".codex")],
    [Literal(".codex"), Globstar],
    [Literal(".config"), Literal("anthropic")],
    [Literal(".config"), Literal("anthropic"), Globstar],
    [Literal(".config"), Literal("gcloud")],
    [Literal(".config"), Literal("gcloud"), Globstar],
    [Literal(".config"), Literal("gh")],
    [Literal(".config"), Literal("gh"), Globstar],
    [Literal(".config"), Literal("opencode")],
    [Literal(".config"), Literal("opencode"), Globstar]]

  const PATTERNS_C: seq<seq<Segment>> := [
    [Literal(".docker")],
    [Literal(".docker"), Globstar],
    [Literal(".env")],
    [Wild(".env.", "")],
    [Wild(".env.", ""), Globstar],
    [Literal(".env"), Globstar],
    [Literal(".git-credentials")],
    [Literal(".git-credentials"), Globstar],
    [Literal(".gnupg")],
    [Literal(".gnupg"), Globstar]]

  const PATTERNS_D: seq<seq<Segment>> := [
    [Literal(".kube")],
    [Literal(".kube"), Globstar],
    [Literal(".netrc")],
    [Literal(".netrc"), Globstar],
    [Literal(".npmrc")],
    [Literal(".npmrc"), Globstar],
    [Literal(".openai")],
    [Literal(".openai"), Globstar],
    [Literal(".pgpass")],
    [Literal(".pypirc")],
    [Literal(".pypirc"), Globstar],
    [Literal(".ssh")],
    [Literal(".ssh"), Globstar]]

  const PATTERNS_E: seq<seq<Segment>> := [
    [Globstar, Literal(".pgpass")],
    [Globstar, Literal(".pgpass"), Globstar],
    [Globstar, Wild("", ".kdbx")],
    [Globstar, Wild("", ".kdbx"), Globstar],
    [Globstar, Wild("", ".key")],
    [Globstar, Wild("", ".key"), Globstar],
    [Globstar, Wild("", ".p12")],
    [Globstar, Wild("", ".p12"), Globstar],
    [Globstar, Wild("", ".pem")],
    [Globstar, Wild("", ".pem"), Globstar],
    [Globstar, Wild("", ".pfx")],
    [Globstar, Wild("", ".pfx"), Globstar]]

  const PATTERNS_F: seq<seq<Segment>> := [
    [Globstar, Literal("auth.json")],
    [Globstar, Literal("auth.json"), Globstar],
    [Globstar, Literal("credentials")],
    [Globstar, Literal("credentials"), Globstar],
    [Globstar, Literal("credentials.json")],
    [Globstar, Literal("credentials.json"), Globstar],
    [Globstar, Literal("hosts.yml")],
    [Globstar, Literal("hosts.yml"), Globstar],
    [Globstar, Literal("token")],
    [Globstar, Literal("token"), Globstar],
    [Globstar, Literal("token.json")],
    [Globstar, Literal("token.json"), Globstar]]

  ghost predicate Disclosed(patterns: seq<seq<Segment>>, path: Path) {
    exists i :: 0 <= i < |patterns| && Matches(patterns[i], path)
  }

  // ------------------------------------------------- text prefixes, by component

  predicate SlashFree(s: string) {
    forall i :: 0 <= i < |s| ==> s[i] != '/'
  }

  /** Real path components: the kernel allows any octet but a slash in a name. */
  predicate Components(path: Path) {
    forall i :: 0 <= i < |path| ==> SlashFree(path[i])
  }

  /** The path starts with one component that matches. */
  predicate Rooted1(path: Path, name: string) {
    path != [] && Lower(path[0]) == name
  }

  predicate Rooted2(path: Path, first: string, second: string) {
    |path| > 1 && Lower(path[0]) == first && Lower(path[1]) == second
  }

  lemma LowerKeepsSlashes(s: string)
    requires SlashFree(s)
    ensures SlashFree(Lower(s))
  {
    assert forall i :: 0 <= i < |s| ==> LowerChar(s[i]) == '/' ==> s[i] == '/';
  }

  /** Two slash-free heads of texts that agree up to a slash or the end are equal. */
  lemma HeadsAgree(a: string, x: string, c: string, y: string)
    requires SlashFree(a) && SlashFree(c)
    requires x == "" || x[0] == '/'
    requires y == "" || y[0] == '/'
    requires HasPathPrefix(a + x, c + y)
    ensures a == c
  {
    var v, p := a + x, c + y;
    assert forall i :: 0 <= i < |p| ==> v[i] == p[i];
    assert (p + "/")[|c|] == '/';
    assert x != "" ==> v[|a|] == '/';
    assert forall i :: 0 <= i < |a| ==> v[i] == a[i];
    assert forall i :: 0 <= i < |c| ==> p[i] == c[i];
    assert a == v[..|a|] && c == p[..|c|];
  }

  function Rest(path: Path): string
    requires path != []
  {
    if |path| == 1 then "" else "/" + Joined(path[1..])
  }

  lemma JoinedHead(path: Path)
    requires path != []
    ensures Joined(path) == Lower(path[0]) + Rest(path)
  {
  }

  lemma OneComponent(path: Path, name: string)
    requires Components(path) && SlashFree(name) && name != ""
    ensures HasPathPrefix(Joined(path), name) <==> Rooted1(path, name)
  {
    if path != [] {
      JoinedHead(path);
      LowerKeepsSlashes(path[0]);
      assert name + "" == name;
      if HasPathPrefix(Joined(path), name) { HeadsAgree(Lower(path[0]), Rest(path), name, ""); }
      if Rooted1(path, name) && |path| > 1 { assert Joined(path) == (name + "/") + Joined(path[1..]); }
    }
  }

  lemma PrefixBehindHead(head: string, value: string, prefix: string)
    ensures HasPathPrefix(head + value, head + prefix) <==> HasPathPrefix(value, prefix)
  {
    assert (head + value)[|head|..] == value && (head + prefix)[|head|..] == prefix;
    assert head + prefix + "/" == head + (prefix + "/");
    assert (head + (prefix + "/"))[|head|..] == prefix + "/";
    if prefix + "/" <= value { assert value == (prefix + "/") + value[|prefix| + 1..]; }
    if head + prefix + "/" <= head + value {
      assert (head + value)[..|head| + |prefix| + 1] == head + (prefix + "/");
      assert value[..|prefix| + 1] == prefix + "/";
    }
  }

  lemma PrefixGoesDeeper(path: Path, first: string, tail: string)
    requires Components(path) && path != [] && SlashFree(first) && tail != "" && tail[0] == '/'
    requires HasPathPrefix(Joined(path), first + tail)
    ensures |path| > 1 && Lower(path[0]) == first
  {
    JoinedHead(path);
    LowerKeepsSlashes(path[0]);
    HeadsAgree(Lower(path[0]), Rest(path), first, tail);
  }

  lemma TwoComponents(path: Path, first: string, second: string, text: string)
    requires Components(path) && SlashFree(first) && SlashFree(second) && first != "" && second != ""
    requires text == first + "/" + second
    ensures HasPathPrefix(Joined(path), text) <==> Rooted2(path, first, second)
  {
    assert text == first + ("/" + second);
    if path != [] && HasPathPrefix(Joined(path), text) { PrefixGoesDeeper(path, first, "/" + second); }
    if Rooted1(path, first) && |path| > 1 { SecondComponent(path, first, second); }
  }

  lemma SecondComponent(path: Path, first: string, second: string)
    requires Components(path) && |path| > 1 && Lower(path[0]) == first && SlashFree(second) && second != ""
    ensures HasPathPrefix(Joined(path), first + "/" + second) <==> Lower(path[1]) == second
  {
    var rest := path[1..];
    assert Joined(path) == first + "/" + Joined(rest);
    PrefixBehindHead(first + "/", Joined(rest), second);
    OneComponent(rest, second);
  }

  // -------------------------------------------------------------- glob shapes

  lemma MatchesAll(path: Path)
    ensures Matches([Globstar], path)
    decreases |path|
  {
    assert [Globstar][1..] == [];
    if path != [] { MatchesAll(path[1..]); }
  }

  lemma StepGlob(segment: Segment, rest: seq<Segment>, path: Path)
    requires !segment.Globstar?
    ensures Matches([segment] + rest, path)
            <==> path != [] && SegmentMatches(segment, Lower(path[0])) && Matches(rest, path[1..])
  {
    assert ([segment] + rest)[1..] == rest;
  }

  predicate Heads(segment: Segment, path: Path) {
    path != [] && SegmentMatches(segment, Lower(path[0]))
  }

  /** A component and everything below it: the first component matches. */
  lemma RootedGlob(a: Segment, path: Path)
    requires !a.Globstar?
    ensures Matches([a, Globstar], path) <==> Heads(a, path)
    ensures Matches([a], path) ==> Heads(a, path)
  {
    StepGlob(a, [Globstar], path);
    StepGlob(a, [], path);
    assert [a] + [Globstar] == [a, Globstar] && [a] + [] == [a];
    if path != [] { MatchesAll(path[1..]); }
  }

  lemma RootedGlob2(a: Segment, b: Segment, path: Path)
    requires !a.Globstar? && !b.Globstar?
    ensures Matches([a, b, Globstar], path) <==> Heads(a, path) && Heads(b, path[1..])
    ensures Matches([a, b], path) ==> Heads(a, path) && Heads(b, path[1..])
  {
    StepGlob(a, [b, Globstar], path);
    StepGlob(a, [b], path);
    assert [a] + [b, Globstar] == [a, b, Globstar] && [a] + [b] == [a, b];
    if path != [] { RootedGlob(b, path[1..]); }
  }

  predicate SomeComponent(a: Segment, path: Path) {
    exists i :: 0 <= i < |path| && SegmentMatches(a, Lower(path[i]))
  }

  /** A pattern that may start anywhere matches when some component does. */
  lemma {:induction false} AnywhereGlob(a: Segment, path: Path)
    requires !a.Globstar?
    ensures Matches([Globstar, a, Globstar], path) <==> SomeComponent(a, path)
    ensures Matches([Globstar, a], path) ==> SomeComponent(a, path)
    decreases |path|
  {
    assert [Globstar, a, Globstar][1..] == [a, Globstar] && [Globstar, a][1..] == [a];
    RootedGlob(a, path);
    if path != [] {
      AnywhereGlob(a, path[1..]);
      assert forall i :: 0 <= i < |path[1..]| ==> path[1..][i] == path[i + 1];
      assert forall i :: 1 <= i < |path| ==> path[i] == path[1..][i - 1];
    }
  }

  // --------------------------------------------------------------- equivalence

  /** The rooted rules read component by component, in the order they are listed. */
  predicate RootedA(path: Path) {
    || Rooted1(path, ".anthropic")
    || Rooted1(path, ".aws")
    || Rooted1(path, ".azure")
    || Rooted2(path, ".cargo", "credentials")
    || Rooted2(path, ".cargo", "credentials.toml")
  }

  predicate RootedB(path: Path) {
    || Rooted1(path, ".claude")
    || Rooted1(path, ".codex")
    || Rooted2(path, ".config", "anthropic")
    || Rooted2(path, ".config", "gcloud")
    || Rooted2(path, ".config", "gh")
    || Rooted2(path, ".config", "opencode")
  }

  predicate RootedC(path: Path) {
    || Rooted1(path, ".docker")
    || Rooted1(path, ".env")
    || Rooted1(path, ".git-credentials")
    || Rooted1(path, ".gnupg")
  }

  predicate RootedD(path: Path) {
    || Rooted1(path, ".kube")
    || Rooted1(path, ".netrc")
    || Rooted1(path, ".npmrc")
    || Rooted1(path, ".openai")
    || Rooted1(path, ".pypirc")
    || Rooted1(path, ".ssh")
  }

  predicate PrefixIn(path: Path, from: nat, to: nat)
    requires to <= |PREFIXES|
  {
    exists i :: from <= i < to && HasPathPrefix(Joined(path), PREFIXES[i])
  }

  lemma PrefixesA(path: Path)
    requires Components(path)
    ensures PrefixIn(path, 0, 5) <==> RootedA(path)
  {
    OneComponent(path, PREFIXES[0]);
    OneComponent(path, PREFIXES[1]);
    OneComponent(path, PREFIXES[2]);
    TwoComponents(path, ".cargo", "credentials", PREFIXES[3]);
    TwoComponents(path, ".cargo", "credentials.toml", PREFIXES[4]);
  }

  lemma PrefixesB(path: Path)
    requires Components(path)
    ensures PrefixIn(path, 5, 11) <==> RootedB(path)
  {
    OneComponent(path, PREFIXES[5]);
    OneComponent(path, PREFIXES[6]);
    TwoComponents(path, ".config", "anthropic", PREFIXES[7]);
    TwoComponents(path, ".config", "gcloud", PREFIXES[8]);
    TwoComponents(path, ".config", "gh", PREFIXES[9]);
    TwoComponents(path, ".config", "opencode", PREFIXES[10]);
  }

  lemma PrefixesC(path: Path)
    requires Components(path)
    ensures PrefixIn(path, 11, 15) <==> RootedC(path)
  {
    OneComponent(path, PREFIXES[11]);
    OneComponent(path, PREFIXES[12]);
    OneComponent(path, PREFIXES[13]);
    OneComponent(path, PREFIXES[14]);
  }

  lemma PrefixesD(path: Path)
    requires Components(path)
    ensures PrefixIn(path, 15, 21) <==> RootedD(path)
  {
    OneComponent(path, PREFIXES[15]);
    OneComponent(path, PREFIXES[16]);
    OneComponent(path, PREFIXES[17]);
    OneComponent(path, PREFIXES[18]);
    OneComponent(path, PREFIXES[19]);
    OneComponent(path, PREFIXES[20]);
  }

  predicate AnywhereE(path: Path) {
    || SomeComponent(Literal(".pgpass"), path)
    || SomeComponent(Wild("", ".kdbx"), path)
    || SomeComponent(Wild("", ".key"), path)
    || SomeComponent(Wild("", ".p12"), path)
    || SomeComponent(Wild("", ".pem"), path)
    || SomeComponent(Wild("", ".pfx"), path)
  }

  predicate AnywhereF(path: Path) {
    || SomeComponent(Literal("auth.json"), path)
    || SomeComponent(Literal("credentials"), path)
    || SomeComponent(Literal("credentials.json"), path)
    || SomeComponent(Literal("hosts.yml"), path)
    || SomeComponent(Literal("token"), path)
    || SomeComponent(Literal("token.json"), path)
  }

  lemma PatternsA(path: Path)
    ensures Disclosed(PATTERNS_A, path) <==> RootedA(path)
  {
    RootedGlob(Literal(".anthropic"), path);
    assert PATTERNS_A[1] == [Literal(".anthropic"), Globstar];
    RootedGlob(Literal(".aws"), path);
    assert PATTERNS_A[3] == [Literal(".aws"), Globstar];
    RootedGlob(Literal(".azure"), path);
    assert PATTERNS_A[5] == [Literal(".azure"), Globstar];
    RootedGlob2(Literal(".cargo"), Literal("credentials"), path);
    assert PATTERNS_A[7] == [Literal(".cargo"), Literal("credentials"), Globstar];
    RootedGlob2(Literal(".cargo"), Literal("credentials.toml"), path);
    assert PATTERNS_A[9] == [Literal(".cargo"), Literal("credentials.toml"), Globstar];
  }

  lemma PatternsB(path: Path)
    ensures Disclosed(PATTERNS_B, path) <==> RootedB(path)
  {
    RootedGlob(Literal(".claude"), path);
    assert PATTERNS_B[1] == [Literal(".claude"), Globstar];
    RootedGlob(Literal(".codex"), path);
    assert PATTERNS_B[3] == [Literal(".codex"), Globstar];
    RootedGlob2(Literal(".config"), Literal("anthropic"), path);
    assert PATTERNS_B[5] == [Literal(".config"), Literal("anthropic"), Globstar];
    RootedGlob2(Literal(".config"), Literal("gcloud"), path);
    assert PATTERNS_B[7] == [Literal(".config"), Literal("gcloud"), Globstar];
    RootedGlob2(Literal(".config"), Literal("gh"), path);
    assert PATTERNS_B[9] == [Literal(".config"), Literal("gh"), Globstar];
    RootedGlob2(Literal(".config"), Literal("opencode"), path);
    assert PATTERNS_B[11] == [Literal(".config"), Literal("opencode"), Globstar];
  }

  lemma PatternsC(path: Path)
    ensures Disclosed(PATTERNS_C, path) <==> RootedC(path) || Heads(Wild(".env.", ""), path)
  {
    RootedGlob(Literal(".docker"), path);
    assert PATTERNS_C[1] == [Literal(".docker"), Globstar];
    RootedGlob(Wild(".env.", ""), path);
    assert PATTERNS_C[4] == [Wild(".env.", ""), Globstar];
    RootedGlob(Literal(".env"), path);
    assert PATTERNS_C[5] == [Literal(".env"), Globstar];
    RootedGlob(Literal(".git-credentials"), path);
    assert PATTERNS_C[7] == [Literal(".git-credentials"), Globstar];
    RootedGlob(Literal(".gnupg"), path);
    assert PATTERNS_C[9] == [Literal(".gnupg"), Globstar];
  }

  lemma PatternsD(path: Path)
    ensures Disclosed(PATTERNS_D, path) ==> RootedD(path) || Heads(Literal(".pgpass"), path)
    ensures RootedD(path) ==> Disclosed(PATTERNS_D, path)
  {
    RootedGlob(Literal(".kube"), path);
    assert PATTERNS_D[1] == [Literal(".kube"), Globstar];
    RootedGlob(Literal(".netrc"), path);
    assert PATTERNS_D[3] == [Literal(".netrc"), Globstar];
    RootedGlob(Literal(".npmrc"), path);
    assert PATTERNS_D[5] == [Literal(".npmrc"), Globstar];
    RootedGlob(Literal(".openai"), path);
    assert PATTERNS_D[7] == [Literal(".openai"), Globstar];
    RootedGlob(Literal(".pgpass"), path);
    RootedGlob(Literal(".pypirc"), path);
    assert PATTERNS_D[10] == [Literal(".pypirc"), Globstar];
    RootedGlob(Literal(".ssh"), path);
    assert PATTERNS_D[12] == [Literal(".ssh"), Globstar];
  }

  lemma PatternsE(path: Path)
    ensures Disclosed(PATTERNS_E, path) <==> AnywhereE(path)
  {
    AnywhereGlob(Literal(".pgpass"), path);
    assert PATTERNS_E[1] == [Globstar, Literal(".pgpass"), Globstar];
    AnywhereGlob(Wild("", ".kdbx"), path);
    assert PATTERNS_E[3] == [Globstar, Wild("", ".kdbx"), Globstar];
    AnywhereGlob(Wild("", ".key"), path);
    assert PATTERNS_E[5] == [Globstar, Wild("", ".key"), Globstar];
    AnywhereGlob(Wild("", ".p12"), path);
    assert PATTERNS_E[7] == [Globstar, Wild("", ".p12"), Globstar];
    AnywhereGlob(Wild("", ".pem"), path);
    assert PATTERNS_E[9] == [Globstar, Wild("", ".pem"), Globstar];
    AnywhereGlob(Wild("", ".pfx"), path);
    assert PATTERNS_E[11] == [Globstar, Wild("", ".pfx"), Globstar];
  }

  lemma PatternsF(path: Path)
    ensures Disclosed(PATTERNS_F, path) <==> AnywhereF(path)
  {
    AnywhereGlob(Literal("auth.json"), path);
    assert PATTERNS_F[1] == [Globstar, Literal("auth.json"), Globstar];
    AnywhereGlob(Literal("credentials"), path);
    assert PATTERNS_F[3] == [Globstar, Literal("credentials"), Globstar];
    AnywhereGlob(Literal("credentials.json"), path);
    assert PATTERNS_F[5] == [Globstar, Literal("credentials.json"), Globstar];
    AnywhereGlob(Literal("hosts.yml"), path);
    assert PATTERNS_F[7] == [Globstar, Literal("hosts.yml"), Globstar];
    AnywhereGlob(Literal("token"), path);
    assert PATTERNS_F[9] == [Globstar, Literal("token"), Globstar];
    AnywhereGlob(Literal("token.json"), path);
    assert PATTERNS_F[11] == [Globstar, Literal("token.json"), Globstar];
  }

  predicate ComponentE(name: string) {
    || SegmentMatches(Literal(".pgpass"), name)
    || SegmentMatches(Wild("", ".kdbx"), name)
    || SegmentMatches(Wild("", ".key"), name)
    || SegmentMatches(Wild("", ".p12"), name)
    || SegmentMatches(Wild("", ".pem"), name)
    || SegmentMatches(Wild("", ".pfx"), name)
  }

  predicate ComponentF(name: string) {
    || SegmentMatches(Literal("auth.json"), name)
    || SegmentMatches(Literal("credentials"), name)
    || SegmentMatches(Literal("credentials.json"), name)
    || SegmentMatches(Literal("hosts.yml"), name)
    || SegmentMatches(Literal("token"), name)
    || SegmentMatches(Literal("token.json"), name)
  }

  lemma ComponentRules(name: string)
    ensures CredentialShapedComponent(name) <==> ComponentE(Lower(name)) || ComponentF(Lower(name))
  {
  }

  lemma AnywhereByComponent(path: Path)
    ensures AnywhereE(path) <==> exists i :: 0 <= i < |path| && ComponentE(Lower(path[i]))
    ensures AnywhereF(path) <==> exists i :: 0 <= i < |path| && ComponentF(Lower(path[i]))
  {
  }

  lemma AnywhereIsByComponent(path: Path)
    ensures AnywhereE(path) || AnywhereF(path) <==> exists i :: 0 <= i < |path| && CredentialShapedComponent(path[i])
  {
    AnywhereByComponent(path);
    forall i | 0 <= i < |path| { ComponentRules(path[i]); }
  }

  lemma DottedEnvironment(path: Path)
    requires Components(path)
    ensures ".env." <= Joined(path) <==> Heads(Wild(".env.", ""), path)
  {
    if path != [] {
      JoinedHead(path);
      LowerKeepsSlashes(path[0]);
      var name := Lower(path[0]);
      if ".env." <= Joined(path) && |name| < 5 && |path| > 1 { assert Joined(path)[|name|] == '/'; }
    }
  }

  lemma DisclosedAppend(a: seq<seq<Segment>>, b: seq<seq<Segment>>, path: Path)
    ensures Disclosed(a + b, path) <==> Disclosed(a, path) || Disclosed(b, path)
  {
    assert forall i :: 0 <= i < |a| ==> a[i] == (a + b)[i];
    assert forall i :: 0 <= i < |b| ==> b[i] == (a + b)[|a| + i];
  }

  lemma DisclosedSplits(path: Path)
    ensures Disclosed(CREDENTIAL_PATTERNS, path)
       <==> Disclosed(PATTERNS_A, path) || Disclosed(PATTERNS_B, path) || Disclosed(PATTERNS_C, path)
            || Disclosed(PATTERNS_D, path) || Disclosed(PATTERNS_E, path) || Disclosed(PATTERNS_F, path)
  {
    DisclosedAppend(PATTERNS_A, PATTERNS_B, path);
    DisclosedAppend(PATTERNS_A + PATTERNS_B, PATTERNS_C, path);
    DisclosedAppend(PATTERNS_A + PATTERNS_B + PATTERNS_C, PATTERNS_D, path);
    DisclosedAppend(PATTERNS_A + PATTERNS_B + PATTERNS_C + PATTERNS_D, PATTERNS_E, path);
    DisclosedAppend(PATTERNS_A + PATTERNS_B + PATTERNS_C + PATTERNS_D + PATTERNS_E, PATTERNS_F, path);
  }

  /** The text matcher, read component by component. */
  lemma MatcherByComponent(path: Path)
    requires Components(path)
    ensures CredentialShapedPath(path)
       <==> RootedA(path) || RootedB(path) || RootedC(path) || RootedD(path) || Heads(Wild(".env.", ""), path)
            || AnywhereE(path) || AnywhereF(path)
  {
    PrefixesA(path);
    PrefixesB(path);
    PrefixesC(path);
    PrefixesD(path);
    DottedEnvironment(path);
    AnywhereIsByComponent(path);
    OneComponent(path, ".env");
    assert (exists i :: 0 <= i < |PREFIXES| && HasPathPrefix(Joined(path), PREFIXES[i]))
       <==> PrefixIn(path, 0, 5) || PrefixIn(path, 5, 11) || PrefixIn(path, 11, 15) || PrefixIn(path, 15, 21);
  }

  /** The matcher accepts a path exactly when some disclosed pattern matches it. */
  lemma MatcherIsTheDisclosedList(path: Path)
    requires Components(path)
    ensures CredentialShapedPath(path) <==> Disclosed(CREDENTIAL_PATTERNS, path)
  {
    MatcherByComponent(path);
    DisclosedSplits(path);
    PatternsA(path);
    PatternsB(path);
    PatternsC(path);
    PatternsD(path);
    PatternsE(path);
    PatternsF(path);
  }

  lemma RootedInherit(path: Path, below: Path)
    ensures RootedA(path) ==> RootedA(path + below)
    ensures RootedB(path) ==> RootedB(path + below)
    ensures RootedC(path) ==> RootedC(path + below)
    ensures RootedD(path) ==> RootedD(path + below)
    ensures Heads(Wild(".env.", ""), path) ==> Heads(Wild(".env.", ""), path + below)
  {
    assert |path| > 0 ==> (path + below)[0] == path[0];
    assert |path| > 1 ==> (path + below)[1] == path[1];
  }

  lemma AnywhereInherits(path: Path, below: Path)
    requires AnywhereE(path) || AnywhereF(path)
    ensures AnywhereE(path + below) || AnywhereF(path + below)
  {
    AnywhereIsByComponent(path);
    AnywhereIsByComponent(path + below);
    var i :| 0 <= i < |path| && CredentialShapedComponent(path[i]);
    assert (path + below)[i] == path[i];
  }

  /** Everything below a credential-shaped path is credential-shaped. */
  lemma DescendantsInherit(path: Path, below: Path)
    requires Components(path + below) && CredentialShapedPath(path)
    ensures CredentialShapedPath(path + below)
  {
    assert Components(path) by { assert forall i :: 0 <= i < |path| ==> path[i] == (path + below)[i]; }
    MatcherByComponent(path);
    MatcherByComponent(path + below);
    RootedInherit(path, below);
    if AnywhereE(path) || AnywhereF(path) { AnywhereInherits(path, below); }
  }

  // ------------------------------------------------------------ what these mean

  /** The same letter, in upper or lower case, or the same character. */
  predicate SameButForCase(c: char, d: char) {
    c == d || ('a' <= c <= 'z' && d as int == c as int - 32) || ('A' <= c <= 'Z' && d as int == c as int + 32)
  }

  predicate SameNameButForCase(a: string, b: string) {
    |a| == |b| && forall i :: 0 <= i < |a| ==> SameButForCase(a[i], b[i])
  }

  predicate SamePathButForCase(p: Path, q: Path) {
    |p| == |q| && forall i :: 0 <= i < |p| ==> SameNameButForCase(p[i], q[i])
  }

  /** Folding identifies ASCII letters with their other case, and nothing else. */
  lemma FoldingIsAsciiCase(a: string, b: string)
    ensures Lower(a) == Lower(b) <==> SameNameButForCase(a, b)
  {
    assert forall c, d :: LowerChar(c) == LowerChar(d) <==> SameButForCase(c, d);
    if Lower(a) == Lower(b) {
      forall i | 0 <= i < |a|
        ensures SameButForCase(a[i], b[i])
      {
        assert Lower(a)[i] == Lower(b)[i];
      }
    }
  }

  lemma {:induction false} JoinedIgnoresCase(p: Path, q: Path)
    requires SamePathButForCase(p, q)
    ensures Joined(p) == Joined(q)
    decreases |p|
  {
    if p != [] {
      FoldingIsAsciiCase(p[0], q[0]);
      JoinedIgnoresCase(p[1..], q[1..]);
    }
  }

  /** Letter case never decides whether a path is credential-shaped. */
  lemma CaseDoesNotMatter(p: Path, q: Path)
    requires SamePathButForCase(p, q) && CredentialShapedPath(p)
    ensures CredentialShapedPath(q)
  {
    JoinedIgnoresCase(p, q);
    forall i | 0 <= i < |p|
      ensures CredentialShapedComponent(p[i]) ==> CredentialShapedComponent(q[i])
    {
      FoldingIsAsciiCase(p[i], q[i]);
    }
  }

  /** `ends_with` in plain terms. */
  lemma EndsWithIsASuffix(s: string, suffix: string)
    ensures EndsWith(s, suffix) <==> exists head :: s == head + suffix
  {
    if EndsWith(s, suffix) { assert s == s[..|s| - |suffix|] + suffix; }
    if head :| s == head + suffix { assert s[|s| - |suffix|..] == suffix; }
  }

  /** The path is this directory or lies below it. */
  predicate AtOrBelow(path: Path, directory: Path) {
    |path| >= |directory| && forall i :: 0 <= i < |directory| ==> path[i] == directory[i]
  }

  /** Somewhere in the home directory, and neither credential-shaped nor a socket. */
  predicate PlainHome(selector: Selector, path: Path, kind: Kind) {
    selector == Home && !CredentialShapedPath(path) && kind != Socket && path != []
  }

  predicate InCache(caches: seq<Path>, path: Path) {
    path != [] && (path[0] == ".cache" || exists i :: 0 <= i < |caches| && AtOrBelow(path, caches[i]))
  }

  predicate Hidden(path: Path) {
    path != [] && path[0] != "" && path[0][0] == '.'
  }

  lemma StartsWithIsAtOrBelow(path: Path, directory: Path)
    ensures StartsWith(path, directory) <==> AtOrBelow(path, directory)
  {
    if AtOrBelow(path, directory) { assert path[..|directory|] == directory; }
  }

  /** The first three classes depend on the whole path, the kind and the root alone. */
  lemma SpecialClassesExactly(caches: seq<Path>, selector: Selector, path: Path, kind: Kind)
    ensures var c := ClassOf(caches, selector, path, kind);
            && (c == CredentialShaped <==> CredentialShapedPath(path))
            && (c == RuntimeSocket <==> !CredentialShapedPath(path) && kind == Socket)
            && (c == RuntimeOther <==> !CredentialShapedPath(path) && kind != Socket && selector == Runtime)
  {
    var c := ClassOf(caches, selector, path, kind);
    if CredentialShapedPath(path) { assert c == CredentialShaped; }
    else if kind == Socket { assert c == RuntimeSocket; }
    else if selector == Runtime { assert c == RuntimeOther; }
    else if path == [] { assert c == Unclassified; }
    else { assert c in {Cache, Configuration, State, Data, Unclassified}; }
  }

  lemma CachesExactly(caches: seq<Path>, path: Path)
    ensures InCache(caches, path)
       <==> path != [] && (path[0] == ".cache" || exists i :: 0 <= i < |caches| && StartsWith(path, caches[i]))
  {
    forall i | 0 <= i < |caches|
      ensures StartsWith(path, caches[i]) <==> AtOrBelow(path, caches[i])
    {
      StartsWithIsAtOrBelow(path, caches[i]);
    }
  }

  lemma HiddenExactly(path: Path)
    requires path != []
    ensures Hidden(path) <==> "." <= path[0]
    ensures AtOrBelow(path, [".config"]) <==> path[0] == ".config"
  {
  }

  lemma PlainClass(caches: seq<Path>, path: Path, kind: Kind)
    requires PlainHome(Home, path, kind)
    ensures ClassOf(caches, Home, path, kind)
            == if InCache(caches, path) then Cache
               else if path[0] == ".config" then Configuration
               else if StartsWith(path, [".local", "state"]) then State
               else if StartsWith(path, [".local", "share"]) || StartsWith(path, [".local", "bin"]) || !Hidden(path) then Data
               else if |path| == 1 && kind == Regular then Configuration
               else Unclassified
  {
    CachesExactly(caches, path);
    HiddenExactly(path);
  }

  lemma BelowLocal(path: Path, second: string)
    ensures StartsWith(path, [".local", second]) <==> |path| > 1 && path[0] == ".local" && path[1] == second
    ensures AtOrBelow(path, [".local", second]) <==> |path| > 1 && path[0] == ".local" && path[1] == second
  {
    StartsWithIsAtOrBelow(path, [".local", second]);
  }

  predicate IsState(path: Path) {
    AtOrBelow(path, [".local", "state"])
  }

  predicate IsData(path: Path) {
    !Hidden(path) || AtOrBelow(path, [".local", "share"]) || AtOrBelow(path, [".local", "bin"])
  }

  predicate IsConfiguration(path: Path, kind: Kind) {
    AtOrBelow(path, [".config"]) || (Hidden(path) && |path| == 1 && kind == Regular)
  }

  /** The other classes are those of the home directory, in terms of where the entry is and what it is. */
  lemma HomeClassesExactly(caches: seq<Path>, path: Path, kind: Kind)
    requires PlainHome(Home, path, kind)
    ensures var c, elsewhere := ClassOf(caches, Home, path, kind), !InCache(caches, path);
            && (c == Cache <==> InCache(caches, path)) && (c == State <==> elsewhere && IsState(path))
            && (c == Data <==> elsewhere && IsData(path)) && (c == Configuration <==> elsewhere && IsConfiguration(path, kind))
  {
    PlainClass(caches, path, kind);
    HiddenExactly(path);
    BelowLocal(path, "state");
    BelowLocal(path, "share");
    BelowLocal(path, "bin");
  }
}
