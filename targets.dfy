/**
 * The target matrix: the `goci.targets` configuration string, a
 * space-separated list of descriptors `OS:ARCH` optionally followed by a
 * parenthesised, comma-separated tag list, and what each target contributes
 * to its `go build` run (output file name, environment overrides, the C
 * cross-compiler triple under cgo).
 *
 * The descriptor grammar is the regular expression
 * `(\w+):(\w+)(?:\((\w+(?:,\w+)*)\))?` with `\w` = `[0-9A-Za-z_]`. Go's
 * `FindStringSubmatch` searches it anywhere in the token (it is not
 * anchored) and returns the leftmost match, with leftmost-first choices
 * inside it; `FindSubmatch` below does the same by hand.
 */
module Targets {
  import opened Wrappers
  import opened Strs
  import opened Exec

  /** One cross-compilation target; an empty OS or Arch means the host's. */
  datatype Target = Target(os: string, arch: string, useCgo: bool, tags: seq<string>)

  /** The single target used when the configuration string is empty. */
  const DefaultTarget := Target("", "", false, [])

  /** The tag that switches cgo on instead of being passed to the compiler. */
  const CgoTag := "cgo"

  predicate IsWordChar(c: char) {
    ('0' <= c <= '9') || ('A' <= c <= 'Z') || ('a' <= c <= 'z') || c == '_'
  }

  /** `\w+` matches the whole of `s`. */
  predicate IsWord(s: string) {
    |s| > 0 && forall i :: 0 <= i < |s| ==> IsWordChar(s[i])
  }

  /** `\w+(?:,\w+)*` matches the whole of `g`. */
  predicate IsWordList(g: string) {
    forall p :: p in Split(g, ',') ==> IsWord(p)
  }

  // ---------------------------------------------------------------------
  // The matcher

  /** Where the run of word characters starting at `i` ends (`\w*`, greedy). */
  function WordEnd(s: string, i: nat): (r: nat)
    requires i <= |s|
    ensures i <= r <= |s|
    ensures forall k :: i <= k < r ==> IsWordChar(s[k])
    ensures r == |s| || !IsWordChar(s[r])
    decreases |s| - i
  {
    if i < |s| && IsWordChar(s[i]) then WordEnd(s, i + 1) else i
  }

  /** Where `(?:,\w+)*` starting at `q` ends: it takes a repetition whenever a comma is followed by a word. */
  function ListEnd(s: string, q: nat): (r: nat)
    requires q <= |s|
    ensures q <= r <= |s|
    decreases |s| - q
  {
    if q < |s| && s[q] == ',' && WordEnd(s, q + 1) > q + 1 then ListEnd(s, WordEnd(s, q + 1)) else q
  }

  /** The three capture groups; a group that did not take part is "". */
  datatype Submatch = Submatch(os: string, arch: string, tags: string)

  lemma WordSlice(s: string, i: nat, j: nat)
    requires i < j <= |s|
    requires forall k :: i <= k < j ==> IsWordChar(s[k])
    ensures IsWord(s[i..j])
  {
    forall k | 0 <= k < j - i ensures IsWordChar(s[i..j][k]) {
      assert s[i..j][k] == s[i + k];
    }
  }

  /** A single word is a comma list of words. */
  lemma {:induction false} WordIsList(w: string)
    requires IsWord(w)
    ensures ',' !in w
    ensures IsWordList(w)
  {
    assert ',' !in w by {
      forall k | 0 <= k < |w| ensures w[k] != ',' {
        assert IsWordChar(w[k]);
      }
    }
    SplitNoSep(w, ',');
  }

  /** A word, a comma and a comma list of words make a comma list of words. */
  lemma {:induction false} WordListCons(w: string, rest: string)
    requires IsWord(w) && IsWordList(rest)
    ensures IsWordList(w + [','] + rest)
  {
    WordIsList(w);
    SplitCons(w, rest, ',');
    forall piece | piece in Split(w + [','] + rest, ',') ensures IsWord(piece) {
      if piece != w {
        assert piece in Split(rest, ',');
      }
    }
  }

  /** The tag list that a successful `(?:,\w+)*` scan covers is a comma list of words. */
  lemma {:induction false} ListWords(s: string, p: nat, q: nat)
    requires p < q <= |s|
    requires IsWord(s[p..q])
    ensures IsWordList(s[p..ListEnd(s, q)])
    decreases |s| - q
  {
    var e := ListEnd(s, q);
    if q < |s| && s[q] == ',' && WordEnd(s, q + 1) > q + 1 {
      var q' := WordEnd(s, q + 1);
      assert e == ListEnd(s, q');
      WordSlice(s, q + 1, q');
      ListWords(s, q + 1, q');
      assert s[p..e] == s[p..q] + [','] + s[q + 1..e];
      WordListCons(s[p..q], s[q + 1..e]);
    } else {
      WordIsList(s[p..q]);
    }
  }

  /** The optional `\((\w+(?:,\w+)*)\)` group at `k`: its inside when it matches in full, "" otherwise. */
  function TagGroup(s: string, k: nat): (g: string)
    requires k <= |s|
    ensures g == "" || IsWordList(g)
  {
    if k < |s| && s[k] == '(' then
      var q := WordEnd(s, k + 1);
      if q == k + 1 then ""
      else
        var e := ListEnd(s, q);
        if e < |s| && s[e] == ')' then
          WordSlice(s, k + 1, q);
          ListWords(s, k + 1, q);
          s[k + 1..e]
        else ""
    else ""
  }

  /** The match of the expression that starts at position `i`, if there is one. */
  function MatchAt(s: string, i: nat): (m: Option<Submatch>)
    requires i <= |s|
    ensures m.Some? ==> IsWord(m.value.os) && IsWord(m.value.arch)
    ensures m.Some? ==> m.value.tags == "" || IsWordList(m.value.tags)
  {
    var j := WordEnd(s, i);
    if j == i || j == |s| || s[j] != ':' then None
    else
      var k := WordEnd(s, j + 1);
      if k == j + 1 then None
      else
        WordSlice(s, i, j);
        WordSlice(s, j + 1, k);
        Some(Submatch(s[i..j], s[j + 1..k], TagGroup(s, k)))
  }

  /** The leftmost match starting at `i` or later. */
  function FindFrom(s: string, i: nat): (m: Option<Submatch>)
    requires i <= |s|
    ensures m.Some? ==> IsWord(m.value.os) && IsWord(m.value.arch)
    ensures m.Some? ==> m.value.tags == "" || IsWordList(m.value.tags)
    decreases |s| - i
  {
    if MatchAt(s, i).Some? then MatchAt(s, i)
    else if i == |s| then None
    else FindFrom(s, i + 1)
  }

  /** `targetRe.FindStringSubmatch(s)`: None stands for nil. */
  function FindSubmatch(s: string): Option<Submatch> {
    FindFrom(s, 0)
  }

  // ---------------------------------------------------------------------
  // Quoting for error messages

  function HexDigit(d: nat): char
    requires d < 16
  {
    "0123456789abcdef"[d]
  }

  /** How `strconv.Quote` writes one character inside double quotes. */
  function EscapeChar(c: char): string {
    var n := c as int;
    if c == '"' || c == '\\' then ['\\', c]
    else if 0x20 <= n < 0x7f || n >= 0xa0 then [c]
    else if n == 7 then "\\a"
    else if n == 8 then "\\b"
    else if n == 12 then "\\f"
    else if n == 10 then "\\n"
    else if n == 13 then "\\r"
    else if n == 9 then "\\t"
    else if n == 11 then "\\v"
    else if n < 0x80 then ['\\', 'x', HexDigit(n / 16), HexDigit(n % 16)]
    else ['\\', 'u', '0', '0', HexDigit(n / 16), HexDigit(n % 16)]
  }

  function EscapeAll(s: string): (r: string)
    ensures |r| >= |s|
    decreases |s|
  {
    if s == [] then "" else EscapeChar(s[0]) + EscapeAll(s[1..])
  }

  /** The `%q` verb of `fmt.Errorf` applied to a string. */
  function Quote(s: string): (r: string)
    ensures |r| >= |s| + 2 && r[0] == '"' && r[|r| - 1] == '"'
  {
    "\"" + EscapeAll(s) + "\""
  }

  /** A character `strconv.Quote` copies as it is. */
  predicate Plain(c: char) {
    0x20 <= c as int < 0x7f && c != '"' && c != '\\'
  }

  /** A string of plain characters is quoted by wrapping it in double quotes. */
  lemma {:induction false} QuotePlain(s: string)
    requires forall i :: 0 <= i < |s| ==> Plain(s[i])
    ensures Quote(s) == "\"" + s + "\""
  {
    EscapePlain(s);
  }

  lemma {:induction false} EscapePlain(s: string)
    requires forall i :: 0 <= i < |s| ==> Plain(s[i])
    ensures EscapeAll(s) == s
    decreases |s|
  {
    if s != [] {
      EscapePlain(s[1..]);
      assert s == [s[0]] + s[1..];
    }
  }

  // ---------------------------------------------------------------------
  // Parsing (project.go, lines 175-201)

  /** `xs` without the occurrences of `x`, in order. */
  function DropTag(xs: seq<string>, x: string): (r: seq<string>)
    ensures x !in r
    ensures forall y :: y in r <==> y in xs && y != x
    ensures |r| <= |xs|
    decreases |xs|
  {
    if xs == [] then []
    else DropTag(xs[..|xs| - 1], x) + (if xs[|xs| - 1] == x then [] else [xs[|xs| - 1]])
  }

  /** The target one match describes: the tag "cgo" sets `useCgo`; the other tags stay, in order. */
  function TargetOf(m: Submatch): (t: Target)
    ensures t.os == m.os && t.arch == m.arch
    ensures t.useCgo <==> CgoTag in Split(m.tags, ',')
    ensures forall tag :: tag in t.tags <==> tag in Split(m.tags, ',') && tag != CgoTag
  {
    var tags := Split(m.tags, ',');
    Target(m.os, m.arch, CgoTag in tags, DropTag(tags, CgoTag))
  }

  function InvalidTarget(token: string): string {
    "Invalid target " + Quote(token)
  }

  /** One descriptor: the error when nothing in it matches, else its target. */
  function ParseToken(token: string): (r: Result<Target>)
    ensures r.Err? <==> FindSubmatch(token).None?
    ensures r.Err? ==> r.msg == "Invalid target " + Quote(token)
    ensures r.Ok? ==> IsWord(r.value.os) && IsWord(r.value.arch) && CgoTag !in r.value.tags
    ensures r.Ok? ==> r.value.tags == [""] || forall tag :: tag in r.value.tags ==> IsWord(tag)
    ensures r.Ok? ==>
      var m := FindSubmatch(token).value;
      var g := Split(m.tags, ',');
      r.value == Target(m.os, m.arch, CgoTag in g, DropTag(g, CgoTag))
  {
    match FindSubmatch(token)
    case None => Err(InvalidTarget(token))
    case Some(m) =>
      if m.tags == "" then
        assert Split(m.tags, ',') == [""];
        Ok(TargetOf(m))
      else
        Ok(TargetOf(m))
  }

  /** The descriptors in order; the first invalid one stops the parse. */
  function ParseTokens(tokens: seq<string>): (r: Result<seq<Target>>)
    ensures r.Ok? ==> |r.value| == |tokens|
    decreases |tokens|
  {
    if tokens == [] then Ok([])
    else
      match ParseToken(tokens[0])
      case Err(e) => Err(e)
      case Ok(t) =>
        match ParseTokens(tokens[1..])
        case Err(e) => Err(e)
        case Ok(ts) => Ok([t] + ts)
  }

  /** The target list a configuration string describes. */
  function ParseConfig(config: string): (r: Result<seq<Target>>)
    ensures config == "" ==> r == Ok([DefaultTarget])
    ensures r.Ok? ==> |r.value| >= 1
  {
    if config == "" then Ok([DefaultTarget]) else ParseTokens(Split(config, ' '))
  }

  /** `ts` prepended to the success value, errors kept. */
  function Prepend(ts: seq<Target>, r: Result<seq<Target>>): Result<seq<Target>> {
    match r
    case Ok(us) => Ok(ts + us)
    case Err(e) => Err(e)
  }

  lemma PrependNothing(r: Result<seq<Target>>)
    ensures Prepend([], r) == r
  {
    if r.Ok? {
      assert [] + r.value == r.value;
    }
  }

  /** One more token of the parsing loop. */
  lemma ParseTokensStep(targets: seq<Target>, tokens: seq<string>, i: nat)
    requires i < |tokens|
    ensures ParseToken(tokens[i]).Err? ==> Prepend(targets, ParseTokens(tokens[i..])) == Err(ParseToken(tokens[i]).msg)
    ensures ParseToken(tokens[i]).Ok? ==>
      Prepend(targets, ParseTokens(tokens[i..])) == Prepend(targets + [ParseToken(tokens[i]).value], ParseTokens(tokens[i + 1..]))
  {
    assert tokens[i..][1..] == tokens[i + 1..];
    match ParseTokens(tokens[i + 1..])
    case Ok(us) =>
      if ParseToken(tokens[i]).Ok? {
        assert targets + ([ParseToken(tokens[i]).value] + us) == targets + [ParseToken(tokens[i]).value] + us;
      }
    case Err(_) =>
  }

  /**
   * The body of the parsing loop for one token: match it, then split the
   * tag group on "," and turn "cgo" into the flag, keeping the other tags
   * in order.
   */
  method ParseOne(token: string) returns (r: Result<Target>)
    ensures r == ParseToken(token)
  {
    var m := FindSubmatch(token);
    if m.None? {
      return Err(InvalidTarget(token));
    }
    var target := Target(m.value.os, m.value.arch, false, []);
    var tags := Split(m.value.tags, ',');
    for k := 0 to |tags|
      invariant target == Target(m.value.os, m.value.arch, CgoTag in tags[..k], DropTag(tags[..k], CgoTag))
    {
      assert tags[..k + 1] == tags[..k] + [tags[k]];
      assert tags[..k + 1][..k] == tags[..k];
      if tags[k] == CgoTag {
        target := target.(useCgo := true);
      } else {
        target := target.(tags := target.tags + [tags[k]]);
      }
    }
    assert tags[..|tags|] == tags;
    r := Ok(target);
  }

  /**
   * The parsing loop of `StartBuild`: one all-default target for an empty
   * string, else the space-separated tokens in order; the first token that
   * does not match ends the loop with its error.
   */
  method ParseTargets(config: string) returns (r: Result<seq<Target>>)
    ensures r == ParseConfig(config)
  {
    if config == "" {
      return Ok([DefaultTarget]);
    }
    var tokens := Split(config, ' ');
    var targets: seq<Target> := [];
    assert tokens[0..] == tokens;
    PrependNothing(ParseTokens(tokens));
    for i := 0 to |tokens|
      invariant ParseTokens(tokens) == Prepend(targets, ParseTokens(tokens[i..]))
    {
      var t := ParseOne(tokens[i]);
      ParseTokensStep(targets, tokens, i);
      if t.Err? {
        return Err(t.msg);
      }
      targets := targets + [t.value];
    }
    assert tokens[|tokens|..] == [];
    assert targets + [] == targets;
    r := Ok(targets);
  }

  // ---------------------------------------------------------------------
  // Per-target derivation (project.go, lines 206-265)

  /**
   * The output file name: the project name, then "-OS" and "-ARCH" when
   * set, then "-" and the tags joined by "-" when there are tags, then
   * ".exe" for Windows.
   */
  function OutputName(projName: string, t: Target): (r: string)
    ensures |r| >= |projName| && r[..|projName|] == projName
    ensures t.os == "windows" ==> |r| >= |projName| + 4 && r[|r| - 4..] == ".exe"
  {
    projName
      + (if t.os != "" then "-" + t.os else "")
      + (if t.arch != "" then "-" + t.arch else "")
      + (if |t.tags| > 0 then "-" + Join(t.tags, '-') else "")
      + (if t.os == "windows" then ".exe" else "")
  }

  /** The architecture half of the C cross-compiler triple; None for one the table does not know. */
  function CcArch(arch: string): (r: Option<string>)
    ensures r == Some("") <==> arch == ""
    ensures r == Some("x86_64") <==> arch == "amd64"
    ensures r == Some("x86") <==> arch == "386"
    ensures r.None? <==> arch !in {"", "amd64", "386"}
  {
    if arch == "" then Some("")
    else if arch == "amd64" then Some("x86_64")
    else if arch == "386" then Some("x86")
    else None
  }

  /** The system half of the C cross-compiler triple; None for one the table does not know. */
  function CcOs(os: string): (r: Option<string>)
    ensures r == Some("") <==> os == ""
    ensures r == Some("unknown-linux-gnu") <==> os == "linux"
    ensures r == Some("w64-mingw32") <==> os == "windows"
    ensures r.None? <==> os !in {"", "linux", "windows"}
  {
    if os == "" then Some("")
    else if os == "linux" then Some("unknown-linux-gnu")
    else if os == "windows" then Some("w64-mingw32")
    else None
  }

  /** The `CC=` entry under cgo: present only when both halves of the triple are known and non-empty. */
  function CcVar(t: Target): (r: seq<string>)
    ensures |r| <= 1
    ensures r != [] ==> t.arch in {"amd64", "386"} && t.os in {"linux", "windows"}
  {
    var arch := CcArch(t.arch).GetOr("");
    var os := CcOs(t.os).GetOr("");
    if arch != "" && os != "" then ["CC=" + arch + "-" + os + "-gcc"] else []
  }

  /** The entries appended to `os.Environ()` for one target, in the order the code appends them. */
  function EnvOverrides(t: Target): (r: seq<string>)
    ensures 1 <= |r| <= 4
    ensures !t.useCgo ==> r[|r| - 1] == "CGO_ENABLED=0"
  {
    (if t.os != "" then ["GOOS=" + t.os] else [])
      + (if t.arch != "" then ["GOARCH=" + t.arch] else [])
      + (if t.useCgo then ["CGO_ENABLED=1"] + CcVar(t) else ["CGO_ENABLED=0"])
  }

  /**
   * The error the cgo branch stores in the pipeline's outer `err`: an
   * unknown OS, or failing that an unknown architecture (the OS check comes
   * second in the code and overwrites the first).
   */
  function PlatformError(t: Target): (r: Option<string>)
    ensures r.Some? ==> t.useCgo && (CcOs(t.os).None? || CcArch(t.arch).None?)
  {
    if !t.useCgo then None
    else if CcOs(t.os).None? then Some("Unknown OS " + Quote(t.os))
    else if CcArch(t.arch).None? then Some("Unknown architecture " + Quote(t.arch))
    else None
  }
}
