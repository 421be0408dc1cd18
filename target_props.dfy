/**
 * Properties of target parsing and of what each target derives: the
 * descriptor syntax round-trips through the parser, the search for a match
 * is unanchored, the first bad descriptor decides the error, "cgo" is
 * taken out of the tag list without disturbing the order of the rest, and
 * the output name and environment follow the fixed tables.
 */
module TargetProps {
  import opened Wrappers
  import opened Strs
  import opened Exec
  import opened Targets

  // ---------------------------------------------------------------------
  // The descriptor of a target

  /**
   * The targets a descriptor can produce: word OS and architecture, and
   * either no tag group (tags `[""]`, no cgo) or a group of word tags
   * without "cgo" that is not empty once "cgo" is counted.
   */
  predicate Canonical(t: Target) {
    && IsWord(t.os) && IsWord(t.arch)
    && ((t.tags == [""] && !t.useCgo)
        || (&& CgoTag !in t.tags
            && (forall k :: 0 <= k < |t.tags| ==> IsWord(t.tags[k]))
            && (t.useCgo || t.tags != [])))
  }

  /** The words written in a target's tag group, "cgo" last. */
  function GroupTags(t: Target): seq<string> {
    t.tags + (if t.useCgo then [CgoTag] else [])
  }

  /** The descriptor `os:arch` or `os:arch(tag,...)` that describes `t`. */
  function Format(t: Target): string {
    if t.tags == [""] && !t.useCgo then t.os + ":" + t.arch
    else t.os + ":" + t.arch + "(" + Join(GroupTags(t), ',') + ")"
  }

  function Formats(ts: seq<Target>): seq<string>
    decreases |ts|
  {
    if ts == [] then [] else [Format(ts[0])] + Formats(ts[1..])
  }

  // ---------------------------------------------------------------------
  // The matcher on descriptors

  /** The greedy `\w*` scan stops exactly at the first non-word character. */
  lemma {:induction false} WordEndAt(s: string, i: nat, j: nat)
    requires i <= j <= |s|
    requires forall k :: i <= k < j ==> IsWordChar(s[k])
    requires j == |s| || !IsWordChar(s[j])
    ensures WordEnd(s, i) == j
    decreases j - i
  {
    if i < j {
      WordEndAt(s, i + 1, j);
    }
  }

  lemma {:induction false} WordNoComma(w: string)
    requires IsWord(w)
    ensures ',' !in w && ' ' !in w && ':' !in w && '(' !in w && ')' !in w
  {
    forall k | 0 <= k < |w|
      ensures w[k] != ',' && w[k] != ' ' && w[k] != ':' && w[k] != '(' && w[k] != ')'
    {
      assert IsWordChar(w[k]);
    }
  }

  /** Between `i` and `e`, `s` holds word characters and commas, each comma followed by a word character. */
  predicate ListBody(s: string, i: nat, e: nat) {
    && i <= e <= |s|
    && forall k :: i <= k < e ==> BodyChar(s, k, e)
  }

  predicate BodyChar(s: string, k: nat, e: nat)
    requires k < e <= |s|
  {
    IsWordChar(s[k]) || (s[k] == ',' && k + 1 < e && IsWordChar(s[k + 1]))
  }

  /** Position `e` ends a list: the end of `s`, or a character that neither continues a word nor the list. */
  predicate ListStop(s: string, e: nat)
    requires e <= |s|
  {
    e == |s| || (!IsWordChar(s[e]) && s[e] != ',')
  }

  lemma {:induction false} WordInBody(s: string, i: nat, e: nat)
    requires ListBody(s, i, e) && ListStop(s, e)
    requires i < e && IsWordChar(s[i])
    ensures i < WordEnd(s, i) <= e
    ensures WordEnd(s, i) == e || s[WordEnd(s, i)] == ','
  {
    var r := WordEnd(s, i);
    if r < e {
      assert BodyChar(s, r, e);
    }
  }

  lemma {:induction false} ListEndBody(s: string, q: nat, e: nat)
    requires ListBody(s, q, e) && ListStop(s, e)
    requires q == e || s[q] == ','
    ensures ListEnd(s, q) == e
    decreases e - q
  {
    if q < e {
      assert BodyChar(s, q, e);
      WordInBody(s, q + 1, e);
      var r := WordEnd(s, q + 1);
      ListEndBody(s, r, e);
    }
  }

  /** A comma list of words is a list body from its first character, which is a word character. */
  lemma {:induction false} JoinBody(words: seq<string>)
    requires |words| >= 1
    requires forall i :: 0 <= i < |words| ==> IsWord(words[i])
    ensures |Join(words, ',')| > 0 && IsWordChar(Join(words, ',')[0])
    ensures ListBody(Join(words, ','), 0, |Join(words, ',')|)
    decreases |words|
  {
    var j := Join(words, ',');
    var w := words[0];
    if |words| == 1 {
      assert j == w;
      forall k | 0 <= k < |j| ensures BodyChar(j, k, |j|) {
      }
    } else {
      var rest := words[1..];
      var r := Join(rest, ',');
      assert j == w + [','] + r;
      forall i | 0 <= i < |rest| ensures IsWord(rest[i]) {
        assert rest[i] == words[i + 1];
      }
      JoinBody(rest);
      forall k | 0 <= k < |j|
        ensures BodyChar(j, k, |j|)
      {
        if k < |w| {
          assert j[k] == w[k];
        } else if k == |w| {
          assert j[k + 1] == r[0];
        } else {
          var k' := k - |w| - 1;
          assert j[k] == r[k'];
          assert BodyChar(r, k', |r|);
          if k' + 1 < |r| {
            assert j[k + 1] == r[k' + 1];
          }
        }
      }
    }
  }

  /** A list body stays one when the string is placed between other strings. */
  lemma {:induction false} BodyShift(a: string, j: string, b: string)
    requires ListBody(j, 0, |j|)
    ensures ListBody(a + j + b, |a|, |a| + |j|)
  {
    var s := a + j + b;
    var e := |a| + |j|;
    forall k | |a| <= k < e
      ensures BodyChar(s, k, e)
    {
      assert s[k] == j[k - |a|];
      assert BodyChar(j, k - |a|, |j|);
      if k + 1 < |a| + |j| {
        assert s[k + 1] == j[k + 1 - |a|];
      }
    }
  }

  /** Where each part of a descriptor sits. */
  lemma {:induction false} FormatParts(t: Target)
    requires Canonical(t)
    ensures Format(t) == t.os + ":" + t.arch + (if t.tags == [""] && !t.useCgo then "" else "(" + Join(GroupTags(t), ',') + ")")
  {
  }

  /** The tag group of a canonical target is a non-empty list of words. */
  lemma {:induction false} GroupWords(t: Target)
    requires Canonical(t)
    requires !(t.tags == [""] && !t.useCgo)
    ensures |GroupTags(t)| >= 1
    ensures forall i :: 0 <= i < |GroupTags(t)| ==> IsWord(GroupTags(t)[i])
  {
    forall i | 0 <= i < |GroupTags(t)|
      ensures IsWord(GroupTags(t)[i])
    {
      if i < |t.tags| {
        assert GroupTags(t)[i] == t.tags[i];
      } else {
        assert GroupTags(t)[i] == CgoTag;
      }
    }
  }

  /** The groups of a canonical target's descriptor. */
  function Groups(t: Target): Submatch {
    Submatch(t.os, t.arch, if t.tags == [""] && !t.useCgo then "" else Join(GroupTags(t), ','))
  }

  /** A descriptor placed after anything matches right there, with its own three groups. */
  lemma {:induction false} MatchFormat(pre: string, t: Target)
    requires Canonical(t)
    ensures MatchAt(pre + Format(t), |pre|) == Some(Groups(t))
  {
    var bare := t.tags == [""] && !t.useCgo;
    var g := Join(GroupTags(t), ',');
    var group := if bare then "" else "(" + g + ")";
    FormatParts(t);
    var os, arch := t.os, t.arch;
    var s := pre + Format(t);
    assert s == pre + os + ":" + arch + group;
    var i, j, k := |pre|, |pre| + |os|, |pre| + |os| + 1 + |arch|;
    assert s[i..j] == os;
    assert s[j] == ':';
    assert s[j + 1..k] == arch;
    if bare {
      assert k == |s|;
      MatchAtSlices(s, i, j, k);
    } else {
      var e := k + 1 + |g|;
      assert s[k] == '(' && s[k + 1..e] == g && s[e] == ')';
      MatchAtSlices(s, i, j, k);
      GroupWords(t);
      TagGroupComplete(s, k, e, GroupTags(t));
    }
  }

  // ---------------------------------------------------------------------
  // What the matcher finds in any string

  /** At `i` starts a word that ends at `j`, a colon, and a word from `j + 1` to `k`. */
  predicate WordColonWord(s: string, i: nat, j: nat, k: nat) {
    i < j < k <= |s| && IsWord(s[i..j]) && s[j] == ':' && IsWord(s[j + 1..k])
  }

  /** The word characters of a word are those of the string it is a slice of. */
  lemma WordChars(s: string, i: nat, j: nat)
    requires i <= j <= |s| && IsWord(s[i..j])
    ensures forall k :: i <= k < j ==> IsWordChar(s[k])
  {
    forall k | i <= k < j ensures IsWordChar(s[k]) {
      assert s[k] == s[i..j][k - i];
    }
  }

  /**
   * A word, a colon and a word that runs to its end are matched at `i`,
   * with those two words as the first two groups and the tag group after them.
   */
  lemma {:induction false} MatchAtSlices(s: string, i: nat, j: nat, k: nat)
    requires WordColonWord(s, i, j, k)
    requires k == |s| || !IsWordChar(s[k])
    ensures MatchAt(s, i) == Some(Submatch(s[i..j], s[j + 1..k], TagGroup(s, k)))
  {
    WordChars(s, i, j);
    WordChars(s, j + 1, k);
    WordEndAt(s, i, j);
    WordEndAt(s, j + 1, k);
  }

  /** The expression matches at `i` exactly when a word, a colon and a word start there. */
  lemma {:induction false} MatchAtIff(s: string, i: nat)
    requires i <= |s|
    ensures MatchAt(s, i).Some? <==> exists j: nat, k: nat :: WordColonWord(s, i, j, k)
  {
    var j := WordEnd(s, i);
    if MatchAt(s, i).Some? {
      var k := WordEnd(s, j + 1);
      WordSlice(s, i, j);
      WordSlice(s, j + 1, k);
      assert WordColonWord(s, i, j, k);
    }
    if exists j': nat, k': nat :: WordColonWord(s, i, j', k') {
      var j': nat, k': nat :| WordColonWord(s, i, j', k');
      WordChars(s, i, j');
      WordChars(s, j' + 1, k');
      WordEndAt(s, i, j');
      assert WordEnd(s, j' + 1) >= k' by {
        WordEndPast(s, j' + 1, k');
      }
    }
  }

  /** The greedy scan passes every word character in a row. */
  lemma {:induction false} WordEndPast(s: string, i: nat, k: nat)
    requires i <= k <= |s|
    requires forall m :: i <= m < k ==> IsWordChar(s[m])
    ensures WordEnd(s, i) >= k
    decreases k - i
  {
    if i < k {
      WordEndPast(s, i + 1, k);
    }
  }

  /**
   * A match at `i` consists of its first group, a colon and its second
   * group, the second running to the end of its word, and the tag group is
   * read right after it.
   */
  lemma {:induction false} MatchAtGroups(s: string, i: nat)
    requires i <= |s| && MatchAt(s, i).Some?
    ensures var m := MatchAt(s, i).value;
      var j := i + |m.os|;
      var k := j + 1 + |m.arch|;
      && WordColonWord(s, i, j, k)
      && s[i..j] == m.os && s[j + 1..k] == m.arch
      && (k == |s| || !IsWordChar(s[k]))
      && m.tags == TagGroup(s, k)
  {
    var j := WordEnd(s, i);
    var k := WordEnd(s, j + 1);
    WordSlice(s, i, j);
    WordSlice(s, j + 1, k);
  }

  /** After `(` at `k`, a comma list of words up to `e` and then `)`. */
  predicate FullGroup(s: string, k: nat, e: nat) {
    k + 1 < e < |s| && s[k] == '(' && s[e] == ')' && IsWordList(s[k + 1..e])
  }

  /** A complete tag group is read as the text between its parentheses. */
  lemma {:induction false} TagGroupComplete(s: string, k: nat, e: nat, ws: seq<string>)
    requires k + 1 < e < |s| && s[k] == '(' && s[e] == ')'
    requires |ws| >= 1 && (forall n :: 0 <= n < |ws| ==> IsWord(ws[n]))
    requires s[k + 1..e] == Join(ws, ',')
    ensures TagGroup(s, k) == s[k + 1..e]
  {
    var j := Join(ws, ',');
    JoinBody(ws);
    assert s == s[..k + 1] + j + s[e..];
    BodyShift(s[..k + 1], j, s[e..]);
    assert s[k + 1] == j[0];
    WordInBody(s, k + 1, e);
    ListEndBody(s, WordEnd(s, k + 1), e);
  }

  /**
   * The tag group at `k` is not empty exactly when a complete group starts
   * there, and it is then the text between the parentheses.
   */
  lemma {:induction false} TagGroupIff(s: string, k: nat)
    requires k <= |s|
    ensures TagGroup(s, k) != "" <==> exists e: nat :: FullGroup(s, k, e)
    ensures TagGroup(s, k) != "" ==> FullGroup(s, k, k + 1 + |TagGroup(s, k)|)
    ensures forall e: nat :: FullGroup(s, k, e) ==> TagGroup(s, k) == s[k + 1..e]
  {
    forall e: nat | FullGroup(s, k, e)
      ensures TagGroup(s, k) == s[k + 1..e]
    {
      var g := s[k + 1..e];
      var ws := Split(g, ',');
      JoinSplit(g, ',');
      TagGroupComplete(s, k, e, ws);
    }
    if TagGroup(s, k) != "" {
      var q := WordEnd(s, k + 1);
      var e := ListEnd(s, q);
      assert TagGroup(s, k) == s[k + 1..e];
      assert FullGroup(s, k, e);
    }
  }

  /** The search from `i` finds nothing exactly when no position from `i` on matches. */
  lemma {:induction false} FindFromNone(s: string, i: nat)
    requires i <= |s|
    ensures FindFrom(s, i).None? <==> forall p :: i <= p <= |s| ==> MatchAt(s, p).None?
    decreases |s| - i
  {
    if MatchAt(s, i).None? && i < |s| {
      assert FindFrom(s, i) == FindFrom(s, i + 1);
      FindFromNone(s, i + 1);
    }
  }

  /** A match found from `i` is the match at the leftmost position from `i` on that matches. */
  lemma {:induction false} FindFromLeftmost(s: string, i: nat)
    requires i <= |s| && FindFrom(s, i).Some?
    ensures exists p :: i <= p <= |s| && MatchAt(s, p) == FindFrom(s, i) && forall q :: i <= q < p ==> MatchAt(s, q).None?
    decreases |s| - i
  {
    if MatchAt(s, i).Some? {
      assert MatchAt(s, i) == FindFrom(s, i);
    } else {
      assert i < |s| && FindFrom(s, i) == FindFrom(s, i + 1);
      FindFromLeftmost(s, i + 1);
      var p :| i + 1 <= p <= |s| && MatchAt(s, p) == FindFrom(s, i + 1) && forall q :: i + 1 <= q < p ==> MatchAt(s, q).None?;
      assert forall q :: i <= q < p ==> MatchAt(s, q).None?;
    }
  }

  lemma {:induction false} DropTagNone(xs: seq<string>, x: string)
    requires x !in xs
    ensures DropTag(xs, x) == xs
    decreases |xs|
  {
    if xs != [] {
      assert xs == xs[..|xs| - 1] + [xs[|xs| - 1]];
      DropTagNone(xs[..|xs| - 1], x);
    }
  }

  /** A tag appended at the end is dropped when it is the word, and kept last otherwise. */
  lemma {:induction false} DropTagSnoc(xs: seq<string>, y: string, x: string)
    ensures DropTag(xs + [y], x) == DropTag(xs, x) + (if y == x then [] else [y])
  {
    var zs := xs + [y];
    assert zs[..|zs| - 1] == xs;
    assert zs[|zs| - 1] == y;
  }

  /** Dropping a word from a concatenation drops it from each part, and the parts keep their order. */
  lemma {:induction false} DropTagAppend(a: seq<string>, b: seq<string>, x: string)
    ensures DropTag(a + b, x) == DropTag(a, x) + DropTag(b, x)
    decreases |b|
  {
    if b != [] {
      var b' := b[..|b| - 1];
      var y := b[|b| - 1];
      assert b == b' + [y];
      assert a + b == (a + b') + [y];
      DropTagSnoc(a + b', y, x);
      DropTagSnoc(b', y, x);
      DropTagAppend(a, b', x);
    } else {
      assert a + b == a;
    }
  }

  /** A single tag is dropped when it is the word and kept otherwise. */
  lemma {:induction false} DropTagSingle(y: string, x: string)
    ensures DropTag([y], x) == if y == x then [] else [y]
  {
    DropTagSnoc([], y, x);
    assert [] + [y] == [y];
  }

  /** The target a canonical descriptor's groups describe is the target itself. */
  lemma {:induction false} TargetOfFormat(t: Target)
    requires Canonical(t)
    ensures TargetOf(Groups(t)) == t
  {
    if t.tags == [""] && !t.useCgo {
      assert Split("", ',') == [""];
      assert DropTag([""], CgoTag) == DropTag([], CgoTag) + [""];
    } else {
      var g := GroupTags(t);
      GroupWords(t);
      forall i | 0 <= i < |g|
        ensures ',' !in g[i]
      {
        WordNoComma(g[i]);
      }
      SplitJoin(g, ',');
      DropTagNone(t.tags, CgoTag);
      if t.useCgo {
        DropTagSnoc(t.tags, CgoTag, CgoTag);
      } else {
        assert g == t.tags;
      }
    }
  }

  /** A canonical target's descriptor parses back to that target. */
  lemma {:induction false} ParseFormat(t: Target)
    requires Canonical(t)
    ensures ParseToken(Format(t)) == Ok(t)
  {
    MatchFormat("", t);
    assert "" + Format(t) == Format(t);
    TargetOfFormat(t);
  }

  /**
   * Any descriptor with a tag group parses: every word of the group, in
   * any order and with repeats, is a tag except "cgo", which switches cgo
   * on; whatever follows the group is ignored.
   */
  lemma {:induction false} ParseGroup(os: string, arch: string, tags: seq<string>, post: string)
    requires IsWord(os) && IsWord(arch)
    requires |tags| >= 1 && forall n :: 0 <= n < |tags| ==> IsWord(tags[n])
    ensures ParseToken(os + ":" + arch + "(" + Join(tags, ',') + ")" + post)
      == Ok(Target(os, arch, CgoTag in tags, DropTag(tags, CgoTag)))
  {
    var g := Join(tags, ',');
    var s := os + ":" + arch + "(" + g + ")" + post;
    var j := |os|;
    var k := j + 1 + |arch|;
    var e := k + 1 + |g|;
    assert s[0..j] == os;
    assert s[j + 1..k] == arch;
    assert s[k + 1..e] == g;
    assert s[j] == ':' && s[k] == '(' && s[e] == ')';
    MatchAtSlices(s, 0, j, k);
    TagGroupComplete(s, k, e, tags);
    assert FindSubmatch(s) == Some(Submatch(os, arch, g));
    forall n | 0 <= n < |tags|
      ensures ',' !in tags[n]
    {
      WordNoComma(tags[n]);
    }
    SplitJoin(tags, ',');
  }

  /**
   * A descriptor with no tag group parses to a target without cgo whose
   * only tag is empty; after the second word may come anything that is
   * neither a word character nor an opening parenthesis.
   */
  lemma {:induction false} ParseBare(os: string, arch: string, post: string)
    requires IsWord(os) && IsWord(arch)
    requires post == "" || (!IsWordChar(post[0]) && post[0] != '(')
    ensures ParseToken(os + ":" + arch + post) == Ok(Target(os, arch, false, [""]))
  {
    var s := os + ":" + arch + post;
    var j := |os|;
    var k := j + 1 + |arch|;
    assert s[0..j] == os;
    assert s[j + 1..k] == arch;
    assert s[j] == ':';
    assert k < |s| ==> s[k] == post[0];
    MatchAtSlices(s, 0, j, k);
    assert FindSubmatch(s) == Some(Submatch(os, arch, ""));
    assert Split("", ',') == [""];
    DropTagSingle("", CgoTag);
  }

  /** Dropping the middle one of three tags keeps the outer two in order. */
  lemma {:induction false} DropMiddle(a: string, y: string, b: string, x: string)
    requires a != x && y == x && b != x
    ensures DropTag([a, y, b], x) == [a, b]
  {
    assert [a, y, b] == [a, y] + [b];
    assert [a, y] == [a] + [y];
    DropTagSingle(a, x);
    DropTagSingle(y, x);
    DropTagSingle(b, x);
    DropTagAppend([a], [y], x);
    DropTagAppend([a, y], [b], x);
  }

  /** "cgo" among other tags switches cgo on and leaves the others in order. */
  lemma CgoAmongTags()
    ensures ParseToken("linux:amd64(a,cgo,b)") == Ok(Target("linux", "amd64", true, ["a", "b"]))
  {
    var tags := ["a", "cgo", "b"];
    assert Join(tags, ',') == "a,cgo,b";
    assert "linux" + ":" + "amd64" + "(" + "a,cgo,b" + ")" + "" == "linux:amd64(a,cgo,b)";
    assert IsWord(tags[0]) && IsWord(tags[1]) && IsWord(tags[2]);
    assert IsWord("linux") && IsWord("amd64");
    assert CgoTag in tags;
    DropMiddle("a", "cgo", "b", CgoTag);
    ParseGroup("linux", "amd64", tags, "");
  }

  /** A repeated "cgo" is dropped every time. */
  lemma CgoTwice()
    ensures ParseToken("linux:amd64(cgo,cgo)") == Ok(Target("linux", "amd64", true, []))
  {
    var tags := ["cgo", "cgo"];
    assert Join(tags, ',') == "cgo,cgo";
    assert "linux" + ":" + "amd64" + "(" + "cgo,cgo" + ")" + "" == "linux:amd64(cgo,cgo)";
    assert tags == ["cgo"] + ["cgo"];
    DropTagSingle("cgo", CgoTag);
    DropTagAppend(["cgo"], ["cgo"], CgoTag);
    assert IsWord(tags[0]) && IsWord(tags[1]);
    assert IsWord("linux") && IsWord("amd64");
    ParseGroup("linux", "amd64", tags, "");
  }

  /** The second word runs as far as the word characters go; trailing punctuation is ignored. */
  lemma LongArchBare()
    ensures ParseToken("linux:amd64xyz!") == Ok(Target("linux", "amd64xyz", false, [""]))
  {
    assert "linux" + ":" + "amd64xyz" + "!" == "linux:amd64xyz!";
    assert IsWord("linux") && IsWord("amd64xyz");
    ParseBare("linux", "amd64xyz", "!");
  }

  /**
   * The search is unanchored: characters that cannot start a word in front
   * of a descriptor are skipped over, and the descriptor still parses.
   */
  lemma {:induction false} ParseAfterJunk(junk: string, t: Target)
    requires Canonical(t)
    requires forall i :: 0 <= i < |junk| ==> !IsWordChar(junk[i])
    ensures ParseToken(junk + Format(t)) == Ok(t)
  {
    var s := junk + Format(t);
    MatchFormat(junk, t);
    TargetOfFormat(t);
    SkipJunk(s, junk, 0);
  }

  lemma {:induction false} SkipJunk(s: string, junk: string, i: nat)
    requires IsPrefix(junk, s) && i <= |junk|
    requires forall k :: 0 <= k < |junk| ==> !IsWordChar(junk[k])
    ensures FindFrom(s, i) == FindFrom(s, |junk|)
    decreases |junk| - i
  {
    if i < |junk| {
      assert s[i] == junk[i];
      WordEndAt(s, i, i);
      SkipJunk(s, junk, i + 1);
    }
  }

  /** A descriptor without a colon is invalid, and the error quotes it in full. */
  lemma {:induction false} NoColonInvalid(token: string)
    requires ':' !in token
    ensures ParseToken(token) == Err("Invalid target " + Quote(token))
  {
    NoColonNoMatch(token, 0);
  }

  lemma {:induction false} NoColonNoMatch(s: string, i: nat)
    requires ':' !in s && i <= |s|
    ensures FindFrom(s, i) == None
    decreases |s| - i
  {
    var j := WordEnd(s, i);
    assert j < |s| ==> s[j] != ':';
    if i < |s| {
      NoColonNoMatch(s, i + 1);
    }
  }

  // ---------------------------------------------------------------------
  // The configuration string

  lemma {:induction false} FormatNoSpace(t: Target)
    requires Canonical(t)
    ensures ' ' !in Format(t) && |Format(t)| > 0
  {
    WordNoComma(t.os);
    WordNoComma(t.arch);
    if !(t.tags == [""] && !t.useCgo) {
      GroupWords(t);
      forall i | 0 <= i < |GroupTags(t)|
        ensures ' ' !in GroupTags(t)[i]
      {
        WordNoComma(GroupTags(t)[i]);
      }
      InJoin(GroupTags(t), ',', ' ');
    }
  }

  lemma ParseFormats(ts: seq<Target>)
    requires forall i :: 0 <= i < |ts| ==> Canonical(ts[i])
    ensures |Formats(ts)| == |ts|
    ensures forall i :: 0 <= i < |ts| ==> Formats(ts)[i] == Format(ts[i])
    ensures ParseTokens(Formats(ts)) == Ok(ts)
  {
    FormatsAt(ts);
    var fs := Formats(ts);
    forall i | 0 <= i < |ts|
      ensures ParseToken(fs[i]) == Ok(ts[i])
    {
      ParseFormat(ts[i]);
    }
    ParseTokensAllOk(fs, ts);
  }

  /** The descriptors of a list of targets, one per target and in order. */
  lemma {:induction false} FormatsAt(ts: seq<Target>)
    ensures |Formats(ts)| == |ts|
    ensures forall i :: 0 <= i < |ts| ==> Formats(ts)[i] == Format(ts[i])
    decreases |ts|
  {
    if ts != [] {
      FormatsAt(ts[1..]);
      assert forall i :: 1 <= i < |ts| ==> ts[i] == ts[1..][i - 1];
    }
  }

  /** A parse that succeeds on the first descriptor and on the rest succeeds on the whole list. */
  lemma ParseTokensCons(tokens: seq<string>, t: Target, ts: seq<Target>)
    requires tokens != [] && ParseToken(tokens[0]) == Ok(t) && ParseTokens(tokens[1..]) == Ok(ts)
    ensures ParseTokens(tokens) == Ok([t] + ts)
  {
  }

  /**
   * Writing canonical targets as descriptors separated by single spaces
   * gives a configuration that parses back to the same targets, in order.
   */
  lemma {:induction false} ParseConfigFormat(ts: seq<Target>)
    requires |ts| >= 1
    requires forall i :: 0 <= i < |ts| ==> Canonical(ts[i])
    ensures ParseConfig(Join(Formats(ts), ' ')) == Ok(ts)
  {
    ParseFormats(ts);
    var fs := Formats(ts);
    forall i | 0 <= i < |fs|
      ensures ' ' !in fs[i]
    {
      FormatNoSpace(ts[i]);
    }
    FormatNoSpace(ts[0]);
    SplitJoin(fs, ' ');
    assert Join(fs, ' ') != "" by {
      if |fs| > 1 {
        assert Join(fs, ' ') == fs[0] + [' '] + Join(fs[1..], ' ');
      }
    }
  }

  /** The parse stops at the first invalid descriptor, with that descriptor's error. */
  lemma {:induction false} ParseTokensFirstError(tokens: seq<string>, k: nat)
    requires k < |tokens| && ParseToken(tokens[k]).Err?
    requires forall i :: 0 <= i < k ==> ParseToken(tokens[i]).Ok?
    ensures ParseTokens(tokens) == Err(InvalidTarget(tokens[k]))
    decreases k, 1
  {
    if k == 0 {
      ParseTokensHeadErr(tokens);
    } else {
      ParseTokensLaterError(tokens, k);
    }
  }

  /** The inductive step: a valid first descriptor passes the error of the rest through. */
  lemma {:induction false} ParseTokensLaterError(tokens: seq<string>, k: nat)
    requires 0 < k < |tokens| && ParseToken(tokens[k]).Err?
    requires forall i :: 0 <= i < k ==> ParseToken(tokens[i]).Ok?
    ensures ParseTokens(tokens) == Err(InvalidTarget(tokens[k]))
    decreases k, 0
  {
    var rest := tokens[1..];
    assert rest[k - 1] == tokens[k];
    OkPrefixTail(ParseToken, tokens, k);
    ParseTokensFirstError(rest, k - 1);
    ParseTokensTailErr(tokens);
  }

  /** An invalid first descriptor is the error of the whole parse. */
  lemma ParseTokensHeadErr(tokens: seq<string>)
    requires tokens != [] && ParseToken(tokens[0]).Err?
    ensures ParseTokens(tokens) == Err(InvalidTarget(tokens[0]))
  {
  }

  /** After a valid first descriptor, an error in the rest is the error of the whole parse. */
  lemma ParseTokensTailErr(tokens: seq<string>)
    requires tokens != [] && ParseToken(tokens[0]).Ok? && ParseTokens(tokens[1..]).Err?
    ensures ParseTokens(tokens) == ParseTokens(tokens[1..])
  {
  }

  /** `f` succeeds on the first `k - 1` elements of the tail when it succeeds on the first `k` of the list. */
  lemma OkPrefixTail<A, B>(f: A -> Result<B>, xs: seq<A>, k: nat)
    requires 0 < k <= |xs|
    requires forall i :: 0 <= i < k ==> f(xs[i]).Ok?
    ensures forall i :: 0 <= i < k - 1 ==> f(xs[1..][i]).Ok?
  {
    forall i | 0 <= i < k - 1
      ensures f(xs[1..][i]).Ok?
    {
      assert xs[1..][i] == xs[i + 1];
    }
  }

  /** A successful parse has one target per descriptor, each the parse of its own descriptor. */
  lemma {:induction false} ParseTokensOk(tokens: seq<string>)
    requires ParseTokens(tokens).Ok?
    ensures |ParseTokens(tokens).value| == |tokens|
    ensures forall i :: 0 <= i < |tokens| ==> ParseToken(tokens[i]) == Ok(ParseTokens(tokens).value[i])
    decreases |tokens|
  {
    if tokens != [] {
      var rest := tokens[1..];
      ParseTokensHead(tokens);
      ParseTokensOk(rest);
      var v := ParseTokens(tokens).value;
      OkPointwiseCons(ParseToken, tokens, v);
    }
  }

  /** A list whose every descriptor parses parses to the list of their targets. */
  lemma {:induction false} ParseTokensAllOk(tokens: seq<string>, targets: seq<Target>)
    requires |targets| == |tokens|
    requires forall i :: 0 <= i < |tokens| ==> ParseToken(tokens[i]) == Ok(targets[i])
    ensures ParseTokens(tokens) == Ok(targets)
    decreases |tokens|
  {
    if tokens != [] {
      OkPointwiseTail(ParseToken, tokens, targets);
      ParseTokensAllOk(tokens[1..], targets[1..]);
      ParseTokensCons(tokens, targets[0], targets[1..]);
      assert targets == [targets[0]] + targets[1..];
    }
  }

  /** A position-by-position map of a non-empty list holds at the head and in the tails. */
  lemma OkPointwiseTail<A, B>(f: A -> Result<B>, xs: seq<A>, ys: seq<B>)
    requires xs != [] && |xs| == |ys|
    requires forall i :: 0 <= i < |xs| ==> f(xs[i]) == Ok(ys[i])
    ensures f(xs[0]) == Ok(ys[0])
    ensures forall i :: 0 <= i < |xs| - 1 ==> f(xs[1..][i]) == Ok(ys[1..][i])
  {
    forall i | 0 <= i < |xs| - 1
      ensures f(xs[1..][i]) == Ok(ys[1..][i])
    {
      assert xs[1..][i] == xs[i + 1] && ys[1..][i] == ys[i + 1];
    }
  }

  /** `f` maps a list to another position by position once it does so at the head and in the tails. */
  lemma OkPointwiseCons<A, B>(f: A -> Result<B>, xs: seq<A>, ys: seq<B>)
    requires xs != [] && |xs| == |ys| && f(xs[0]) == Ok(ys[0])
    requires forall i :: 0 <= i < |xs| - 1 ==> f(xs[1..][i]) == Ok(ys[1..][i])
    ensures forall i :: 0 <= i < |xs| ==> f(xs[i]) == Ok(ys[i])
  {
    forall i | 1 <= i < |xs|
      ensures f(xs[i]) == Ok(ys[i])
    {
      assert xs[1..][i - 1] == xs[i] && ys[1..][i - 1] == ys[i];
    }
  }

  /** A successful parse of a non-empty list is the first descriptor's target before the parse of the rest. */
  lemma ParseTokensHead(tokens: seq<string>)
    requires tokens != [] && ParseTokens(tokens).Ok?
    ensures ParseToken(tokens[0]).Ok? && ParseTokens(tokens[1..]).Ok?
    ensures ParseTokens(tokens).value == [ParseToken(tokens[0]).value] + ParseTokens(tokens[1..]).value
  {
  }

  /** A configuration is rejected only because one of its space-separated descriptors is. */
  lemma {:induction false} ParseTokensErr(tokens: seq<string>)
    requires ParseTokens(tokens).Err?
    ensures exists k :: 0 <= k < |tokens| && ParseTokens(tokens) == Err(InvalidTarget(tokens[k])) && ParseToken(tokens[k]).Err?
    decreases |tokens|
  {
    if ParseToken(tokens[0]).Err? {
      assert ParseTokens(tokens) == Err(InvalidTarget(tokens[0]));
    } else {
      ParseTokensErr(tokens[1..]);
      var k :| 0 <= k < |tokens[1..]| && ParseTokens(tokens[1..]) == Err(InvalidTarget(tokens[1..][k])) && ParseToken(tokens[1..][k]).Err?;
      assert tokens[1..][k] == tokens[k + 1];
    }
  }

  // ---------------------------------------------------------------------
  // Output names

  /** The output name of a target without tags or cgo: a dash ends it, before ".exe" on Windows. */
  lemma {:induction false} BareName(projName: string, os: string, arch: string)
    requires os != "" && arch != ""
    ensures OutputName(projName, Target(os, arch, false, [""]))
         == projName + "-" + os + "-" + arch + "-" + (if os == "windows" then ".exe" else "")
  {
    var t := Target(os, arch, false, [""]);
    var exe := if os == "windows" then ".exe" else "";
    assert "-" + Join(t.tags, '-') == "-";
    assert OutputName(projName, t) == projName + ("-" + os) + ("-" + arch) + "-" + exe;
    assert projName + ("-" + os) == projName + "-" + os;
    assert projName + "-" + os + ("-" + arch) == projName + "-" + os + "-" + arch;
  }

  /**
   * A descriptor without a tag group has tags `[""]`, so a dash ends the
   * name of its output (before ".exe" on Windows).
   */
  lemma {:induction false} BareDescriptorName(projName: string, os: string, arch: string)
    requires IsWord(os) && IsWord(arch)
    ensures ParseToken(os + ":" + arch) == Ok(Target(os, arch, false, [""]))
    ensures OutputName(projName, Target(os, arch, false, [""]))
         == projName + "-" + os + "-" + arch + "-" + (if os == "windows" then ".exe" else "")
  {
    var t := Target(os, arch, false, [""]);
    assert Canonical(t);
    assert Format(t) == os + ":" + arch;
    ParseFormat(t);
    BareName(projName, os, arch);
  }

  /** The parts of an output name before the ".exe" suffix, after the project name. */
  function NameMiddle(t: Target): string {
    (if t.os != "" then "-" + t.os else "")
    + (if t.arch != "" then "-" + t.arch else "")
    + (if |t.tags| > 0 then "-" + Join(t.tags, '-') else "")
  }

  function ExeSuffix(t: Target): string {
    if t.os == "windows" then ".exe" else ""
  }

  /** An output name is the project name followed by what the target adds. */
  lemma {:induction false} OutputNameSplit(projName: string, t: Target)
    ensures OutputName(projName, t) == projName + (NameMiddle(t) + ExeSuffix(t))
  {
    var osPart := if t.os != "" then "-" + t.os else "";
    var archPart := if t.arch != "" then "-" + t.arch else "";
    var tagPart := if |t.tags| > 0 then "-" + Join(t.tags, '-') else "";
    assert OutputName(projName, t) == projName + osPart + archPart + tagPart + ExeSuffix(t);
    assert NameMiddle(t) == osPart + archPart + tagPart;
    RegroupFive(projName, osPart, archPart, tagPart, ExeSuffix(t));
  }

  lemma RegroupFive(a: string, b: string, c: string, d: string, e: string)
    ensures a + b + c + d + e == a + ((b + c + d) + e)
  {
    assert a + b + c == a + (b + c);
    assert a + (b + c) + d == a + (b + c + d);
  }

  /** Without a dot in any part, what a target adds before ".exe" holds no dot. */
  lemma {:induction false} NameMiddleNoDot(t: Target)
    requires '.' !in t.os && '.' !in t.arch
    requires forall i :: 0 <= i < |t.tags| ==> '.' !in t.tags[i]
    ensures '.' !in NameMiddle(t)
  {
    InJoin(t.tags, '-', '.');
  }

  /**
   * The name a target adds after the project name holds a dot exactly
   * when the OS is "windows", provided none of its parts holds one.
   */
  lemma {:induction false} OutputNameDot(projName: string, t: Target)
    requires '.' !in t.os && '.' !in t.arch
    requires forall i :: 0 <= i < |t.tags| ==> '.' !in t.tags[i]
    ensures IsPrefix(projName, OutputName(projName, t))
    ensures '.' in OutputName(projName, t)[|projName|..] <==> t.os == "windows"
  {
    var mid, exe := NameMiddle(t), ExeSuffix(t);
    OutputNameSplit(projName, t);
    assert OutputName(projName, t)[|projName|..] == mid + exe;
    NameMiddleNoDot(t);
    if t.os == "windows" {
      assert (mid + exe)[|mid|] == '.';
    } else {
      assert mid + exe == mid;
    }
  }

  // ---------------------------------------------------------------------
  // Environment

  predicate HasEntry(env: seq<string>, key: string) {
    exists i :: 0 <= i < |env| && IsPrefix(key, env[i])
  }

  lemma {:induction false} HasEntryAppend(a: seq<string>, b: seq<string>, key: string)
    ensures HasEntry(a + b, key) <==> HasEntry(a, key) || HasEntry(b, key)
  {
    if HasEntry(a + b, key) {
      var i :| 0 <= i < |a + b| && IsPrefix(key, (a + b)[i]);
      if i >= |a| {
        assert b[i - |a|] == (a + b)[i];
      }
    }
    if HasEntry(a, key) {
      var i :| 0 <= i < |a| && IsPrefix(key, a[i]);
      assert (a + b)[i] == a[i];
    }
    if HasEntry(b, key) {
      var i :| 0 <= i < |b| && IsPrefix(key, b[i]);
      assert (a + b)[|a| + i] == b[i];
    }
  }

  lemma {:induction false} HasEntryOne(x: string, key: string)
    ensures HasEntry([x], key) <==> IsPrefix(key, x)
  {
    if IsPrefix(key, x) {
      assert [x][0] == x;
    }
  }

  /** The three groups of entries, in the order they are appended. */
  lemma {:induction false} EnvGroups(t: Target)
    ensures EnvOverrides(t) == ((if t.os != "" then ["GOOS=" + t.os] else [])
                                + (if t.arch != "" then ["GOARCH=" + t.arch] else []))
                               + (if t.useCgo then ["CGO_ENABLED=1"] + CcVar(t) else ["CGO_ENABLED=0"])
  {
  }

  /** GOOS is set exactly when an OS is given, GOARCH exactly when an architecture is. */
  lemma {:induction false} EnvGoosGoarch(t: Target)
    ensures HasEntry(EnvOverrides(t), "GOOS=") <==> t.os != ""
    ensures HasEntry(EnvOverrides(t), "GOARCH=") <==> t.arch != ""
  {
    var goos := if t.os != "" then ["GOOS=" + t.os] else [];
    var goarch := if t.arch != "" then ["GOARCH=" + t.arch] else [];
    var cgo := if t.useCgo then ["CGO_ENABLED=1"] + CcVar(t) else ["CGO_ENABLED=0"];
    EnvGroups(t);
    HasEntryAppend(goos + goarch, cgo, "GOOS=");
    HasEntryAppend(goos, goarch, "GOOS=");
    HasEntryAppend(goos + goarch, cgo, "GOARCH=");
    HasEntryAppend(goos, goarch, "GOARCH=");
    if t.os != "" {
      HasEntryOne("GOOS=" + t.os, "GOOS=");
      HasEntryOne("GOOS=" + t.os, "GOARCH=");
      assert ("GOOS=" + t.os)[2] == 'O';
      assert ("GOOS=" + t.os)[..5] == "GOOS=";
    }
    if t.arch != "" {
      HasEntryOne("GOARCH=" + t.arch, "GOOS=");
      HasEntryOne("GOARCH=" + t.arch, "GOARCH=");
      assert ("GOARCH=" + t.arch)[2] == 'A';
      assert ("GOARCH=" + t.arch)[..7] == "GOARCH=";
    }
    CgoNoGo(t);
  }

  /** None of the cgo entries starts with GOOS= or GOARCH=. */
  lemma {:induction false} CgoNoGo(t: Target)
    ensures var cgo := if t.useCgo then ["CGO_ENABLED=1"] + CcVar(t) else ["CGO_ENABLED=0"];
      !HasEntry(cgo, "GOOS=") && !HasEntry(cgo, "GOARCH=")
  {
    var cgo := if t.useCgo then ["CGO_ENABLED=1"] + CcVar(t) else ["CGO_ENABLED=0"];
    forall i | 0 <= i < |cgo|
      ensures !IsPrefix("GOOS=", cgo[i]) && !IsPrefix("GOARCH=", cgo[i])
    {
      if t.useCgo && i > 0 {
        assert cgo[i] in CcVar(t);
      }
      assert cgo[i][0] == 'C';
    }
  }

  /** Cgo is switched on exactly for cgo targets, and off for all others. */
  lemma {:induction false} EnvCgo(t: Target)
    ensures "CGO_ENABLED=1" in EnvOverrides(t) <==> t.useCgo
    ensures "CGO_ENABLED=0" in EnvOverrides(t) <==> !t.useCgo
  {
    var goos := if t.os != "" then ["GOOS=" + t.os] else [];
    var goarch := if t.arch != "" then ["GOARCH=" + t.arch] else [];
    var cgo := if t.useCgo then ["CGO_ENABLED=1"] + CcVar(t) else ["CGO_ENABLED=0"];
    var on, off := "CGO_ENABLED=1", "CGO_ENABLED=0";
    EnvGroups(t);
    assert on[0] == off[0] == 'C' && on[1] == off[1] == 'G' && on != off;
    assert forall x :: x in goos + goarch ==> x[0] == 'G';
    MemberAppend(goos + goarch, cgo, on);
    MemberAppend(goos + goarch, cgo, off);
    if t.useCgo {
      CcVarEntries(t);
      MemberAppend(["CGO_ENABLED=1"], CcVar(t), off);
    }
  }

  /** The compiler entry, when there is one, starts with "CC". */
  lemma CcVarEntries(t: Target)
    ensures forall x :: x in CcVar(t) ==> |x| > 1 && x[1] == 'C'
  {
    var arch, os := CcArch(t.arch).GetOr(""), CcOs(t.os).GetOr("");
    if arch != "" && os != "" {
      var e := "CC=" + arch + "-" + os + "-gcc";
      assert e[1] == 'C';
      assert CcVar(t) == [e];
    }
  }

  /** An element absent from the front of a list is in the list exactly when it is in the back. */
  lemma MemberAppend(a: seq<string>, b: seq<string>, e: string)
    requires e !in a
    ensures e in a + b <==> e in b
  {
  }

  /** The table names a compiler exactly when it knows both halves and neither is empty. */
  lemma {:induction false} CcVarKnown(t: Target)
    ensures CcVar(t) != [] <==> t.arch in {"amd64", "386"} && t.os in {"linux", "windows"}
  {
    var a, o := CcArch(t.arch), CcOs(t.os);
    assert a.GetOr("") != "" <==> t.arch in {"amd64", "386"} by {
      if t.arch == "amd64" { assert a == Some("x86_64"); }
      else if t.arch == "386" { assert a == Some("x86"); }
      else { assert a == None || a == Some(""); }
    }
    assert o.GetOr("") != "" <==> t.os in {"linux", "windows"} by {
      if t.os == "linux" { assert o == Some("unknown-linux-gnu"); }
      else if t.os == "windows" { assert o == Some("w64-mingw32"); }
      else { assert o == None || o == Some(""); }
    }
  }

  /** Among the cgo entries, one starts with "CC=" exactly when the table names a compiler. */
  lemma {:induction false} CgoCc(t: Target)
    ensures var cgo := if t.useCgo then ["CGO_ENABLED=1"] + CcVar(t) else ["CGO_ENABLED=0"];
      HasEntry(cgo, "CC=") <==> t.useCgo && CcVar(t) != []
  {
    if t.useCgo {
      HasEntryAppend(["CGO_ENABLED=1"], CcVar(t), "CC=");
      HasEntryOne("CGO_ENABLED=1", "CC=");
      assert "CGO_ENABLED=1"[1] == 'G';
      if CcVar(t) != [] {
        var cc := CcVar(t)[0];
        assert CcVar(t) == [cc];
        HasEntryOne(cc, "CC=");
        assert cc[..3] == "CC=";
      } else {
        assert !HasEntry(CcVar(t), "CC=");
      }
    } else {
      HasEntryOne("CGO_ENABLED=0", "CC=");
      assert "CGO_ENABLED=0"[1] == 'G';
    }
  }

  /**
   * A C compiler is named exactly for cgo targets whose OS and architecture
   * are both in the table and non-empty, and it is the one the table gives.
   */
  lemma {:induction false} EnvCc(t: Target)
    ensures HasEntry(EnvOverrides(t), "CC=") <==> t.useCgo && t.arch in {"amd64", "386"} && t.os in {"linux", "windows"}
  {
    var goos := if t.os != "" then ["GOOS=" + t.os] else [];
    var goarch := if t.arch != "" then ["GOARCH=" + t.arch] else [];
    var cgo := if t.useCgo then ["CGO_ENABLED=1"] + CcVar(t) else ["CGO_ENABLED=0"];
    EnvGroups(t);
    HasEntryAppend(goos + goarch, cgo, "CC=");
    HasEntryAppend(goos, goarch, "CC=");
    if t.os != "" {
      HasEntryOne("GOOS=" + t.os, "CC=");
      assert ("GOOS=" + t.os)[0] == 'G';
    }
    if t.arch != "" {
      HasEntryOne("GOARCH=" + t.arch, "CC=");
      assert ("GOARCH=" + t.arch)[0] == 'G';
    }
    assert HasEntry(EnvOverrides(t), "CC=") <==> HasEntry(cgo, "CC=");
    CgoCc(t);
    CcVarKnown(t);
  }

  /** The compiler named for each of the four cross-compiling pairs of the table. */
  lemma {:induction false} EnvCcValue(t: Target)
    requires t.useCgo
    ensures t.arch == "amd64" && t.os == "linux" ==> "CC=x86_64-unknown-linux-gnu-gcc" in EnvOverrides(t)
    ensures t.arch == "386" && t.os == "linux" ==> "CC=x86-unknown-linux-gnu-gcc" in EnvOverrides(t)
    ensures t.arch == "amd64" && t.os == "windows" ==> "CC=x86_64-w64-mingw32-gcc" in EnvOverrides(t)
    ensures t.arch == "386" && t.os == "windows" ==> "CC=x86-w64-mingw32-gcc" in EnvOverrides(t)
  {
    EnvGroups(t);
    CcVarValue(t);
    var cgo := ["CGO_ENABLED=1"] + CcVar(t);
    if CcVar(t) != [] {
      assert cgo[1] == CcVar(t)[0];
      assert CcVar(t)[0] in EnvOverrides(t);
    }
  }

  /** The compiler entry of each of the four cross-compiling pairs, on its own. */
  lemma {:induction false} CcVarValue(t: Target)
    ensures t.arch == "amd64" && t.os == "linux" ==> CcVar(t) == ["CC=x86_64-unknown-linux-gnu-gcc"]
    ensures t.arch == "386" && t.os == "linux" ==> CcVar(t) == ["CC=x86-unknown-linux-gnu-gcc"]
    ensures t.arch == "amd64" && t.os == "windows" ==> CcVar(t) == ["CC=x86_64-w64-mingw32-gcc"]
    ensures t.arch == "386" && t.os == "windows" ==> CcVar(t) == ["CC=x86-w64-mingw32-gcc"]
  {
    if t.arch == "amd64" && t.os == "linux" {
      CcLinuxAmd64(t);
    }
    if t.arch == "386" && t.os == "linux" {
      CcLinux386(t);
    }
    if t.arch == "amd64" && t.os == "windows" {
      CcWindowsAmd64(t);
    }
    if t.arch == "386" && t.os == "windows" {
      CcWindows386(t);
    }
  }

  lemma {:induction false} CcLinuxAmd64(t: Target)
    requires t.arch == "amd64" && t.os == "linux"
    ensures CcVar(t) == ["CC=x86_64-unknown-linux-gnu-gcc"]
  {
    assert CcArch(t.arch) == Some("x86_64") && CcOs(t.os) == Some("unknown-linux-gnu");
    assert "CC=" + "x86_64" + "-" + "unknown-linux-gnu" + "-gcc" == "CC=x86_64-unknown-linux-gnu-gcc";
  }

  lemma {:induction false} CcLinux386(t: Target)
    requires t.arch == "386" && t.os == "linux"
    ensures CcVar(t) == ["CC=x86-unknown-linux-gnu-gcc"]
  {
    assert CcArch(t.arch) == Some("x86") && CcOs(t.os) == Some("unknown-linux-gnu");
    assert "CC=" + "x86" + "-" + "unknown-linux-gnu" + "-gcc" == "CC=x86-unknown-linux-gnu-gcc";
  }

  lemma {:induction false} CcWindowsAmd64(t: Target)
    requires t.arch == "amd64" && t.os == "windows"
    ensures CcVar(t) == ["CC=x86_64-w64-mingw32-gcc"]
  {
    assert CcArch(t.arch) == Some("x86_64") && CcOs(t.os) == Some("w64-mingw32");
    assert "CC=" + "x86_64" + "-" + "w64-mingw32" + "-gcc" == "CC=x86_64-w64-mingw32-gcc";
  }

  lemma {:induction false} CcWindows386(t: Target)
    requires t.arch == "386" && t.os == "windows"
    ensures CcVar(t) == ["CC=x86-w64-mingw32-gcc"]
  {
    assert CcArch(t.arch) == Some("x86") && CcOs(t.os) == Some("w64-mingw32");
    assert "CC=" + "x86" + "-" + "w64-mingw32" + "-gcc" == "CC=x86-w64-mingw32-gcc";
  }

  /** A cgo target whose OS or architecture is outside the table is the only source of a platform error. */
  lemma {:induction false} PlatformErrorCases(t: Target)
    ensures PlatformError(t).None? <==> !t.useCgo || (t.arch in {"", "amd64", "386"} && t.os in {"", "linux", "windows"})
    ensures t.useCgo && t.os !in {"", "linux", "windows"} ==> PlatformError(t) == Some("Unknown OS " + Quote(t.os))
    ensures t.useCgo && t.os in {"", "linux", "windows"} && t.arch !in {"", "amd64", "386"}
            ==> PlatformError(t) == Some("Unknown architecture " + Quote(t.arch))
  {
  }
}
