/**
 * The string and path operations the GUI relies on, as Python defines them on
 * POSIX: `os.path.basename`, `os.path.dirname`, `os.path.splitext`,
 * `os.path.join`, `str.replace`, `str.lower` and `str.endswith`.
 */
module Paths {

  /** Index just past the last '/' of `p` (0 if there is none): where the base name starts. */
  function BaseStart(p: string): (k: nat)
    ensures k <= |p|
    ensures k > 0 ==> p[k - 1] == '/'
    ensures forall i :: k <= i < |p| ==> p[i] != '/'
  {
    if p == [] then 0
    else if p[|p| - 1] == '/' then |p|
    else BaseStart(p[..|p| - 1])
  }

  /** `os.path.basename`: everything after the last '/'. */
  function Basename(p: string): (b: string)
    ensures '/' !in b
    ensures |b| <= |p| && p[|p| - |b|..] == b
  {
    p[BaseStart(p)..]
  }

  predicate AllSlashes(s: string) {
    forall i :: 0 <= i < |s| ==> s[i] == '/'
  }

  /** `str.rstrip('/')`. */
  function RStripSlashes(s: string): (r: string)
    ensures |r| <= |s| && s[..|r|] == r
    ensures r == [] || r[|r| - 1] != '/'
    ensures forall i :: |r| <= i < |s| ==> s[i] == '/'
  {
    if s != [] && s[|s| - 1] == '/' then RStripSlashes(s[..|s| - 1]) else s
  }

  /** `os.path.dirname`: the head before the last '/', trailing slashes removed unless it is all slashes. */
  function Dirname(p: string): string {
    var head := p[..BaseStart(p)];
    if head != [] && !AllSlashes(head) then RStripSlashes(head) else head
  }

  /** `str.rfind` of one character: -1 when absent. */
  function LastIndex(s: string, c: char): (i: int)
    ensures -1 <= i < |s|
    ensures i >= 0 ==> s[i] == c
    ensures forall j :: i < j < |s| ==> s[j] != c
  {
    if s == [] then -1
    else if s[|s| - 1] == c then |s| - 1
    else LastIndex(s[..|s| - 1], c)
  }

  /** Whether `s[lo..hi]` holds a character other than '.'. */
  predicate HasNonDot(s: string, lo: int, hi: int)
    requires 0 <= lo && hi <= |s|
  {
    exists i :: lo <= i < hi && s[i] != '.'
  }

  /**
   * `os.path.splitext`: the extension starts at the last '.' after the last '/',
   * unless every character of the file name before that dot is itself a dot
   * (so ".bashrc" has no extension).
   */
  function SplitExt(p: string): (r: (string, string))
    ensures r.0 + r.1 == p
    ensures r.1 == [] || (r.1[0] == '.' && '.' !in r.1[1..] && '/' !in r.1)
  {
    var sepIndex := LastIndex(p, '/');
    var dotIndex := LastIndex(p, '.');
    if dotIndex > sepIndex && HasNonDot(p, sepIndex + 1, dotIndex) then
      assert p[..dotIndex] + p[dotIndex..] == p;
      (p[..dotIndex], p[dotIndex..])
    else
      (p, "")
  }

  /** `os.path.splitext(os.path.basename(p))[0]`: the file name without directory and extension. */
  function Stem(p: string): string {
    SplitExt(Basename(p)).0
  }

  /** `os.path.join(a, b)` for two components. */
  function Join(a: string, b: string): string {
    if |b| > 0 && b[0] == '/' then b
    else if a == [] || a[|a| - 1] == '/' then a + b
    else a + "/" + b
  }

  function LowerChar(c: char): char {
    if 'A' <= c <= 'Z' then (c as int + 32) as char else c
  }

  /** `str.lower` on ASCII letters. */
  function Lower(s: string): (r: string)
    ensures |r| == |s|
    ensures forall i :: 0 <= i < |s| ==> r[i] == LowerChar(s[i])
  {
    if s == [] then [] else [LowerChar(s[0])] + Lower(s[1..])
  }

  predicate EndsWith(s: string, suffix: string) {
    |suffix| <= |s| && s[|s| - |suffix|..] == suffix
  }

  /** `pat` occurs in `s` starting at index `i`. */
  predicate MatchAt(s: string, i: int, pat: string) {
    0 <= i && i + |pat| <= |s| && s[i..i + |pat|] == pat
  }

  predicate Free(pat: string, s: string) {
    forall i :: 0 <= i <= |s| ==> !MatchAt(s, i, pat)
  }

  /**
   * `s.replace(pat, rep)`: scanning left to right, every non-overlapping
   * occurrence of `pat` is replaced by `rep`.
   */
  function ReplaceAll(s: string, pat: string, rep: string): string
    requires pat != []
    decreases |s|
  {
    if |pat| <= |s| && s[..|pat|] == pat then
      rep + ReplaceAll(s[|pat|..], pat, rep)
    else if s == [] then
      []
    else
      [s[0]] + ReplaceAll(s[1..], pat, rep)
  }

  // ----- Lemmas -----

  lemma {:induction false} LastIndexAppend(s: string, t: string, c: char)
    ensures LastIndex(s + t, c) == if c in t then |s| + LastIndex(t, c) else LastIndex(s, c)
    decreases |t|
  {
    if t == [] {
      assert s + t == s;
    } else {
      var u := t[..|t| - 1];
      assert (s + t)[..|s + t| - 1] == s + u;
      LastIndexAppend(s, u, c);
      assert c in t <==> c in u || t[|t| - 1] == c;
    }
  }

  lemma {:induction false} BaseStartIsAfterLastSlash(p: string)
    ensures BaseStart(p) == LastIndex(p, '/') + 1
    decreases |p|
  {
    if p != [] && p[|p| - 1] != '/' {
      BaseStartIsAfterLastSlash(p[..|p| - 1]);
    }
  }

  lemma BasenameAfterSlash(prefix: string, file: string)
    requires prefix == [] || prefix[|prefix| - 1] == '/'
    requires '/' !in file
    ensures Basename(prefix + file) == file
  {
    BaseStartIsAfterLastSlash(prefix + file);
    LastIndexAppend(prefix, file, '/');
    if prefix != [] {
      BaseStartIsAfterLastSlash(prefix);
    }
  }

  lemma SplitExtOfName(name: string, ext: string)
    requires '/' !in name && HasNonDot(name, 0, |name|)
    requires '/' !in ext && '.' !in ext
    ensures SplitExt(name + "." + ext).0 == name
  {
    var file := name + "." + ext;
    LastIndexAppend(name + ".", ext, '.');
    assert (name + ".")[|name|] == '.';
    assert LastIndex(file, '.') == |name|;
    assert file[..|name|] == name;
    var w :| 0 <= w < |name| && name[w] != '.';
    assert file[w] == name[w];
    assert HasNonDot(file, 0, |name|);
  }

  /**
   * The stem of a path whose last component is `name` followed by the extension
   * `dotExt` is `name`, as long as the extension holds no second dot and the
   * name is not made of dots only.
   */
  lemma StemOfFileName(prefix: string, name: string, dotExt: string)
    requires prefix == [] || prefix[|prefix| - 1] == '/'
    requires '/' !in name && HasNonDot(name, 0, |name|)
    requires dotExt != [] && dotExt[0] == '.' && '/' !in dotExt && '.' !in dotExt[1..]
    ensures Stem(prefix + name + dotExt) == name
  {
    var ext := dotExt[1..];
    assert dotExt == "." + ext;
    var file := name + "." + ext;
    assert prefix + name + dotExt == prefix + file;
    BasenameAfterSlash(prefix, file);
    SplitExtOfName(name, ext);
  }

  /** Joining a directory (as a directory picker returns it) with a file name can be undone by dirname and basename. */
  lemma JoinSplits(d: string, b: string)
    requires d != [] && (d[|d| - 1] != '/' || AllSlashes(d))
    requires b != [] && '/' !in b
    ensures Dirname(Join(d, b)) == d
    ensures Basename(Join(d, b)) == b
  {
    var p := Join(d, b);
    var head := if d[|d| - 1] == '/' then d else d + "/";
    assert p == head + b;
    BaseStartIsAfterLastSlash(p);
    BaseStartIsAfterLastSlash(head);
    LastIndexAppend(head, b, '/');
    assert BaseStart(p) == |head|;
    assert p[..|head|] == head;
    if d[|d| - 1] != '/' {
      assert !AllSlashes(head) by { assert head[|d| - 1] != '/'; }
      assert head[..|head| - 1] == d;
    }
  }

  lemma ReplaceUnfoldsAtNonDot(t: string, rep: string)
    requires rep != [] && rep[0] == '.'
    requires ReplaceAll(t, ".mgf", rep) != [] && ReplaceAll(t, ".mgf", rep)[0] != '.'
    ensures t != [] && t[0] == ReplaceAll(t, ".mgf", rep)[0]
    ensures ReplaceAll(t, ".mgf", rep)[1..] == ReplaceAll(t[1..], ".mgf", rep)
  {
  }

  /** The replacement as `.mgf`-free text: it begins with its only dot and does not begin with ".mgf". */
  predicate MgfFreeReplacement(rep: string) {
    |rep| >= 4 && rep[0] == '.' && '.' !in rep[1..] && rep[..4] != ".mgf"
  }

  /**
   * After `s.replace('.mgf', rep)` no ".mgf" is left anywhere, for any replacement
   * that begins with its only dot and does not itself begin with ".mgf"
   * (".pepxml" and ".mzID" both qualify).
   */
  lemma {:induction false} ReplaceLeavesNoMgf(s: string, rep: string)
    requires MgfFreeReplacement(rep)
    ensures Free(".mgf", ReplaceAll(s, ".mgf", rep))
    decreases |s|
  {
    if 4 <= |s| && s[..4] == ".mgf" {
      ReplaceLeavesNoMgf(s[4..], rep);
      NoMgfAfterReplacement(rep, ReplaceAll(s[4..], ".mgf", rep));
    } else if s != [] {
      ReplaceLeavesNoMgf(s[1..], rep);
      NoMgfAfterKeptChar(s, rep);
    }
  }

  /** Putting the replacement in front of text free of ".mgf" creates no occurrence. */
  lemma NoMgfAfterReplacement(rep: string, rest: string)
    requires MgfFreeReplacement(rep) && Free(".mgf", rest)
    ensures Free(".mgf", rep + rest)
  {
    var pat := ".mgf";
    var r := rep + rest;
    forall i | 0 <= i <= |r| ensures !MatchAt(r, i, pat) {
      if i == 0 {
        assert r[..4] == rep[..4];
      } else if i < |rep| {
        assert r[i] == rep[1..][i - 1];
      } else if i + 4 <= |r| {
        assert r[i..i + 4] == rest[i - |rep|..i - |rep| + 4];
        assert !MatchAt(rest, i - |rep|, pat);
      }
    }
  }

  /** Keeping the first character when no ".mgf" starts there creates no occurrence. */
  lemma NoMgfAfterKeptChar(s: string, rep: string)
    requires MgfFreeReplacement(rep) && s != [] && !(4 <= |s| && s[..4] == ".mgf")
    requires Free(".mgf", ReplaceAll(s[1..], ".mgf", rep))
    ensures Free(".mgf", ReplaceAll(s, ".mgf", rep))
  {
    var rest := ReplaceAll(s[1..], ".mgf", rep);
    assert ReplaceAll(s, ".mgf", rep) == [s[0]] + rest;
    NoMgfAtKeptChar(s, rep);
    FreeCons(s[0], rest, ".mgf");
  }

  /** A text free of `pat` stays free of it when a character that starts no occurrence is put in front. */
  lemma FreeCons(c: char, rest: string, pat: string)
    requires Free(pat, rest) && !MatchAt([c] + rest, 0, pat)
    ensures Free(pat, [c] + rest)
  {
    var r := [c] + rest;
    forall i | 1 <= i <= |r| ensures !MatchAt(r, i, pat) {
      if i + |pat| <= |r| {
        assert r[i..i + |pat|] == rest[i - 1..i - 1 + |pat|];
        assert !MatchAt(rest, i - 1, pat);
      }
    }
  }

  /** No ".mgf" starts at a kept first character: the next three characters of the result come from the text itself. */
  lemma NoMgfAtKeptChar(s: string, rep: string)
    requires MgfFreeReplacement(rep) && s != [] && !(4 <= |s| && s[..4] == ".mgf")
    ensures !MatchAt(ReplaceAll(s, ".mgf", rep), 0, ".mgf")
  {
    var r := ReplaceAll(s, ".mgf", rep);
    if |r| >= 4 && r[0] == '.' && r[1] == 'm' && r[2] == 'g' && r[3] == 'f' {
      var rest := ReplaceAll(s[1..], ".mgf", rep);
      assert r == [s[0]] + rest;
      assert rest[0] == 'm';
      ReplaceUnfoldsAtNonDot(s[1..], rep);
      assert s[2..] == s[1..][1..];
      ReplaceUnfoldsAtNonDot(s[2..], rep);
      assert s[3..] == s[2..][1..];
      ReplaceUnfoldsAtNonDot(s[3..], rep);
    }
  }

  lemma FreeTail(pat: string, p: string)
    requires p != [] && Free(pat, p)
    ensures Free(pat, p[1..])
  {
    forall i | 0 <= i <= |p[1..]| ensures !MatchAt(p[1..], i, pat) {
      if MatchAt(p[1..], i, pat) {
        assert p[i + 1..i + 1 + |pat|] == p[1..][i..i + |pat|];
        assert MatchAt(p, i + 1, pat);
      }
    }
  }

  /** ".mgf" cannot overlap itself, so a text free of it does not start an occurrence just before the suffix. */
  lemma NoMgfBeforeSuffix(p: string)
    requires p != [] && Free(".mgf", p)
    ensures (p + ".mgf")[..4] != ".mgf"
  {
    var s := p + ".mgf";
    if s[..4] == ".mgf" {
      if |p| >= 4 {
        assert p[0..4] == s[..4];
        assert MatchAt(p, 0, ".mgf");
      } else {
        assert s[|p|] == '.';
      }
    }
  }

  /** When ".mgf" occurs only as the suffix, replacing every occurrence is suffix substitution. */
  lemma {:induction false} ReplaceMgfSuffix(p: string, rep: string)
    requires Free(".mgf", p)
    ensures ReplaceAll(p + ".mgf", ".mgf", rep) == p + rep
    decreases |p|
  {
    var s := p + ".mgf";
    if p == [] {
      assert s == ".mgf";
      assert s[4..] == [];
    } else {
      NoMgfBeforeSuffix(p);
      assert s[1..] == p[1..] + ".mgf";
      FreeTail(".mgf", p);
      ReplaceMgfSuffix(p[1..], rep);
      assert [p[0]] + (p[1..] + rep) == p + rep;
    }
  }
}
