/**
 * The JavaScript string operations the three controllers rely on:
 * `String.prototype.replace` with a string pattern, `split` on one
 * character, `Array.prototype.pop` on its result, and `endsWith`.
 * Each is given a definition that follows the language's behaviour and
 * lemmas that pin that behaviour down independently of the definition.
 */
module JsString {

  /** `pat` occurs in `s` starting at index `i`. */
  predicate OccursAt(s: string, pat: string, i: int)
  {
    0 <= i && i + |pat| <= |s| && s[i..i + |pat|] == pat
  }

  /** `s.indexOf(pat, from)`: the first index at or after `from` where `pat` occurs, or -1. */
  function IndexOfFrom(s: string, pat: string, from: nat): (r: int)
    ensures r == -1 || (from <= r && OccursAt(s, pat, r))
    ensures r >= 0 ==> forall j :: from <= j < r ==> !OccursAt(s, pat, j)
    ensures r == -1 ==> forall j :: from <= j ==> !OccursAt(s, pat, j)
    decreases |s| - from
  {
    if from + |pat| > |s| then -1
    else if s[from..from + |pat|] == pat then from
    else IndexOfFrom(s, pat, from + 1)
  }

  /** `s.indexOf(pat)`. */
  function IndexOf(s: string, pat: string): int
  {
    IndexOfFrom(s, pat, 0)
  }

  /**
   * `s.replace(pat, rep)` for a string `pat` and a `rep` holding no `$`:
   * only the FIRST occurrence is replaced. JavaScript expands `$&`, `$'`
   * and the like in `rep`; that expansion is not modelled, and the
   * controllers only ever pass "".
   */
  function Replace(s: string, pat: string, rep: string): string
  {
    var i := IndexOf(s, pat);
    if i < 0 then s else s[..i] + rep + s[i + |pat|..]
  }

  /** A string that starts with the pattern loses exactly that prefix. */
  lemma ReplacePrefix(pat: string, rest: string)
    ensures Replace(pat + rest, pat, "") == rest
  {
    assert (pat + rest)[0..|pat|] == pat;
    assert IndexOf(pat + rest, pat) == 0;
    assert (pat + rest)[|pat|..] == rest;
  }

  /** A string that does not contain the pattern comes back unchanged. */
  lemma ReplaceAbsent(s: string, pat: string, rep: string)
    requires forall i :: !OccursAt(s, pat, i)
    ensures Replace(s, pat, rep) == s
  {
  }

  /** Only the first occurrence goes: what precedes it is kept, and so is a later one. */
  lemma ReplaceFirstOnly(s: string, pat: string, rep: string)
    requires exists i :: OccursAt(s, pat, i)
    ensures var i := IndexOf(s, pat);
      0 <= i && (forall j :: 0 <= j < i ==> !OccursAt(s, pat, j)) &&
      Replace(s, pat, rep) == s[..i] + rep + s[i + |pat|..]
  {
    var k :| OccursAt(s, pat, k);
    assert !(forall j :: 0 <= j ==> !OccursAt(s, pat, j));
  }

  /** `s.split([sep])`: the pieces between separators; never empty, "" gives [""]. */
  function Split(s: string, sep: char): (r: seq<string>)
    ensures |r| >= 1
    ensures forall k :: 0 <= k < |r| ==> sep !in r[k]
    decreases |s|
  {
    if |s| == 0 then [""]
    else
      var rest := Split(s[1..], sep);
      if s[0] == sep then [""] + rest
      else [[s[0]] + rest[0]] + rest[1..]
  }

  /** `parts.join([sep])`, the inverse of `Split`. */
  function Join(parts: seq<string>, sep: char): string
  {
    if |parts| == 0 then ""
    else if |parts| == 1 then parts[0]
    else parts[0] + [sep] + Join(parts[1..], sep)
  }

  /** Joining the pieces of a split gives back the string. */
  lemma {:induction false} JoinSplit(s: string, sep: char)
    ensures Join(Split(s, sep), sep) == s
    decreases |s|
  {
    if |s| > 0 {
      var rest := Split(s[1..], sep);
      JoinSplit(s[1..], sep);
      if s[0] == sep {
        assert ([""] + rest)[1..] == rest;
      } else if |rest| == 1 {
        assert [[s[0]] + rest[0]] + rest[1..] == [[s[0]] + rest[0]];
        assert s == [s[0]] + s[1..];
      } else {
        var parts := [[s[0]] + rest[0]] + rest[1..];
        assert parts[1..] == rest[1..];
        assert Join(rest, sep) == rest[0] + [sep] + Join(rest[1..], sep);
        assert s == [s[0]] + s[1..];
      }
    }
  }

  /** A separator-free string is one piece; a separator-free head splits off as the first piece. */
  lemma {:induction false} SplitPrefix(a: string, b: string, sep: char)
    requires sep !in a
    ensures Split(a, sep) == [a]
    ensures Split(a + [sep] + b, sep) == [a] + Split(b, sep)
    decreases |a|
  {
    if |a| > 0 {
      assert a[0] != sep;
      assert sep !in a[1..] by {
        forall k | 0 <= k < |a[1..]| ensures a[1..][k] != sep {
          assert a[1..][k] == a[k + 1];
        }
      }
      SplitPrefix(a[1..], b, sep);
      assert a == [a[0]] + a[1..];
      assert (a + [sep] + b)[1..] == a[1..] + [sep] + b;
    } else {
      assert a + [sep] + b == [sep] + b;
      assert ([sep] + b)[1..] == b;
    }
  }

  /** Splitting a join of separator-free pieces gives back the pieces. */
  lemma {:induction false} SplitJoin(parts: seq<string>, sep: char)
    requires |parts| >= 1
    requires forall k :: 0 <= k < |parts| ==> sep !in parts[k]
    ensures Split(Join(parts, sep), sep) == parts
    decreases |parts|
  {
    SplitPrefix(parts[0], "", sep);
    if |parts| > 1 {
      SplitJoin(parts[1..], sep);
      SplitPrefix(parts[0], Join(parts[1..], sep), sep);
      assert [parts[0]] + parts[1..] == parts;
    }
  }

  /** Joining at least two pieces: all but the last, a separator, then the last. */
  lemma {:induction false} JoinLast(parts: seq<string>, sep: char)
    requires |parts| >= 2
    ensures Join(parts, sep) == Join(parts[..|parts| - 1], sep) + [sep] + parts[|parts| - 1]
    decreases |parts|
  {
    if |parts| > 2 {
      JoinLast(parts[1..], sep);
      assert parts[1..][..|parts| - 2] == parts[..|parts| - 1][1..];
    } else {
      assert parts[..1] == [parts[0]];
      assert parts[1..] == [parts[1]];
    }
  }

  /** `s.endsWith(suffix)`. */
  predicate EndsWith(s: string, suffix: string)
  {
    |suffix| <= |s| && s[|s| - |suffix|..] == suffix
  }

  /** `s.split('/').pop()`: the last piece of a split on '/'. */
  function LastSegment(s: string): string
  {
    var parts := Split(s, '/');
    parts[|parts| - 1]
  }

  /** The last segment holds no '/', ends `s`, and is either all of `s` or preceded by a '/'. */
  lemma LastSegmentSpec(s: string)
    ensures '/' !in LastSegment(s)
    ensures EndsWith(s, LastSegment(s))
    ensures |LastSegment(s)| == |s| || s[|s| - |LastSegment(s)| - 1] == '/'
  {
    var parts := Split(s, '/');
    var r := parts[|parts| - 1];
    JoinSplit(s, '/');
    if |parts| >= 2 {
      JoinLast(parts, '/');
      var a := Join(parts[..|parts| - 1], '/');
      assert s == a + ['/'] + r;
      assert s[|s| - |r|..] == r;
      assert s[|s| - |r| - 1] == '/';
    } else {
      assert s == r;
    }
  }

  /** The three facts of `LastSegmentSpec` determine the last segment. */
  lemma LastSegmentUnique(s: string, t: string)
    requires '/' !in t
    requires EndsWith(s, t)
    requires |t| == |s| || s[|s| - |t| - 1] == '/'
    ensures LastSegment(s) == t
  {
    LastSegmentSpec(s);
    var r := LastSegment(s);
    assert |r| == |t|;
    assert r == s[|s| - |r|..] == t;
  }

  /** A file name after a directory is that path's last segment. */
  lemma LastSegmentOfPath(dir: string, file: string)
    requires '/' !in file
    ensures LastSegment(dir + "/" + file) == file
  {
    var s := dir + "/" + file;
    assert s[|s| - |file|..] == file;
    assert s[|s| - |file| - 1] == '/';
    LastSegmentUnique(s, file);
  }
}
