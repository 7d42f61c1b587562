/** Python string operations the handler relies on: `str.startswith`,
    `str.endswith`, and the text of a multi-line template as lines joined by
    newlines. Strings are sequences of characters. */
module Strings {

  /** Python's `s.startswith(p)`: the first |p| characters of s are p. */
  predicate StartsWith(s: string, p: string)
  {
    |p| <= |s| && s[..|p|] == p
  }

  /** Python's `s.endswith(p)`: the last |p| characters of s are p. */
  predicate EndsWith(s: string, p: string)
  {
    |p| <= |s| && s[|s| - |p|..] == p
  }

  /** A string starts with p exactly when it is p followed by something. */
  lemma StartsWithIffPrefix(s: string, p: string)
    ensures StartsWith(s, p) <==> exists rest :: s == p + rest
  {
    if StartsWith(s, p) {
      assert s == p + s[|p|..];
    }
    if exists rest :: s == p + rest {
      var rest :| s == p + rest;
      assert s[..|p|] == p;
    }
  }

  /** A string ends with p exactly when it is something followed by p. */
  lemma EndsWithIffSuffix(s: string, p: string)
    ensures EndsWith(s, p) <==> exists front :: s == front + p
  {
    if EndsWith(s, p) {
      assert s == s[..|s| - |p|] + p;
    }
    if exists front :: s == front + p {
      var front :| s == front + p;
      assert s[|s| - |p|..] == p;
    }
  }

  /** t occurs in s starting at index i. */
  predicate OccursAt(s: string, t: string, i: int)
  {
    0 <= i && i + |t| <= |s| && s[i..i + |t|] == t
  }

  /** t stands at index i of s as one whole line: it starts s or follows a
      newline, and it ends s or is followed by a newline. */
  predicate LineAt(s: string, t: string, i: int)
  {
    OccursAt(s, t, i)
    && (i == 0 || s[i - 1] == '\n')
    && (i + |t| == |s| || s[i + |t|] == '\n')
  }

  /** t is one whole line of s. */
  ghost predicate IsLineOf(s: string, t: string)
  {
    exists i :: LineAt(s, t, i)
  }

  /** The lines joined by newlines, as a Python triple-quoted template reads:
      `"\n".join(lines)`. */
  function JoinLines(lines: seq<string>): string
    decreases |lines|
  {
    if |lines| == 0 then ""
    else if |lines| == 1 then lines[0]
    else lines[0] + "\n" + JoinLines(lines[1..])
  }

  /** A whole line of rest stays a whole line once a first line is put in front. */
  lemma LineAtAfterHead(first: string, rest: string, t: string, j: int)
    requires LineAt(rest, t, j)
    ensures LineAt(first + "\n" + rest, t, |first| + 1 + j)
  {
    var head := first + "\n";
    var s := head + rest;
    var i := |head| + j;
    assert s[i..i + |t|] == rest[j..j + |t|];
    assert s[i - 1] == if j == 0 then '\n' else rest[j - 1];
  }

  /** Every line handed to JoinLines is a whole line of the result. */
  lemma {:induction false} LineOfJoinLines(lines: seq<string>, k: nat)
    requires k < |lines|
    ensures IsLineOf(JoinLines(lines), lines[k])
    decreases |lines|
  {
    var t := lines[k];
    if |lines| == 1 {
      assert LineAt(JoinLines(lines), t, 0);
    } else if k == 0 {
      var s := JoinLines(lines);
      assert s == t + "\n" + JoinLines(lines[1..]);
      assert s[..|t|] == t;
      assert LineAt(s, t, 0);
    } else {
      var rest := JoinLines(lines[1..]);
      LineOfJoinLines(lines[1..], k - 1);
      assert lines[1..][k - 1] == t;
      var j :| LineAt(rest, t, j);
      LineAtAfterHead(lines[0], rest, t, j);
    }
  }
}
