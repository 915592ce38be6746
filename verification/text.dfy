/** Python's `str.split(sep)` for a non-empty separator. */
module Text {

  /** Joins the pieces with `sep` between neighbours; `Split` followed by `Join` gives the string back. */
  function Join(parts: seq<string>, sep: string): string
    requires |parts| >= 1
  {
    if |parts| == 1 then parts[0] else parts[0] + sep + Join(parts[1..], sep)
  }

  /**
   * Splits `s` at every occurrence of `sep`, scanning left to right and never
   * letting two occurrences overlap. As in Python, the result is never empty:
   * a string without `sep` splits into itself.
   */
  function Split(s: string, sep: string): (r: seq<string>)
    requires |sep| >= 1
    ensures |r| >= 1
    ensures Join(r, sep) == s
    ensures |s| < |sep| ==> r == [s]
    decreases |s|
  {
    if |s| < |sep| then [s]
    else if s[..|sep|] == sep then
      var rest := Split(s[|sep|..], sep);
      assert Join([""] + rest, sep) == "" + sep + Join(rest, sep) by {
        assert ([""] + rest)[1..] == rest;
      }
      assert s == s[..|sep|] + s[|sep|..];
      [""] + rest
    else
      var rest := Split(s[1..], sep);
      JoinConsFirst(s[0], rest, sep);
      assert s == [s[0]] + s[1..];
      [[s[0]] + rest[0]] + rest[1..]
  }

  /** Prepending a character to the first piece prepends it to the joined text. */
  lemma JoinConsFirst(c: char, parts: seq<string>, sep: string)
    requires |parts| >= 1
    ensures Join([[c] + parts[0]] + parts[1..], sep) == [c] + Join(parts, sep)
  {
    var q := [[c] + parts[0]] + parts[1..];
    if |parts| > 1 {
      assert q[1..] == parts[1..];
    }
  }

  /** `s` holds no occurrence of the one-character separator `sep`. */
  predicate FreeOf(s: string, sep: string)
    requires |sep| == 1
  {
    forall i :: 0 <= i < |s| ==> s[i] != sep[0]
  }

  /** A string free of the separator splits into itself. */
  lemma {:induction false} SplitFree(s: string, sep: string)
    requires |sep| == 1 && FreeOf(s, sep)
    ensures Split(s, sep) == [s]
    decreases |s|
  {
    if |s| >= |sep| {
      assert s[..|sep|] != sep by {
        assert s[..|sep|][0] == s[0];
      }
      SplitFree(s[1..], sep);
      assert [s[0]] + s[1..] == s;
    }
  }

  /** The first part of `a + sep + rest` is `a` when `a` is free of the separator. */
  lemma {:induction false} SplitFirst(a: string, sep: string, rest: string)
    requires |sep| == 1 && FreeOf(a, sep)
    ensures Split(a + sep + rest, sep)[0] == a
    decreases |a|
  {
    var s := a + sep + rest;
    if |a| == 0 {
      assert s[..|sep|] == sep;
    } else {
      assert s[..|sep|] != sep by {
        assert s[..|sep|][0] == a[0];
      }
      assert s[1..] == a[1..] + sep + rest;
      SplitFirst(a[1..], sep, rest);
      assert [s[0]] + a[1..] == a;
    }
  }
}
