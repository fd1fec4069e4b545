/**
 String helpers the stack relies on: the .NET `String.Split(char)` without options
 (every segment is kept, empty ones included), its inverse `Join`, and occurrence counts.
 */
module Text {

  /** True when `a` is a prefix of `s`. */
  predicate IsPrefix(a: string, s: string) {
    |a| <= |s| && s[..|a|] == a
  }

  /** True when `a` is a suffix of `s`. */
  predicate IsSuffix(a: string, s: string) {
    |a| <= |s| && s[|s| - |a|..] == a
  }

  /** Number of occurrences of `c` in `s`. */
  function Count(s: string, c: char): nat
  {
    if s == [] then 0 else (if s[0] == c then 1 else 0) + Count(s[1..], c)
  }

  lemma {:induction false} CountAppend(a: string, b: string, c: char)
    ensures Count(a + b, c) == Count(a, c) + Count(b, c)
  {
    if a == [] {
      assert a + b == b;
    } else {
      assert (a + b)[1..] == a[1..] + b;
      CountAppend(a[1..], b, c);
    }
  }

  lemma {:induction false} CountZeroIffAbsent(s: string, c: char)
    ensures Count(s, c) == 0 <==> c !in s
  {
    if s != [] {
      assert s == [s[0]] + s[1..];
      CountZeroIffAbsent(s[1..], c);
    }
  }

  /**
   `s.Split(c)`: the maximal `c`-free segments of `s`, in order. There is always one
   more segment than there are separators, and no segment contains the separator.
   */
  function Split(s: string, c: char): (parts: seq<string>)
    ensures |parts| == Count(s, c) + 1
    ensures forall i :: 0 <= i < |parts| ==> c !in parts[i]
  {
    if s == [] then [""]
    else
      var rest := Split(s[1..], c);
      if s[0] == c then [""] + rest
      else [[s[0]] + rest[0]] + rest[1..]
  }

  /** `string.Join(c, parts)`: the segments glued back together with `c` between them. */
  function Join(parts: seq<string>, c: char): string
  {
    if |parts| == 0 then ""
    else if |parts| == 1 then parts[0]
    else parts[0] + [c] + Join(parts[1..], c)
  }

  /** With two segments or more, the last one follows a separator at the end of the join. */
  lemma {:induction false} JoinLastAfterSeparator(parts: seq<string>, c: char)
    requires |parts| >= 2
    ensures IsSuffix([c] + parts[|parts| - 1], Join(parts, c))
  {
    var rest := parts[1..];
    assert Join(parts, c) == parts[0] + [c] + Join(rest, c);
    if |rest| >= 2 {
      JoinLastAfterSeparator(rest, c);
      assert rest[|rest| - 1] == parts[|parts| - 1];
    }
  }

  /** Joining the segments of a split gives back the original string. */
  lemma {:induction false} JoinSplit(s: string, c: char)
    ensures Join(Split(s, c), c) == s
  {
    if s != [] {
      var rest := Split(s[1..], c);
      JoinSplit(s[1..], c);
      if s[0] == c {
        assert Split(s, c) == [""] + rest;
        assert ([""] + rest)[1..] == rest;
        assert Join(Split(s, c), c) == "" + [c] + s[1..];
        assert s == [s[0]] + s[1..];
      } else if |rest| == 1 {
        assert Split(s, c) == [[s[0]] + rest[0]];
        assert s == [s[0]] + s[1..];
      } else {
        var parts := Split(s, c);
        assert parts == [[s[0]] + rest[0]] + rest[1..];
        assert parts[1..] == rest[1..];
        assert Join(rest, c) == rest[0] + [c] + Join(rest[1..], c);
        assert Join(parts, c) == [s[0]] + rest[0] + [c] + Join(rest[1..], c);
        assert s == [s[0]] + s[1..];
      }
    }
  }

  /** A string free of the separator splits into itself alone. */
  lemma {:induction false} SplitFree(a: string, c: char)
    requires c !in a
    ensures Split(a, c) == [a]
  {
    if a != [] {
      SplitFree(a[1..], c);
      assert a == [a[0]] + a[1..];
    }
  }

  /** A separator-free head followed by a separator splits off as the first segment. */
  lemma {:induction false} SplitCons(a: string, b: string, c: char)
    requires c !in a
    ensures Split(a + [c] + b, c) == [a] + Split(b, c)
  {
    var s := a + [c] + b;
    if a == [] {
      assert s == [c] + b;
      assert s[1..] == b;
    } else {
      assert s[0] == a[0];
      assert s[1..] == a[1..] + [c] + b;
      SplitCons(a[1..], b, c);
      assert a == [a[0]] + a[1..];
    }
  }

  /** Splitting a join of separator-free segments gives back the segments. */
  lemma {:induction false} SplitJoin(parts: seq<string>, c: char)
    requires |parts| >= 1
    requires forall i :: 0 <= i < |parts| ==> c !in parts[i]
    ensures Split(Join(parts, c), c) == parts
  {
    if |parts| == 1 {
      SplitFree(parts[0], c);
    } else {
      SplitJoin(parts[1..], c);
      SplitCons(parts[0], Join(parts[1..], c), c);
      assert parts == [parts[0]] + parts[1..];
    }
  }

  /** The first segment starts the joined string and the last one ends it. */
  lemma {:induction false} JoinEnds(parts: seq<string>, c: char)
    requires |parts| >= 1
    ensures IsPrefix(parts[0], Join(parts, c))
    ensures IsSuffix(parts[|parts| - 1], Join(parts, c))
  {
    if |parts| > 1 {
      JoinEnds(parts[1..], c);
      var tail := Join(parts[1..], c);
      assert Join(parts, c) == parts[0] + ([c] + tail);
      assert parts[1..][|parts| - 2] == parts[|parts| - 1];
    }
  }

  /** With at least two segments, every separator between them is counted in the length. */
  lemma {:induction false} JoinLength(parts: seq<string>, c: char)
    requires |parts| >= 2
    ensures |Join(parts, c)| >= |parts[0]| + |parts[|parts| - 1]| + |parts| - 1
  {
    if |parts| > 2 {
      JoinLength(parts[1..], c);
    }
  }
}
