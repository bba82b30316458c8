/**
 * The three operations of Go's `strings` package that the exporter relies on,
 * specialised to a one-character separator: `Split`, `SplitN(_, _, 2)` and
 * `ReplaceAll`. `Split` is tied to `Join` by a round trip in both directions,
 * which is what makes a topic's segments well defined.
 */
module Strings {

  /** Number of occurrences of `c` in `s`. */
  function Count(s: string, c: char): nat
  {
    if s == [] then 0 else (if s[0] == c then 1 else 0) + Count(s[1..], c)
  }

  /**
   * strings.Split(s, string(c)): the maximal pieces of `s` between occurrences
   * of `c`. The empty string splits into one empty piece, as in Go.
   */
  function Split(s: string, c: char): (parts: seq<string>)
    ensures |parts| == Count(s, c) + 1
    ensures forall i :: 0 <= i < |parts| ==> c !in parts[i]
  {
    if s == [] then [""]
    else
      var rest := Split(s[1..], c);
      if s[0] == c then [""] + rest else [[s[0]] + rest[0]] + rest[1..]
  }

  /** strings.Join(parts, string(c)), the inverse of `Split`. */
  function Join(parts: seq<string>, c: char): string
    requires |parts| >= 1
  {
    if |parts| == 1 then parts[0] else parts[0] + [c] + Join(parts[1..], c)
  }

  /** Joining the pieces of a split gives back the original string. */
  lemma {:induction false} JoinSplit(s: string, c: char)
    ensures Join(Split(s, c), c) == s
  {
    if s != [] {
      JoinSplit(s[1..], c);
      var rest := Split(s[1..], c);
      if s[0] != c {
        if |rest| == 1 {
          assert Split(s, c) == [[s[0]] + rest[0]];
        } else {
          assert Split(s, c)[1..] == rest[1..];
          assert Join(rest, c) == rest[0] + [c] + Join(rest[1..], c);
          assert s == [s[0]] + s[1..];
        }
      } else {
        assert Split(s, c)[1..] == rest;
        assert s == [c] + s[1..];
      }
    }
  }

  /**
   * Splitting a join of separator-free pieces gives back the pieces: the
   * segmentation of a string is unique.
   */
  lemma {:induction false} SplitJoin(parts: seq<string>, c: char)
    requires |parts| >= 1
    requires forall i :: 0 <= i < |parts| ==> c !in parts[i]
    ensures Split(Join(parts, c), c) == parts
  {
    if |parts| == 1 {
      SplitFree(parts[0], c);
    } else {
      SplitJoin(parts[1..], c);
      SplitPrefix(parts[0], Join(parts[1..], c), c);
      assert [parts[0]] + parts[1..] == parts;
    }
  }

  /** A string without the separator splits into itself alone. */
  lemma {:induction false} SplitFree(s: string, c: char)
    requires c !in s
    ensures Split(s, c) == [s]
  {
    if s != [] {
      SplitFree(s[1..], c);
      assert [s[0]] + s[1..] == s;
    }
  }

  /** Splitting `a + [c] + b` with `a` separator-free yields `a` then the pieces of `b`. */
  lemma {:induction false} SplitPrefix(a: string, b: string, c: char)
    requires c !in a
    ensures Split(a + [c] + b, c) == [a] + Split(b, c)
  {
    if a == [] {
      assert ([c] + b)[1..] == b;
    } else {
      SplitPrefix(a[1..], b, c);
      assert (a + [c] + b)[1..] == a[1..] + [c] + b;
      assert [a[0]] + a[1..] == a;
    }
  }

  /**
   * strings.SplitN(s, string(c), 2): the text before the first `c` and, when
   * there is one, the text after it.
   */
  function SplitFirst(s: string, c: char): (pp: seq<string>)
    ensures 1 <= |pp| <= 2
    ensures |pp| == 1 <==> c !in s
    ensures |pp| == 1 ==> pp[0] == s
    ensures |pp| == 2 ==> |pp[1]| < |s|
  {
    if s == [] then [""]
    else if s[0] == c then ["", s[1..]]
    else
      var rest := SplitFirst(s[1..], c);
      [[s[0]] + rest[0]] + rest[1..]
  }

  /**
   * `SplitFirst` agrees with `Split`: its first piece is the first segment, and
   * its second piece, when present, splits into the remaining segments.
   */
  lemma {:induction false} SplitFirstSplit(s: string, c: char)
    ensures var pp := SplitFirst(s, c);
      && pp[0] == Split(s, c)[0]
      && (|pp| == 1 ==> Split(s, c) == [s])
      && (|pp| == 2 ==> Split(s, c) == [pp[0]] + Split(pp[1], c))
  {
    var pp := SplitFirst(s, c);
    if c !in s {
      SplitFree(s, c);
    } else {
      SplitFirstPieces(s, c);
      assert s == pp[0] + [c] + pp[1];
      SplitPrefix(pp[0], pp[1], c);
    }
  }

  /** When `s` holds `c`, `SplitFirst` cuts `s` at its first `c`. */
  lemma {:induction false} SplitFirstPieces(s: string, c: char)
    requires c in s
    ensures var pp := SplitFirst(s, c);
      |pp| == 2 && c !in pp[0] && s == pp[0] + [c] + pp[1]
  {
    if s[0] != c {
      SplitFirstPieces(s[1..], c);
      assert s == [s[0]] + s[1..];
    }
  }

  /** strings.ReplaceAll(s, string(c), string(d)). */
  function ReplaceAll(s: string, c: char, d: char): (r: string)
    ensures |r| == |s|
    ensures forall i :: 0 <= i < |s| ==> r[i] == (if s[i] == c then d else s[i])
  {
    seq(|s|, i requires 0 <= i < |s| => if s[i] == c then d else s[i])
  }

  /**
   * Replacing every `c` by `d` is splitting on `c` and joining the pieces
   * with `d`.
   */
  lemma {:induction false} ReplaceAllJoinSplit(s: string, c: char, d: char)
    ensures ReplaceAll(s, c, d) == Join(Split(s, c), d)
  {
    if s != [] {
      ReplaceAllJoinSplit(s[1..], c, d);
      var rest := Split(s[1..], c);
      assert ReplaceAll(s, c, d) == [if s[0] == c then d else s[0]] + ReplaceAll(s[1..], c, d);
      if s[0] == c {
        assert Split(s, c) == [""] + rest;
        assert ([""] + rest)[1..] == rest;
      } else if |rest| > 1 {
        assert Split(s, c)[1..] == rest[1..];
        assert Join(rest, d) == rest[0] + [d] + Join(rest[1..], d);
      }
    }
  }

  /** Replacing every `c` by a different character leaves no `c`. */
  lemma ReplaceAllRemoves(s: string, c: char, d: char)
    requires c != d
    ensures c !in ReplaceAll(s, c, d)
  {
  }
}
