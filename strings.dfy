/** `String.prototype.split` and `Array.prototype.join` with a one-character
    separator, as JavaScript defines them, and the facts that make them
    inverse to each other. */
module Strings {

  /** The pieces of `s` between occurrences of `sep`, in order: always one
      more piece than there are separators, so `""` splits into `[""]`. */
  function Split(s: string, sep: char): (parts: seq<string>)
    ensures |parts| >= 1
  {
    if s == [] then [""] else Step(s[0], Split(s[1..], sep), sep)
  }

  /** The pieces of `[c] + t` from the pieces of `t`: a separator opens a
      new, empty first piece; any other character joins the first piece. */
  function Step(c: char, parts: seq<string>, sep: char): (r: seq<string>)
    requires |parts| >= 1
    ensures |r| >= 1
  {
    if c == sep then [""] + parts else PrependToFirst(c, parts)
  }

  /** The pieces with `c` put in front of the first one. */
  function PrependToFirst(c: char, parts: seq<string>): (r: seq<string>)
    requires |parts| >= 1
    ensures |r| == |parts|
  {
    [[c] + parts[0]] + parts[1..]
  }

  /** Stepping does not reach past the first piece. */
  lemma StepAppend(c: char, x: seq<string>, y: seq<string>, sep: char)
    requires |x| >= 1
    ensures Step(c, x, sep) + y == Step(c, x + y, sep)
  {
    if c == sep {
      assert [""] + (x + y) == ([""] + x) + y;
    } else {
      assert (x + y)[0] == x[0];
      assert (x + y)[1..] == x[1..] + y;
    }
  }

  /** The pieces glued together with `sep` between neighbours. */
  function Join(parts: seq<string>, sep: char): string
  {
    if parts == [] then ""
    else if |parts| == 1 then parts[0]
    else parts[0] + [sep] + Join(parts[1..], sep)
  }

  /** No piece of a split holds the separator. */
  lemma {:induction false} SplitPiecesFree(s: string, sep: char)
    ensures forall i :: 0 <= i < |Split(s, sep)| ==> sep !in Split(s, sep)[i]
  {
    if s != [] {
      SplitPiecesFree(s[1..], sep);
    }
  }

  /** Joining the pieces of a split gives back the original string. */
  lemma {:induction false} JoinSplit(s: string, sep: char)
    ensures Join(Split(s, sep), sep) == s
  {
    if s != [] {
      var rest := Split(s[1..], sep);
      JoinSplit(s[1..], sep);
      if s[0] == sep {
        assert Split(s, sep) == [""] + rest;
        assert Join([""] + rest, sep) == "" + [sep] + Join(rest, sep) by {
          assert ([""] + rest)[1..] == rest;
        }
      } else {
        var parts := Split(s, sep);
        assert parts == [[s[0]] + rest[0]] + rest[1..];
        if |rest| == 1 {
          assert Join(parts, sep) == [s[0]] + rest[0];
        } else {
          assert parts[1..] == rest[1..];
          assert Join(rest, sep) == rest[0] + [sep] + Join(rest[1..], sep);
        }
      }
    }
  }

  /** A string without the separator is a single piece. */
  lemma {:induction false} SplitWithoutSeparator(s: string, sep: char)
    requires sep !in s
    ensures Split(s, sep) == [s]
  {
    if s != [] {
      SplitWithoutSeparator(s[1..], sep);
      assert [s[0]] + s[1..] == s;
    }
  }

  /** Splitting distributes over a separator placed between two strings. */
  lemma {:induction false} SplitAround(a: string, b: string, sep: char)
    ensures Split(a + [sep] + b, sep) == Split(a, sep) + Split(b, sep)
  {
    if a == [] {
      SplitCons(sep, b, sep);
      assert a + [sep] + b == [sep] + b;
    } else {
      var u := a[1..] + [sep] + b;
      SplitAround(a[1..], b, sep);
      SplitAroundStep(a[0], a[1..], u, b, sep);
      assert [a[0]] + a[1..] == a;
      assert [a[0]] + u == a + [sep] + b;
    }
  }

  /** The inductive step of `SplitAround`: one more character in front of
      a string `u` whose pieces are those of `t` followed by those of `b`. */
  lemma SplitAroundStep(c: char, t: string, u: string, b: string, sep: char)
    requires Split(u, sep) == Split(t, sep) + Split(b, sep)
    ensures Split([c] + u, sep) == Split([c] + t, sep) + Split(b, sep)
  {
    SplitCons(c, u, sep);
    SplitCons(c, t, sep);
    StepAppend(c, Split(t, sep), Split(b, sep), sep);
  }

  /** One step of the split, from the front. */
  lemma SplitCons(c: char, t: string, sep: char)
    ensures Split([c] + t, sep) == Step(c, Split(t, sep), sep)
  {
    var s := [c] + t;
    assert s != [] && s[0] == c && s[1..] == t;
  }

  /** Splitting a join gives back the pieces, provided none of them holds
      the separator (otherwise it would split them further). */
  lemma {:induction false} SplitJoin(parts: seq<string>, sep: char)
    requires |parts| >= 1
    requires forall i :: 0 <= i < |parts| ==> sep !in parts[i]
    ensures Split(Join(parts, sep), sep) == parts
  {
    SplitWithoutSeparator(parts[0], sep);
    if |parts| > 1 {
      SplitJoin(parts[1..], sep);
      SplitAround(parts[0], Join(parts[1..], sep), sep);
      assert [parts[0]] + parts[1..] == parts;
    }
  }

  /** A piece without the separator, then the separator: the piece comes
      off as the first element. */
  lemma SplitLine(piece: string, rest: string, sep: char)
    requires sep !in piece
    ensures Split(piece + [sep] + rest, sep) == [piece] + Split(rest, sep)
  {
    SplitAround(piece, rest, sep);
    SplitWithoutSeparator(piece, sep);
  }

  predicate StartsWith(s: string, prefix: string) {
    prefix <= s
  }

  predicate EndsWith(s: string, suffix: string) {
    |suffix| <= |s| && s[|s| - |suffix|..] == suffix
  }

  /** Whatever precedes them, the last three parts end the string. */
  lemma EndsWithTail(a: string, b: string, c: string, d: string)
    ensures EndsWith(a + b + c + d, b + c + d)
  {
    assert a + b + c + d == a + (b + c + d);
  }
}
