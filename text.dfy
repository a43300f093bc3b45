/** String splitting as JavaScript's `split` does it, with its inverse. */
module Text {
  import opened Wrappers

  /**
   * `s.split(sep)` for a one-character separator: the runs between
   * separators, empty runs included, so there is always at least one part.
   */
  function Split(s: string, sep: char): (parts: seq<string>)
    ensures |parts| >= 1
    ensures forall i :: 0 <= i < |parts| ==> sep !in parts[i]
    decreases |s|
  {
    if s == [] then [""]
    else
      var rest := Split(s[1..], sep);
      if s[0] == sep then [""] + rest
      else [[s[0]] + rest[0]] + rest[1..]
  }

  /** `parts.join(sep)`. */
  function Join(parts: seq<string>, sep: char): string
    requires |parts| >= 1
    decreases |parts|
  {
    if |parts| == 1 then parts[0] else parts[0] + [sep] + Join(parts[1..], sep)
  }

  /** `s.split(" ")[1]`: the second space-separated field, if there is one. */
  function SecondField(s: string): (r: Option<string>)
    ensures r.Some? <==> ' ' in s
    ensures r.Some? ==> ' ' !in r.value
  {
    var parts := Split(s, ' ');
    JoinSplit(s, ' ');
    if |parts| > 1 then
      assert s[|parts[0]|] == ' ';
      Some(parts[1])
    else None
  }

  /** Joining the parts of a split gives the string back. */
  lemma {:induction false} JoinSplit(s: string, sep: char)
    ensures Join(Split(s, sep), sep) == s
    decreases |s|
  {
    if s != [] {
      var rest := Split(s[1..], sep);
      JoinSplit(s[1..], sep);
      if s[0] == sep {
        assert Join(Split(s, sep), sep) == "" + [sep] + Join(rest, sep);
        assert s == [s[0]] + s[1..];
      } else if |rest| == 1 {
        assert s == [s[0]] + s[1..];
      } else {
        assert Join(rest, sep) == rest[0] + [sep] + Join(rest[1..], sep);
        assert ([[s[0]] + rest[0]] + rest[1..])[1..] == rest[1..];
        assert s == [s[0]] + s[1..];
      }
    }
  }

  /** A string without the separator splits into itself. */
  lemma {:induction false} SplitWithoutSeparator(a: string, sep: char)
    requires sep !in a
    ensures Split(a, sep) == [a]
    decreases |a|
  {
    if a != [] {
      SplitWithoutSeparator(a[1..], sep);
      assert a == [a[0]] + a[1..];
    }
  }

  /** A separator-free prefix followed by the separator is split off as the first part. */
  lemma {:induction false} SplitAfterFirst(a: string, b: string, sep: char)
    requires sep !in a
    ensures Split(a + [sep] + b, sep) == [a] + Split(b, sep)
    decreases |a|
  {
    var s := a + [sep] + b;
    if a == [] {
      assert s[1..] == b;
    } else {
      assert s[1..] == a[1..] + [sep] + b;
      SplitAfterFirst(a[1..], b, sep);
      assert a == [a[0]] + a[1..];
    }
  }

  /** Splitting a join of separator-free parts gives the parts back. */
  lemma {:induction false} SplitJoin(parts: seq<string>, sep: char)
    requires |parts| >= 1
    requires forall i :: 0 <= i < |parts| ==> sep !in parts[i]
    ensures Split(Join(parts, sep), sep) == parts
    decreases |parts|
  {
    if |parts| == 1 {
      SplitWithoutSeparator(parts[0], sep);
    } else {
      SplitJoin(parts[1..], sep);
      SplitAfterFirst(parts[0], Join(parts[1..], sep), sep);
      assert [parts[0]] + parts[1..] == parts;
    }
  }

  /**
   * The first part of a split is the longest separator-free prefix: it is a
   * prefix, and where it stops short of the end the separator follows.
   */
  lemma {:induction false} FirstPartIsPrefix(s: string, sep: char)
    ensures Split(s, sep)[0] <= s
    ensures |Split(s, sep)[0]| < |s| ==> s[|Split(s, sep)[0]|] == sep
    decreases |s|
  {
    if s != [] && s[0] != sep {
      FirstPartIsPrefix(s[1..], sep);
      assert s == [s[0]] + s[1..];
    }
  }

  /**
   * A message `a + "|" + b` with no bar in its first part determines both
   * parts: two such messages are equal only when their parts are.
   */
  lemma BarJoinedPairIsInjective(a: string, b: string, c: string, d: string)
    requires '|' !in a && '|' !in c
    requires a + "|" + b == c + "|" + d
    ensures a == c && b == d
  {
    SplitAfterFirst(a, b, '|');
    SplitAfterFirst(c, d, '|');
    assert a + "|" + b == a + ['|'] + b;
    assert c + "|" + d == c + ['|'] + d;
    assert ([a] + Split(b, '|'))[0] == ([c] + Split(d, '|'))[0];
    assert b == (a + "|" + b)[|a| + 1..];
    assert d == (c + "|" + d)[|c| + 1..];
  }
}
