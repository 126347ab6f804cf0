/**
 * Dotted translation keys and the single-character string split that
 * breaks them into segments (`key.split('.')` in JavaScript).
 */
module Paths {

  /** The segments of `s` joined back together with `sep` between them. */
  function Join(segs: seq<string>, sep: char): string
  {
    if |segs| == 0 then ""
    else if |segs| == 1 then segs[0]
    else segs[0] + [sep] + Join(segs[1..], sep)
  }

  /**
   * JavaScript's `s.split(sep)` for a one-character separator: every
   * occurrence of `sep` ends a segment, so there is always one more segment
   * than there are separators, empty segments included ("" gives [""],
   * "a..b" gives ["a", "", "b"]).
   */
  function Split(s: string, sep: char): (r: seq<string>)
    ensures |r| >= 1
    decreases |s|
  {
    if s == [] then [""]
    else
      var rest := Split(s[1..], sep);
      if s[0] == sep then [""] + rest
      else [[s[0]] + rest[0]] + rest[1..]
  }

  /** No segment holds the separator. */
  lemma {:induction false} SplitSegments(s: string, sep: char)
    ensures forall i :: 0 <= i < |Split(s, sep)| ==> sep !in Split(s, sep)[i]
    decreases |s|
  {
    if s != [] {
      SplitSegments(s[1..], sep);
    }
  }

  /** Joining the segments with the separator gives the split string back. */
  lemma {:induction false} JoinSplit(s: string, sep: char)
    ensures Join(Split(s, sep), sep) == s
    decreases |s|
  {
    if s != [] {
      var rest := Split(s[1..], sep);
      JoinSplit(s[1..], sep);
      if s[0] == sep {
        assert Join([""] + rest, sep) == [sep] + Join(rest, sep);
      } else {
        var r := [[s[0]] + rest[0]] + rest[1..];
        assert r[0] == [s[0]] + rest[0] && r[1..] == rest[1..];
        if |rest| > 1 {
          assert Join(r, sep) == [s[0]] + (rest[0] + [sep] + Join(rest[1..], sep));
        }
      }
      assert s == [s[0]] + s[1..];
    }
  }

  /** A string without the separator is a single segment. */
  lemma {:induction false} SplitNoSeparator(s: string, sep: char)
    requires sep !in s
    ensures Split(s, sep) == [s]
    decreases |s|
  {
    if s != [] {
      assert sep !in s[1..];
      SplitNoSeparator(s[1..], sep);
      assert [s[0]] + s[1..] == s;
    }
  }

  /** The first character either ends the first segment or starts it. */
  lemma SplitCons(c: char, t: string, sep: char)
    ensures Split([c] + t, sep) == if c == sep then [""] + Split(t, sep)
                                   else [[c] + Split(t, sep)[0]] + Split(t, sep)[1..]
  {
    var u := [c] + t;
    assert u[0] == c && u[1..] == t;
  }

  /** Extending the first segment commutes with appending further segments. */
  lemma ExtendFirstAppend(c: char, head: seq<string>, tail: seq<string>)
    requires |head| >= 1
    ensures [[c] + (head + tail)[0]] + (head + tail)[1..] == [[c] + head[0]] + head[1..] + tail
  {
    assert (head + tail)[0] == head[0];
    assert (head + tail)[1..] == head[1..] + tail;
  }

  /** Splitting distributes over a separator: the separator ends the last segment of `s`. */
  lemma {:induction false} SplitAppendSeparator(s: string, t: string, sep: char)
    ensures Split(s + [sep] + t, sep) == Split(s, sep) + Split(t, sep)
    decreases |s|
  {
    if s == [] {
      assert s + [sep] + t == [sep] + t;
      SplitCons(sep, t, sep);
    } else {
      var c, s' := s[0], s[1..];
      assert s == [c] + s';
      assert s + [sep] + t == [c] + (s' + [sep] + t);
      SplitAppendSeparator(s', t, sep);
      SplitCons(c, s' + [sep] + t, sep);
      SplitCons(c, s', sep);
      if c != sep {
        ExtendFirstAppend(c, Split(s', sep), Split(t, sep));
      }
    }
  }

  /** Split undoes Join when no segment holds the separator (at least one segment). */
  lemma {:induction false} SplitJoin(segs: seq<string>, sep: char)
    requires |segs| >= 1
    requires forall i :: 0 <= i < |segs| ==> sep !in segs[i]
    ensures Split(Join(segs, sep), sep) == segs
    decreases |segs|
  {
    SplitNoSeparator(segs[0], sep);
    if |segs| > 1 {
      SplitAppendSeparator(segs[0], Join(segs[1..], sep), sep);
      SplitJoin(segs[1..], sep);
      assert [segs[0]] + segs[1..] == segs;
    }
  }

  /** The empty key is one empty segment. */
  lemma SplitEmpty(sep: char)
    ensures Split("", sep) == [""]
  {
  }

  /** A leading separator makes an empty first segment. */
  lemma SplitLeadingSeparator(b: string, sep: char)
    ensures Split([sep] + b, sep) == [""] + Split(b, sep)
  {
    var lead := [sep] + b;
    assert lead[0] == sep && lead[1..] == b;
  }

  /** A trailing separator makes an empty last segment. */
  lemma SplitTrailingSeparator(a: string, sep: char)
    ensures Split(a + [sep], sep) == Split(a, sep) + [""]
  {
    SplitAppendSeparator(a, "", sep);
    assert a + [sep] == a + [sep] + "";
  }

  /** Two separators in a row make an empty segment between them. */
  lemma SplitDoubledSeparator(a: string, b: string, sep: char)
    ensures Split(a + [sep, sep] + b, sep) == Split(a, sep) + [""] + Split(b, sep)
  {
    SplitAppendSeparator(a, [sep] + b, sep);
    assert a + [sep, sep] + b == a + [sep] + ([sep] + b);
    SplitLeadingSeparator(b, sep);
  }
}
