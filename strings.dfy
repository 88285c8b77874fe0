/** The parts of Go's `strings` package that the generator relies on. */
module GoStrings {

  /** `strings.Split(s, sep)` for a one-character separator: the pieces
      between separators, so n separators give n + 1 pieces, and "" gives [""]. */
  function Split(s: string, sep: char): (parts: seq<string>)
    ensures |parts| >= 1
    ensures forall k :: 0 <= k < |parts| ==> sep !in parts[k]
    decreases |s|
  {
    if |s| == 0 then [""]
    else
      var rest := Split(s[1..], sep);
      if s[0] == sep then [""] + rest
      else [[s[0]] + rest[0]] + rest[1..]
  }

  /** `strings.Join(parts, string(sep))`. */
  function Join(parts: seq<string>, sep: char): string
    requires |parts| >= 1
  {
    if |parts| == 1 then parts[0] else parts[0] + [sep] + Join(parts[1..], sep)
  }

  /** Splitting loses nothing: joining the pieces gives the input back. */
  lemma {:induction false} JoinSplit(s: string, sep: char)
    ensures Join(Split(s, sep), sep) == s
    decreases |s|
  {
    if |s| > 0 {
      var rest := Split(s[1..], sep);
      JoinSplit(s[1..], sep);
      if s[0] == sep {
        assert Split(s, sep) == [""] + rest;
        assert ([""] + rest)[1..] == rest;
        assert s == [sep] + s[1..];
      } else {
        var parts := Split(s, sep);
        assert parts == [[s[0]] + rest[0]] + rest[1..];
        if |rest| == 1 {
          assert s == [s[0]] + s[1..];
        } else {
          assert parts[1..] == rest[1..];
          assert s == [s[0]] + s[1..];
        }
      }
    }
  }

  /** A prefix free of separators glues onto the first piece. */
  lemma {:induction false} SplitPrefix(p: string, t: string, sep: char)
    requires sep !in p
    ensures Split(p + t, sep) == [p + Split(t, sep)[0]] + Split(t, sep)[1..]
    decreases |p|
  {
    if |p| > 0 {
      assert (p + t)[1..] == p[1..] + t;
      assert (p + t)[0] == p[0];
      SplitPrefix(p[1..], t, sep);
      assert [p[0]] + (p[1..] + Split(t, sep)[0]) == p + Split(t, sep)[0];
    } else {
      var parts := Split(t, sep);
      assert p + t == t && p + parts[0] == parts[0];
      assert parts == [parts[0]] + parts[1..];
    }
  }

  /** A string without separators is a single piece. */
  lemma SplitWithoutSeparator(s: string, sep: char)
    requires sep !in s
    ensures Split(s, sep) == [s]
  {
    SplitPrefix(s, "", sep);
    assert s + "" == s;
  }

  /** Joining separator-free pieces and splitting again gives the pieces back. */
  lemma {:induction false} SplitJoin(parts: seq<string>, sep: char)
    requires |parts| >= 1
    requires forall k :: 0 <= k < |parts| ==> sep !in parts[k]
    ensures Split(Join(parts, sep), sep) == parts
    decreases |parts|
  {
    if |parts| == 1 {
      SplitPrefix(parts[0], "", sep);
      assert parts[0] + "" == parts[0];
    } else {
      var tail := Join(parts[1..], sep);
      SplitJoin(parts[1..], sep);
      assert parts[0] + [sep] + tail == parts[0] + ([sep] + tail);
      SplitPrefix(parts[0], [sep] + tail, sep);
      assert ([sep] + tail)[1..] == tail;
      assert Split([sep] + tail, sep) == [""] + parts[1..];
      assert parts[0] + "" == parts[0];
    }
  }

  /** `strings.HasSuffix(s, suffix)`. */
  predicate HasSuffix(s: string, suffix: string)
  {
    |suffix| <= |s| && s[|s| - |suffix|..] == suffix
  }

  /** The last piece of a split: what follows the last separator. */
  function LastPiece(s: string, sep: char): string
  {
    var parts := Split(s, sep);
    parts[|parts| - 1]
  }

  lemma {:induction false} JoinEndsWithLast(parts: seq<string>, sep: char)
    requires |parts| >= 1
    ensures HasSuffix(Join(parts, sep), parts[|parts| - 1])
    decreases |parts|
  {
    if |parts| > 1 {
      JoinEndsWithLast(parts[1..], sep);
      var j := Join(parts[1..], sep);
      var whole := parts[0] + [sep] + j;
      assert whole[|whole| - |j|..] == j;
    }
  }

  /** In a join of several parts, the character before the last part is the
      separator. */
  lemma {:induction false} JoinSeparatorBeforeLast(parts: seq<string>, sep: char)
    requires |parts| > 1
    ensures var j := Join(parts, sep); var l := parts[|parts| - 1];
      |l| < |j| && j[|j| - |l| - 1] == sep
    decreases |parts|
  {
    var j := Join(parts[1..], sep);
    var whole := parts[0] + [sep] + j;
    var l := parts[|parts| - 1];
    assert parts[1..][|parts[1..]| - 1] == l;
    if |parts| == 2 {
      assert j == l;
      assert whole[|whole| - |l| - 1] == sep;
    } else {
      JoinSeparatorBeforeLast(parts[1..], sep);
      assert whole[|whole| - |l| - 1] == j[|j| - |l| - 1];
    }
  }

  /** The last piece holds no separator and ends the string, and it is either
      the whole string or preceded by a separator: it is everything after the
      last separator. A string without separators is its own last piece. */
  lemma LastPieceIsSuffix(s: string, sep: char)
    ensures sep !in LastPiece(s, sep)
    ensures HasSuffix(s, LastPiece(s, sep))
    ensures var n := LastPiece(s, sep); |n| == |s| || (|n| < |s| && s[|s| - |n| - 1] == sep)
    ensures sep !in s ==> LastPiece(s, sep) == s
  {
    JoinSplit(s, sep);
    JoinEndsWithLast(Split(s, sep), sep);
    if |Split(s, sep)| > 1 {
      JoinSeparatorBeforeLast(Split(s, sep), sep);
    }
    if sep !in s {
      SplitWithoutSeparator(s, sep);
    }
  }
}
