/** The .NET string operations the chat-command script relies on, over
    `string` = `seq<char>`: `String.Split(char)`, `String.Trim()`,
    `String.StartsWith(string)` (ordinal) and `char.IsWhiteSpace`. */
module Text {

  /** The characters for which .NET's `char.IsWhiteSpace` holds: the Unicode
      space, line and paragraph separators, U+0009..U+000D and U+0085. */
  const WhiteSpace: set<char> := {
    '\t', '\n', '\U{B}', '\U{C}', '\r', ' ', '\U{85}', '\U{A0}', '\U{1680}',
    '\U{2000}', '\U{2001}', '\U{2002}', '\U{2003}', '\U{2004}', '\U{2005}',
    '\U{2006}', '\U{2007}', '\U{2008}', '\U{2009}', '\U{200A}',
    '\U{2028}', '\U{2029}', '\U{202F}', '\U{205F}', '\U{3000}'
  }

  /** Every character of `s` belongs to `cs`. */
  predicate AllIn(s: string, cs: set<char>) {
    forall i :: 0 <= i < |s| ==> s[i] in cs
  }

  /** `s` neither starts nor ends with a character of `ws`. */
  predicate IsTrimmed(s: string, ws: set<char>) {
    |s| == 0 || (s[0] !in ws && s[|s| - 1] !in ws)
  }

  /** `r` sits in `s` at offset `lo`, and everything around it is in `ws`. */
  predicate Margins(s: string, r: string, lo: int, ws: set<char>) {
    && 0 <= lo <= lo + |r| <= |s|
    && s[lo..lo + |r|] == r
    && AllIn(s[..lo], ws)
    && AllIn(s[lo + |r|..], ws)
  }

  /** `s` without leading and trailing characters from `ws`; with
      `ws == WhiteSpace` this is .NET's `String.Trim()`. */
  function Trim(s: string, ws: set<char>): (r: string)
    ensures IsTrimmed(r, ws)
    ensures |r| <= |s|
    decreases |s|
  {
    if |s| > 0 && s[0] in ws then Trim(s[1..], ws)
    else if |s| > 0 && s[|s| - 1] in ws then Trim(s[..|s| - 1], ws)
    else s
  }

  /** The trim is empty exactly when `s` is made of `ws` characters. */
  lemma {:induction false} TrimEmpty(s: string, ws: set<char>)
    ensures Trim(s, ws) == [] <==> AllIn(s, ws)
    decreases |s|
  {
    if |s| > 0 && s[0] in ws {
      TrimEmpty(s[1..], ws);
      assert AllIn(s[1..], ws) ==> AllIn(s, ws);
    } else if |s| > 0 && s[|s| - 1] in ws {
      TrimEmpty(s[..|s| - 1], ws);
      assert AllIn(s[..|s| - 1], ws) ==> AllIn(s, ws);
    }
  }

  /** Dropping a leading `ws` character keeps the margins. */
  lemma MarginsDropFirst(s: string, r: string, lo: int, ws: set<char>)
    requires |s| > 0 && s[0] in ws
    requires Margins(s[1..], r, lo, ws)
    ensures Margins(s, r, lo + 1, ws)
  {
    assert s[..lo + 1] == [s[0]] + s[1..][..lo];
    assert s[lo + 1..lo + 1 + |r|] == s[1..][lo..lo + |r|];
    assert s[lo + 1 + |r|..] == s[1..][lo + |r|..];
  }

  /** Dropping a trailing `ws` character keeps the margins. */
  lemma MarginsDropLast(s: string, r: string, lo: int, ws: set<char>)
    requires |s| > 0 && s[|s| - 1] in ws
    requires Margins(s[..|s| - 1], r, lo, ws)
    ensures Margins(s, r, lo, ws)
  {
    assert s[..lo] == s[..|s| - 1][..lo];
    assert s[lo..lo + |r|] == s[..|s| - 1][lo..lo + |r|];
    assert s[lo + |r|..] == s[..|s| - 1][lo + |r|..] + [s[|s| - 1]];
  }

  /** The trim sits inside `s` with only `ws` characters around it. */
  lemma {:induction false} TrimMargins(s: string, ws: set<char>)
    ensures exists lo :: Margins(s, Trim(s, ws), lo, ws)
    decreases |s|
  {
    var r := Trim(s, ws);
    if |s| > 0 && s[0] in ws {
      TrimMargins(s[1..], ws);
      var lo :| Margins(s[1..], r, lo, ws);
      MarginsDropFirst(s, r, lo, ws);
    } else if |s| > 0 && s[|s| - 1] in ws {
      TrimMargins(s[..|s| - 1], ws);
      var lo :| Margins(s[..|s| - 1], r, lo, ws);
      MarginsDropLast(s, r, lo, ws);
    } else {
      assert Margins(s, s, 0, ws);
    }
  }

  /** A leading `ws` character does not change the trim. */
  lemma TrimLeading(c: char, s: string, ws: set<char>)
    requires c in ws
    ensures Trim([c] + s, ws) == Trim(s, ws)
  {
    assert ([c] + s)[1..] == s;
  }

  /** Without a leading `ws` character, a trailing one does not change the
      trim. */
  lemma TrimTrailing(s: string, c: char, ws: set<char>)
    requires c in ws && |s| > 0 && s[0] !in ws
    ensures Trim(s + [c], ws) == Trim(s, ws)
  {
    var t := s + [c];
    assert t[0] == s[0] && t[|t| - 1] == c;
    assert t[..|t| - 1] == s;
  }

  /** `Trim` is determined by its contract: whatever sits between two runs
      of `ws` characters and neither starts nor ends with one is the trim. */
  lemma {:induction false} TrimUnique(w1: string, x: string, w2: string, ws: set<char>)
    requires AllIn(w1, ws) && AllIn(w2, ws) && IsTrimmed(x, ws)
    ensures Trim(w1 + x + w2, ws) == x
    decreases |w1| + |w2|
  {
    var s := w1 + x + w2;
    if |x| == 0 {
      assert s == w1 + w2;
      assert AllIn(s, ws);
      TrimEmpty(s, ws);
    } else if |w1| > 0 {
      assert s == [w1[0]] + (w1[1..] + x + w2);
      TrimLeading(w1[0], w1[1..] + x + w2, ws);
      TrimUnique(w1[1..], x, w2, ws);
    } else if |w2| > 0 {
      var w := w2[..|w2| - 1];
      assert s == (w1 + x + w) + [w2[|w2| - 1]];
      assert (w1 + x + w)[0] == x[0];
      TrimTrailing(w1 + x + w, w2[|w2| - 1], ws);
      TrimUnique(w1, x, w, ws);
    } else {
      assert s == x;
      TrimOfTrimmed(x, ws);
    }
  }

  /** Trimming adds no character: a character absent from `s` is absent
      from its trim. */
  lemma TrimKeepsOut(s: string, ws: set<char>, c: char)
    requires c !in s
    ensures c !in Trim(s, ws)
  {
    var r := Trim(s, ws);
    TrimMargins(s, ws);
    var lo :| Margins(s, r, lo, ws);
    assert forall k :: 0 <= k < |r| ==> r[k] == s[lo + k];
  }

  /** A string already trimmed is left alone. */
  lemma TrimOfTrimmed(s: string, ws: set<char>)
    requires IsTrimmed(s, ws)
    ensures Trim(s, ws) == s
  {
  }

  /** The pieces of `s` between occurrences of `sep`, as .NET's
      `String.Split(sep)`: always at least one piece, empty pieces kept. */
  function Split(s: string, sep: char): (r: seq<string>)
    ensures |r| >= 1
    ensures forall i :: 0 <= i < |r| ==> sep !in r[i]
  {
    if |s| == 0 then
      [""]
    else
      var rest := Split(s[1..], sep);
      if s[0] == sep then [""] + rest
      else [[s[0]] + rest[0]] + rest[1..]
  }

  /** The pieces joined with `sep` between each two neighbours
      (.NET's `String.Join`). */
  function Join(parts: seq<string>, sep: char): string {
    if |parts| == 0 then ""
    else if |parts| == 1 then parts[0]
    else parts[0] + [sep] + Join(parts[1..], sep)
  }

  /** Splitting loses nothing: joining the pieces back gives the input. */
  lemma {:induction false} JoinSplit(s: string, sep: char)
    ensures Join(Split(s, sep), sep) == s
  {
    if |s| > 0 {
      var rest := Split(s[1..], sep);
      JoinSplit(s[1..], sep);
      if s[0] == sep {
        assert s == [s[0]] + s[1..];
      } else {
        assert s == [s[0]] + s[1..];
        if |rest| > 1 {
          assert rest == [rest[0]] + rest[1..];
          assert Join(rest, sep) == rest[0] + [sep] + Join(rest[1..], sep);
        }
      }
    }
  }

  /** Splitting undoes joining, provided no piece contains the separator. */
  lemma {:induction false} SplitJoin(parts: seq<string>, sep: char)
    requires |parts| >= 1
    requires forall i :: 0 <= i < |parts| ==> sep !in parts[i]
    ensures Split(Join(parts, sep), sep) == parts
    decreases |parts|, |parts[0]|
  {
    var p := parts[0];
    if |p| == 0 {
      if |parts| > 1 {
        SplitJoin(parts[1..], sep);
        var s := Join(parts, sep);
        assert s == [sep] + Join(parts[1..], sep);
        assert s[1..] == Join(parts[1..], sep);
        assert parts == [""] + parts[1..];
      }
    } else {
      var s := Join(parts, sep);
      var shorter := [p[1..]] + parts[1..];
      assert shorter[1..] == parts[1..];
      assert forall i :: 0 <= i < |shorter| ==> sep !in shorter[i] by {
        forall i | 0 <= i < |shorter| ensures sep !in shorter[i] {
          if i == 0 {
            assert forall j :: 0 <= j < |p[1..]| ==> p[1..][j] == p[j + 1];
          }
        }
      }
      SplitJoin(shorter, sep);
      if |parts| == 1 {
        assert s[1..] == Join(shorter, sep);
      } else {
        assert s == p + [sep] + Join(parts[1..], sep);
        assert s[1..] == p[1..] + [sep] + Join(parts[1..], sep);
        assert s[1..] == Join(shorter, sep);
      }
      assert s[0] == p[0] && p[0] != sep;
      var rest := Split(s[1..], sep);
      assert rest == shorter;
      assert [p[0]] + p[1..] == p;
      assert parts == [p] + parts[1..];
    }
  }

  /** There is one more piece than there are separators in `s`. */
  lemma {:induction false} SplitCount(s: string, sep: char)
    ensures |Split(s, sep)| == multiset(s)[sep] + 1
  {
    if |s| > 0 {
      SplitCount(s[1..], sep);
      assert s == [s[0]] + s[1..];
      assert multiset(s) == multiset{s[0]} + multiset(s[1..]);
    }
  }

  /** `s` splits into two or more pieces exactly when it holds the separator. */
  lemma SplitIntoSeveral(s: string, sep: char)
    ensures |Split(s, sep)| >= 2 <==> sep in s
  {
    SplitCount(s, sep);
  }

  /** Ordinal `String.StartsWith(prefix)`. */
  predicate StartsWith(s: string, prefix: string) {
    |prefix| <= |s| && s[..|prefix|] == prefix
  }

  /** `s` starts with `prefix` exactly when it is `prefix` followed by the
      rest of `s`. */
  lemma StartsWithIsPrefix(s: string, prefix: string)
    ensures StartsWith(s, prefix) <==> |prefix| <= |s| && s == prefix + s[|prefix|..]
  {
    if |prefix| <= |s| && s == prefix + s[|prefix|..] {
      assert s[..|prefix|] == prefix;
    }
  }

  /** Every extension of `prefix` starts with it. */
  lemma StartsWithConcat(prefix: string, rest: string)
    ensures StartsWith(prefix + rest, prefix)
  {
    assert (prefix + rest)[..|prefix|] == prefix;
  }
}
