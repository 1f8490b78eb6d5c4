/** The parts of Go's `strings` and `fmt` packages that the plugin relies on: `Split` on a
    one-character separator, `Replace` with n = -1, and `%d`; and `Join`, the specification
    partner of both (splitting undoes it, and replacing a separator re-joins with another). */
module Strings {

  /** `strings.Split(s, string(sep))`: the pieces of `s` between occurrences of `sep`.
      The empty string splits into one empty piece, and no piece is ever dropped. */
  function Split(s: string, sep: char): (parts: seq<string>)
    ensures |parts| >= 1
    ensures forall i :: 0 <= i < |parts| ==> sep !in parts[i]
    decreases |s|
  {
    if s == [] then [[]]
    else
      var rest := Split(s[1..], sep);
      if s[0] == sep then [[]] + rest
      else [[s[0]] + rest[0]] + rest[1..]
  }

  /** The pieces with `sep` between consecutive ones (as `strings.Join` would give). */
  function Join(parts: seq<string>, sep: string): string
  {
    if |parts| == 0 then []
    else if |parts| == 1 then parts[0]
    else parts[0] + sep + Join(parts[1..], sep)
  }

  /** Joining the pieces of a split gives back the original string. */
  lemma {:induction false} JoinSplit(s: string, sep: char)
    ensures Join(Split(s, sep), [sep]) == s
    decreases |s|
  {
    if s != [] {
      var rest := Split(s[1..], sep);
      JoinSplit(s[1..], sep);
      if s[0] == sep {
        assert Split(s, sep) == [[]] + rest;
      } else {
        var parts := Split(s, sep);
        assert parts == [[s[0]] + rest[0]] + rest[1..];
        if |rest| == 1 {
          assert Join(parts, [sep]) == [s[0]] + rest[0];
        } else {
          assert parts[1..] == rest[1..];
          assert Join(rest, [sep]) == rest[0] + [sep] + Join(rest[1..], [sep]);
        }
      }
    }
  }

  /** Splitting a string that starts with a separator-free prefix `p`: `p` is glued to the first piece. */
  lemma {:induction false} SplitPrefix(p: string, t: string, sep: char)
    requires sep !in p
    ensures Split(p + t, sep) == [p + Split(t, sep)[0]] + Split(t, sep)[1..]
    decreases |p|
  {
    var parts := Split(t, sep);
    if p != [] {
      SplitPrefix(p[1..], t, sep);
      assert (p + t)[1..] == p[1..] + t;
      var rest := Split(p[1..] + t, sep);
      assert rest == [p[1..] + parts[0]] + parts[1..];
      assert Split(p + t, sep) == [[p[0]] + rest[0]] + rest[1..];
      assert [p[0]] + (p[1..] + parts[0]) == p + parts[0];
      assert rest[1..] == parts[1..];
    } else {
      assert p + t == t;
      assert parts == [parts[0]] + parts[1..];
      assert p + parts[0] == parts[0];
    }
  }

  /** Splitting the join of non-empty, separator-free pieces gives back the pieces. */
  lemma {:induction false} SplitJoin(parts: seq<string>, sep: char)
    requires |parts| >= 1
    requires forall i :: 0 <= i < |parts| ==> sep !in parts[i]
    ensures Split(Join(parts, [sep]), sep) == parts
    decreases |parts|
  {
    if |parts| == 1 {
      SplitPrefix(parts[0], [], sep);
      assert parts[0] + [] == parts[0];
    } else {
      var tail := Join(parts[1..], [sep]);
      SplitJoin(parts[1..], sep);
      SplitPrefix(parts[0], [sep] + tail, sep);
      assert parts[0] + [sep] + tail == parts[0] + ([sep] + tail);
      assert Split([sep] + tail, sep) == [[]] + Split(tail, sep) by {
        assert ([sep] + tail)[1..] == tail;
      }
      assert parts[0] + [] == parts[0];
      assert [parts[0]] + parts[1..] == parts;
    }
  }

  /** `pat` occurs in `s` starting at index `i`. */
  ghost predicate MatchAt(s: string, pat: string, i: int)
  {
    0 <= i && i + |pat| <= |s| && s[i..i + |pat|] == pat
  }

  /** `strings.Contains(s, pat)`. */
  ghost predicate Occurs(s: string, pat: string)
  {
    exists i :: MatchAt(s, pat, i)
  }

  /** `strings.Replace(s, pat, rep, -1)` for a non-empty `pat`: every non-overlapping occurrence
      of `pat`, found left to right, is replaced by `rep`. */
  function ReplaceAll(s: string, pat: string, rep: string): (r: string)
    requires |pat| > 0
    ensures pat[0] !in s ==> r == s
    ensures |rep| == |pat| ==> |r| == |s|
    decreases |s|
  {
    if |s| < |pat| then s
    else if s[..|pat|] == pat then rep + ReplaceAll(s[|pat|..], pat, rep)
    else [s[0]] + ReplaceAll(s[1..], pat, rep)
  }

  /** A string without an occurrence of `pat` comes back unchanged. */
  lemma {:induction false} ReplaceAllAbsent(s: string, pat: string, rep: string)
    requires |pat| > 0
    requires !Occurs(s, pat)
    ensures ReplaceAll(s, pat, rep) == s
    decreases |s|
  {
    if |s| >= |pat| {
      assert !MatchAt(s, pat, 0);
      assert s[0..|pat|] == s[..|pat|];
      forall i | MatchAt(s[1..], pat, i) ensures MatchAt(s, pat, i + 1) {
        assert s[1..][i..i + |pat|] == s[i + 1..i + 1 + |pat|];
      }
      ReplaceAllAbsent(s[1..], pat, rep);
      assert [s[0]] + s[1..] == s;
    }
  }

  /** A prefix that does not contain the first character of `pat` is copied unchanged. */
  lemma {:induction false} ReplaceAllSkipsPrefix(p: string, t: string, pat: string, rep: string)
    requires |pat| > 0
    requires pat[0] !in p
    ensures ReplaceAll(p + t, pat, rep) == p + ReplaceAll(t, pat, rep)
    decreases |p|
  {
    if p != [] {
      var s := p + t;
      if |s| < |pat| {
        assert ReplaceAll(t, pat, rep) == t;
      } else {
        assert s[..|pat|][0] == p[0];
        assert s[1..] == p[1..] + t;
        ReplaceAllSkipsPrefix(p[1..], t, pat, rep);
        assert [p[0]] + (p[1..] + ReplaceAll(t, pat, rep)) == p + ReplaceAll(t, pat, rep);
      }
    } else {
      assert p + t == t;
    }
  }

  /** An occurrence of `pat` at the front is replaced by `rep`. */
  lemma ReplaceAllAtHead(t: string, pat: string, rep: string)
    requires |pat| > 0
    ensures ReplaceAll(pat + t, pat, rep) == rep + ReplaceAll(t, pat, rep)
  {
    assert (pat + t)[..|pat|] == pat;
    assert (pat + t)[|pat|..] == t;
  }

  /** A string in which the character `c` never appears contains no occurrence of a pattern starting with `c`. */
  lemma AbsentWithoutFirstChar(s: string, pat: string)
    requires |pat| > 0 && pat[0] !in s
    ensures !Occurs(s, pat)
  {
    forall i | 0 <= i ensures !MatchAt(s, pat, i) {
      if i + |pat| <= |s| {
        assert s[i..i + |pat|][0] == s[i];
      }
    }
  }

  /** Substituting the one occurrence of `pat` between two parts that do not contain `pat[0]`. */
  lemma ReplaceAllBetween(p: string, t: string, pat: string, rep: string)
    requires |pat| > 0
    requires pat[0] !in p && pat[0] !in t
    ensures ReplaceAll(p + pat + t, pat, rep) == p + rep + t
  {
    assert p + pat + t == p + (pat + t);
    ReplaceAllSkipsPrefix(p, pat + t, pat, rep);
    ReplaceAllAtHead(t, pat, rep);
    AbsentWithoutFirstChar(t, pat);
    ReplaceAllAbsent(t, pat, rep);
  }

  function DecimalDigit(d: nat): char
    requires d < 10
  {
    "0123456789"[d]
  }

  /** The decimal numeral of a natural number, as `%d` prints it. */
  function NatToDecimal(n: nat): (r: string)
    ensures |r| >= 1
    ensures forall i :: 0 <= i < |r| ==> '0' <= r[i] <= '9'
  {
    if n < 10 then [DecimalDigit(n)] else NatToDecimal(n / 10) + [DecimalDigit(n % 10)]
  }

  /** `fmt.Sprintf("%d", n)` for a Go `int`. */
  function IntToDecimal(n: int): string
  {
    if n < 0 then "-" + NatToDecimal(-n) else NatToDecimal(n)
  }

  /** Replacing a separator that only occurs as a separator: the pieces joined by `pat`, with every
      `pat` replaced, are the same pieces joined by `rep`. */
  lemma {:induction false} ReplaceAllJoined(parts: seq<string>, pat: string, rep: string)
    requires |pat| > 0
    requires forall i :: 0 <= i < |parts| ==> pat[0] !in parts[i]
    ensures ReplaceAll(Join(parts, pat), pat, rep) == Join(parts, rep)
    decreases |parts|
  {
    if |parts| == 1 {
      assert ReplaceAll(parts[0], pat, rep) == parts[0];
    } else if |parts| > 1 {
      var tail := Join(parts[1..], pat);
      assert Join(parts, pat) == parts[0] + (pat + tail);
      ReplaceAllSkipsPrefix(parts[0], pat + tail, pat, rep);
      ReplaceAllAtHead(tail, pat, rep);
      ReplaceAllJoined(parts[1..], pat, rep);
      assert Join(parts, rep) == parts[0] + (rep + Join(parts[1..], rep));
    }
  }
}
