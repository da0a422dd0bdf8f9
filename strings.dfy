/** Python's `s.split(c)` for a one-character separator and `sep.join(parts)`, with the two
    round trips that relate them. */
module Strings {

  /** `s.split(c)`: the maximal runs of `s` between occurrences of `c`; never empty. */
  function Split(s: string, c: char): (r: seq<string>)
    ensures |r| >= 1
  {
    if s == [] then [""]
    else if s[0] == c then [""] + Split(s[1..], c)
    else
      var t := Split(s[1..], c);
      [[s[0]] + t[0]] + t[1..]
  }

  /** `sep.join(parts)`. */
  function Join(parts: seq<string>, sep: string): string
  {
    if |parts| == 0 then ""
    else if |parts| == 1 then parts[0]
    else parts[0] + sep + Join(parts[1..], sep)
  }

  /** No piece that `Split` returns contains the separator. */
  lemma {:induction false} SplitPartsFree(s: string, c: char)
    ensures forall k :: 0 <= k < |Split(s, c)| ==> c !in Split(s, c)[k]
  {
    if s != [] {
      SplitPartsFree(s[1..], c);
    }
  }

  /** Every piece that `Split` returns is made of characters of the split string. */
  lemma {:induction false} SplitPartsSub(s: string, c: char)
    ensures forall k, ch :: 0 <= k < |Split(s, c)| && ch in Split(s, c)[k] ==> ch in s
  {
    if s != [] {
      SplitPartsSub(s[1..], c);
      var t := Split(s[1..], c);
      forall k, ch | 0 <= k < |Split(s, c)| && ch in Split(s, c)[k]
        ensures ch in s
      {
        if s[0] == c {
          if k > 0 {
            assert Split(s, c)[k] == t[k - 1];
            assert ch in s[1..];
          }
        } else if k == 0 {
          assert Split(s, c)[0] == [s[0]] + t[0];
          if ch != s[0] {
            assert ch in t[0];
            assert ch in s[1..];
          }
        } else {
          assert Split(s, c)[k] == t[k];
          assert ch in s[1..];
        }
      }
    }
  }

  /** The string has a second piece exactly when it contains the separator. */
  lemma {:induction false} SplitMany(s: string, c: char)
    ensures |Split(s, c)| > 1 <==> c in s
  {
    if s != [] && s[0] != c {
      SplitMany(s[1..], c);
      assert c in s <==> c in s[1..];
    }
  }

  /** The first piece is the part of `s` before the first separator. */
  lemma {:induction false} SplitHead(s: string, c: char)
    ensures var h := Split(s, c)[0];
      h <= s && c !in h && (|h| < |s| ==> s[|h|] == c)
  {
    if s != [] && s[0] != c {
      SplitHead(s[1..], c);
    }
  }

  /** Splitting a string with no separator gives the string itself. */
  lemma {:induction false} SplitFree(s: string, c: char)
    requires c !in s
    ensures Split(s, c) == [s]
  {
    if s != [] {
      SplitFree(s[1..], c);
      assert [s[0]] + s[1..] == s;
    }
  }

  /** A separator-free prefix followed by the separator is split off as the first piece. */
  lemma {:induction false} SplitAt(p: string, c: char, t: string)
    requires c !in p
    ensures Split(p + [c] + t, c) == [p] + Split(t, c)
  {
    if p == [] {
      assert p + [c] + t == [c] + t;
    } else {
      assert (p + [c] + t)[1..] == p[1..] + [c] + t;
      SplitAt(p[1..], c, t);
      assert [p[0]] + p[1..] == p;
    }
  }

  /** Joining the pieces with the separator gives back the original string. */
  lemma {:induction false} JoinSplit(s: string, c: char)
    ensures Join(Split(s, c), [c]) == s
  {
    if s != [] {
      JoinSplit(s[1..], c);
      var t := Split(s[1..], c);
      if s[0] != c && |t| > 1 {
        assert Join(t, [c]) == t[0] + [c] + Join(t[1..], [c]);
        assert Split(s, c)[1..] == t[1..];
      }
    }
  }

  /** Splitting a join of separator-free pieces gives back the pieces. */
  lemma {:induction false} SplitJoin(parts: seq<string>, c: char)
    requires |parts| >= 1
    requires forall k :: 0 <= k < |parts| ==> c !in parts[k]
    ensures Split(Join(parts, [c]), c) == parts
  {
    if |parts| == 1 {
      SplitFree(parts[0], c);
    } else {
      SplitJoin(parts[1..], c);
      SplitAt(parts[0], c, Join(parts[1..], [c]));
    }
  }
}
