/**
 * The few JavaScript string operations the bridge relies on, over `seq<char>`:
 * `startsWith`, `replace` with a string pattern (first occurrence only),
 * `split` on a one-character separator and `join`.
 */
module Strings {

  /** `s.startsWith(prefix)`. */
  predicate StartsWith(s: string, prefix: string) {
    prefix <= s
  }

  /** `pattern` occurs in `s` starting at position `k`. */
  predicate OccursAt(s: string, pattern: string, k: nat)
    requires k <= |s|
  {
    StartsWith(s[k..], pattern)
  }

  /**
   * `s.indexOf(pattern)`: the first position where `pattern` occurs, or
   * `|s| + 1` when it occurs nowhere.
   */
  function FirstOccurrence(s: string, pattern: string): (i: nat)
    ensures i <= |s| + 1
    ensures i <= |s| ==> OccursAt(s, pattern, i)
    ensures forall k :: 0 <= k < i && k <= |s| ==> !OccursAt(s, pattern, k)
  {
    assert s[0..] == s;
    if StartsWith(s, pattern) then 0
    else if |s| == 0 then 1
    else
      var j := FirstOccurrence(s[1..], pattern);
      assert j <= |s[1..]| ==> s[1..][j..] == s[j + 1..];
      assert forall k :: 0 <= k < 1 + j && k <= |s| ==> !OccursAt(s, pattern, k) by {
        forall k | 1 <= k < 1 + j && k <= |s| ensures !OccursAt(s, pattern, k) {
          assert !OccursAt(s[1..], pattern, k - 1);
          assert s[k..] == s[1..][k - 1..];
        }
      }
      1 + j
  }

  /**
   * `s.replace(pattern, replacement)` with a string pattern: only the first
   * occurrence of `pattern` is replaced; with no occurrence `s` is returned.
   */
  function ReplaceFirst(s: string, pattern: string, replacement: string): (r: string)
    ensures (forall k :: 0 <= k <= |s| ==> !OccursAt(s, pattern, k)) ==> r == s
    ensures forall i :: 0 <= i <= |s| && OccursAt(s, pattern, i) && (forall k :: 0 <= k < i ==> !OccursAt(s, pattern, k)) ==>
      i + |pattern| <= |s| && r == s[..i] + replacement + s[i + |pattern|..]
  {
    var i := FirstOccurrence(s, pattern);
    if i <= |s| then s[..i] + replacement + s[i + |pattern|..] else s
  }

  /** Index of the first `c` in `s`, or `|s|` when there is none. */
  function IndexOf(s: string, c: char): (i: nat)
    ensures i <= |s|
    ensures c !in s[..i]
    ensures i < |s| ==> s[i] == c
  {
    if |s| == 0 then 0
    else if s[0] == c then 0
    else 1 + IndexOf(s[1..], c)
  }

  /**
   * `IndexOf` is `FirstOccurrence` for a one-character pattern, with the
   * not-found position moved from `|s| + 1` to `|s|`.
   */
  lemma IndexOfFirstOccurrence(s: string, c: char)
    ensures IndexOf(s, c) == if FirstOccurrence(s, [c]) <= |s| then FirstOccurrence(s, [c]) else |s|
  {
    var i, j := IndexOf(s, c), FirstOccurrence(s, [c]);
    assert i < |s| ==> s[i..][..1] == [c];
    assert j <= |s| ==> s[j..][..1] == [c] && s[j] == c;
  }

  /**
   * `s.split(sep)` for a one-character separator: the maximal runs between
   * separators, in order; the empty string splits into one empty piece.
   */
  function Split(s: string, sep: char): (pieces: seq<string>)
    ensures |pieces| >= 1
    ensures forall k :: 0 <= k < |pieces| ==> sep !in pieces[k]
  {
    if |s| == 0 then [""]
    else
      var rest := Split(s[1..], sep);
      if s[0] == sep then [""] + rest
      else [[s[0]] + rest[0]] + rest[1..]
  }

  /** `pieces.join(sep)`: the pieces with one separator between neighbours. */
  function Join(pieces: seq<string>, sep: char): string {
    if |pieces| == 0 then ""
    else if |pieces| == 1 then pieces[0]
    else pieces[0] + [sep] + Join(pieces[1..], sep)
  }

  /** Joining the pieces of a split with the same separator gives back the text. */
  lemma {:induction false} JoinSplit(s: string, sep: char)
    ensures Join(Split(s, sep), sep) == s
  {
    if |s| > 0 {
      var rest := Split(s[1..], sep);
      JoinSplit(s[1..], sep);
      if s[0] == sep {
        assert ([""] + rest)[1..] == rest;
        assert s == [sep] + s[1..];
      } else {
        var pieces := [[s[0]] + rest[0]] + rest[1..];
        if |rest| == 1 {
          assert s == [s[0]] + s[1..];
        } else {
          assert pieces[1..] == rest[1..];
          assert Join(rest, sep) == rest[0] + [sep] + Join(rest[1..], sep);
          assert s == [s[0]] + s[1..];
        }
      }
    }
  }

  /**
   * The first piece of a split is the text before the first separator; the
   * other pieces are the split of the text after it.
   */
  lemma {:induction false} SplitAtFirst(s: string, sep: char)
    ensures sep !in s ==> Split(s, sep) == [s]
    ensures sep in s ==> Split(s, sep) == [s[..IndexOf(s, sep)]] + Split(s[IndexOf(s, sep) + 1..], sep)
  {
    if |s| > 0 && s[0] != sep {
      SplitAtFirst(s[1..], sep);
      assert s == [s[0]] + s[1..];
      if sep in s {
        var j := IndexOf(s[1..], sep);
        assert s[1..][..j] == s[1..j + 1];
        assert s[1..][j + 1..] == s[j + 2..];
        assert [s[0]] + s[1..j + 1] == s[..j + 1];
      }
    }
  }

  /** A split has exactly two pieces when the separator occurs exactly once. */
  lemma SplitInTwo(s: string, sep: char)
    ensures var i := IndexOf(s, sep);
      |Split(s, sep)| == 2 <==> i < |s| && sep !in s[i + 1..]
    ensures var i := IndexOf(s, sep);
      i < |s| && sep !in s[i + 1..] ==> Split(s, sep)[1] == s[i + 1..]
  {
    var i := IndexOf(s, sep);
    SplitAtFirst(s, sep);
    if i < |s| {
      assert sep in s;
      SplitAtFirst(s[i + 1..], sep);
    } else {
      assert sep !in s by { assert s[..i] == s; }
    }
  }
}
