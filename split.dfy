/**
 * StringFuncs::split (string.cpp): cut a string at every occurrence of a
 * delimiter character.  The loop reads the C string, so position |s| holds
 * the terminating '\0'; a '\0' delimiter therefore also stops there, which
 * gives the same pieces as any other delimiter that is not found.
 */
module Strings {
  /** cstr[k]: the characters of s followed by the terminator. */
  function CharAt(s: string, k: nat): (ch: char)
    requires k <= |s|
    ensures k < |s| ==> ch == s[k]
    ensures k == |s| ==> ch == '\0'
  {
    if k < |s| then s[k] else '\0'
  }

  /** The position of the first delim in s, or |s| when there is none. */
  function IndexOf(s: string, delim: char): (k: nat)
    ensures k <= |s|
    ensures k < |s| ==> s[k] == delim
    ensures forall j | 0 <= j < k :: s[j] != delim
  {
    if |s| == 0 then 0
    else if s[0] == delim then 0
    else 1 + IndexOf(s[1..], delim)
  }

  /** The pieces between delimiters, left to right. */
  function Pieces(s: string, delim: char): (ps: seq<string>)
    ensures |ps| >= 1
    decreases |s|
  {
    var k := IndexOf(s, delim);
    if k == |s| then [s] else [s[..k]] + Pieces(s[k + 1..], delim)
  }

  /** The pieces glued back together with delim between neighbours. */
  function Join(ps: seq<string>, delim: char): string
  {
    if |ps| == 0 then ""
    else if |ps| == 1 then ps[0]
    else ps[0] + [delim] + Join(ps[1..], delim)
  }

  /** The number of positions of s that hold delim. */
  function Occurrences(s: string, delim: char): nat
  {
    if |s| == 0 then 0
    else (if s[0] == delim then 1 else 0) + Occurrences(s[1..], delim)
  }

  /**
   * split: the inner loop advances `end` to the next delimiter, or one past
   * the terminator; the outer loop pushes s.substr(start, end - start)
   * (clamped to the string, as std::string::substr does) and restarts just
   * after the delimiter.
   */
  method Split(s: string, delim: char) returns (elems: seq<string>)
    ensures elems == Pieces(s, delim)
  {
    elems := [];
    assert s[0..] == s;
    var start: nat := 0;
    var end: nat := 0;
    while end <= |s|
      invariant end == start && start <= |s| + 2
      invariant SplitSoFar(s, delim, elems, start)
      decreases |s| + 2 - start
    {
      while end <= |s|
        invariant start <= end <= |s| + 1
        invariant forall j | start <= j < end && j < |s| :: s[j] != delim
        decreases |s| + 1 - end
      {
        if CharAt(s, end) == delim {
          break;
        }
        end := end + 1;
      }
      var stop := if end <= |s| then end else |s|;
      PushPiece(s, delim, elems, start, end, stop);
      elems := elems + [s[start..stop]];
      start := end + 1;
      end := start;
    }
  }

  /**
   * The loop's progress: `elems` followed by the pieces of what is left from
   * `start` are the pieces of s, and once start is past the terminator
   * nothing is left.
   */
  ghost predicate SplitSoFar(s: string, delim: char, elems: seq<string>, start: nat)
  {
    if start <= |s| then elems + Pieces(s[start..], delim) == Pieces(s, delim)
    else elems == Pieces(s, delim)
  }

  /** One round of the outer loop keeps `elems` a prefix of the pieces of s. */
  lemma PushPiece(s: string, delim: char, elems: seq<string>, start: nat, end: nat, stop: nat)
    requires start <= |s| && SplitSoFar(s, delim, elems, start)
    requires start <= end <= |s| + 1 && stop == (if end <= |s| then end else |s|)
    requires forall j | start <= j < end && j < |s| :: s[j] != delim
    requires end <= |s| ==> CharAt(s, end) == delim
    ensures SplitSoFar(s, delim, elems + [s[start..stop]], end + 1)
  {
    if end < |s| {
      PushInner(s, delim, elems, start, end);
    } else {
      PushLast(s, delim, elems, start, stop);
    }
  }

  lemma PushInner(s: string, delim: char, elems: seq<string>, start: nat, end: nat)
    requires start <= end < |s| && elems + Pieces(s[start..], delim) == Pieces(s, delim)
    requires forall j | start <= j < end :: s[j] != delim
    requires s[end] == delim
    ensures elems + [s[start..end]] + Pieces(s[end + 1..], delim) == Pieces(s, delim)
  {
    var piece := s[start..end];
    var rest := Pieces(s[end + 1..], delim);
    assert Pieces(s[start..], delim) == [piece] + rest by {
      PieceAt(s, delim, start, end);
    }
    assert elems + [piece] + rest == elems + ([piece] + rest);
  }

  lemma PushLast(s: string, delim: char, elems: seq<string>, start: nat, stop: nat)
    requires start <= stop == |s| && elems + Pieces(s[start..], delim) == Pieces(s, delim)
    requires forall j | start <= j < stop :: s[j] != delim
    ensures elems + [s[start..stop]] == Pieces(s, delim)
  {
    PieceAt(s, delim, start, stop);
  }

  /**
   * The first piece of s[start..]: it ends at `stop`, either at a delimiter
   * or at the end of s when none is left.
   */
  lemma PieceAt(s: string, delim: char, start: nat, stop: nat)
    requires start <= stop <= |s|
    requires forall j | start <= j < stop :: s[j] != delim
    requires stop < |s| ==> s[stop] == delim
    ensures stop < |s| ==> Pieces(s[start..], delim) == [s[start..stop]] + Pieces(s[stop + 1..], delim)
    ensures stop == |s| ==> Pieces(s[start..], delim) == [s[start..stop]]
  {
    var t := s[start..];
    FirstIndex(t, delim, stop - start);
    if stop < |s| {
      assert t[..stop - start] == s[start..stop];
      assert t[stop - start + 1..] == s[stop + 1..];
    } else {
      assert t == s[start..stop];
    }
  }

  /** IndexOf is the only position with no delim before it that holds delim or is the end. */
  lemma {:induction false} FirstIndex(s: string, delim: char, k: nat)
    requires k <= |s| && forall j | 0 <= j < k :: s[j] != delim
    requires k < |s| ==> s[k] == delim
    ensures IndexOf(s, delim) == k
  {
    if k > 0 {
      FirstIndex(s[1..], delim, k - 1);
    }
  }

  /** Joining the pieces with delim gives back s. */
  lemma {:induction false} JoinPieces(s: string, delim: char)
    ensures Join(Pieces(s, delim), delim) == s
    decreases |s|
  {
    var k := IndexOf(s, delim);
    if k < |s| {
      var rest := Pieces(s[k + 1..], delim);
      JoinPieces(s[k + 1..], delim);
      assert Pieces(s, delim) == [s[..k]] + rest;
      assert ([s[..k]] + rest)[1..] == rest;
      assert s == s[..k] + [delim] + s[k + 1..];
    }
  }

  /** No piece contains the delimiter. */
  lemma {:induction false} PiecesHaveNoDelim(s: string, delim: char)
    ensures forall p | p in Pieces(s, delim) :: delim !in p
    decreases |s|
  {
    var k := IndexOf(s, delim);
    if k < |s| {
      PiecesHaveNoDelim(s[k + 1..], delim);
      forall p | p in Pieces(s, delim)
        ensures delim !in p
      {
        if p != s[..k] {
          assert p in Pieces(s[k + 1..], delim);
        }
      }
    }
  }

  /** There is one piece more than there are delimiters. */
  lemma {:induction false} PieceCount(s: string, delim: char)
    ensures |Pieces(s, delim)| == Occurrences(s, delim) + 1
    decreases |s|
  {
    var k := IndexOf(s, delim);
    FreeOfDelim(s[..k], delim);
    OccurrencesOfConcat(s[..k], s[k..], delim);
    assert s == s[..k] + s[k..];
    if k < |s| {
      PieceCount(s[k + 1..], delim);
      assert s[k..][1..] == s[k + 1..];
    }
  }

  lemma {:induction false} FreeOfDelim(s: string, delim: char)
    requires forall j | 0 <= j < |s| :: s[j] != delim
    ensures Occurrences(s, delim) == 0
  {
    if |s| > 0 {
      FreeOfDelim(s[1..], delim);
    }
  }

  lemma {:induction false} OccurrencesOfConcat(a: string, b: string, delim: char)
    ensures Occurrences(a + b, delim) == Occurrences(a, delim) + Occurrences(b, delim)
  {
    if |a| > 0 {
      OccurrencesOfConcat(a[1..], b, delim);
      assert (a + b)[1..] == a[1..] + b;
    } else {
      assert a + b == b;
    }
  }

  /** The empty string splits into one empty piece. */
  lemma EmptySplit(delim: char)
    ensures Pieces("", delim) == [""]
  {
  }

  /** A delimiter at the start or end of s gives an empty first or last piece. */
  lemma {:induction false} EdgeDelimiters(s: string, delim: char)
    requires |s| > 0
    ensures s[0] == delim ==> Pieces(s, delim)[0] == ""
    ensures s[|s| - 1] == delim ==> Pieces(s, delim)[|Pieces(s, delim)| - 1] == ""
    decreases |s|
  {
    var k := IndexOf(s, delim);
    if s[|s| - 1] == delim {
      assert k < |s|;
      var t := s[k + 1..];
      if |t| == 0 {
        assert Pieces(t, delim) == [""];
      } else {
        assert t[|t| - 1] == delim;
        EdgeDelimiters(t, delim);
      }
    }
  }

  /** Two adjacent delimiters give an empty piece between them. */
  lemma {:induction false} AdjacentDelimiters(s: string, delim: char)
    requires |s| >= 2 && s[0] == delim && s[1] == delim
    ensures Pieces(s, delim)[1] == ""
  {
    assert IndexOf(s, delim) == 0;
    assert IndexOf(s[1..], delim) == 0;
  }
}
