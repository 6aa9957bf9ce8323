/**
 * The substring searches of Go's `strings` package the error parser uses.
 *
 * Strings are sequences of characters here. Go indexes bytes, but every
 * pattern searched for is ASCII, and an ASCII byte never occurs inside a
 * multi-byte UTF-8 sequence, so the matches and the text between them are
 * the same.
 */
module GoStrings {

  /** `sub` occurs in `s` starting at position `i`. */
  predicate OccursAt(s: string, sub: string, i: int)
  {
    0 <= i && i + |sub| <= |s| && s[i..i + |sub|] == sub
  }

  /** The last occurrence of `sub` starting at or before `k`, or -1. */
  function LastIndexUpTo(s: string, sub: string, k: int): (r: int)
    ensures r == -1 || 0 <= r <= k
    ensures r >= 0 ==> OccursAt(s, sub, r)
    ensures forall i :: r < i <= k ==> !OccursAt(s, sub, i)
    decreases k + 1
  {
    if k < 0 then -1
    else if OccursAt(s, sub, k) then k
    else LastIndexUpTo(s, sub, k - 1)
  }

  /** `strings.LastIndex(s, sub)`: where the last occurrence of `sub` starts, or -1 when there is none. */
  function LastIndex(s: string, sub: string): (r: int)
    ensures r == -1 || OccursAt(s, sub, r)
    ensures forall i :: r < i ==> !OccursAt(s, sub, i)
  {
    LastIndexUpTo(s, sub, |s| - |sub|)
  }

  /** `strings.Contains(s, sub)`. */
  function Contains(s: string, sub: string): (b: bool)
    ensures b <==> exists i :: OccursAt(s, sub, i)
  {
    LastIndex(s, sub) >= 0
  }

  lemma SliceAt(s: string, i: int, len: int, j: int)
    requires 0 <= i && i + len <= |s| && 0 <= j < len
    ensures s[i..i + len][j] == s[i + j]
  {
  }

  lemma OccursInMiddle(head: string, sub: string, tail: string)
    ensures OccursAt(head + sub + tail, sub, |head|)
  {
    assert (head + sub + tail)[|head|..|head| + |sub|] == sub;
  }

  /** `sub` does not occur in `head + tail` when `head` lacks its first character and `tail` is too short to hold it. */
  lemma NoOccurrenceShortTail(head: string, tail: string, sub: string)
    requires |tail| < |sub| && sub[0] !in head
    ensures LastIndex(head + tail, sub) == -1 && !Contains(head + tail, sub)
  {
    var s := head + tail;
    forall i ensures !OccursAt(s, sub, i) {
      if 0 <= i && i + |sub| <= |s| {
        SliceAt(s, i, |sub|, 0);
        assert s[i] == head[i];
      }
    }
  }

  /** An occurrence at `k` is the last one when no later position holds the first character of `sub`. */
  lemma LastIndexIs(s: string, sub: string, k: int)
    requires |sub| > 0 && OccursAt(s, sub, k)
    requires forall i :: k < i < |s| ==> s[i] != sub[0]
    ensures LastIndex(s, sub) == k
  {
    forall i | k < i ensures !OccursAt(s, sub, i) {
      if i + |sub| <= |s| {
        SliceAt(s, i, |sub|, 0);
      }
    }
  }

  /** The occurrence just before `tail` is the last one when its first character appears neither later in `sub` nor in `tail`. */
  lemma LastOccurrenceBeforeTail(head: string, sub: string, tail: string)
    requires |sub| > 0 && sub[0] !in sub[1..] && sub[0] !in tail
    ensures LastIndex(head + sub + tail, sub) == |head|
  {
    var s := head + sub + tail;
    assert s[|head|..|head| + |sub|] == sub;
    forall i | |head| < i < |s| ensures s[i] != sub[0] {
      if i < |head| + |sub| {
        assert s[i] == sub[1..][i - |head| - 1];
      } else {
        assert s[i] == tail[i - |head| - |sub|];
      }
    }
    LastIndexIs(s, sub, |head|);
  }

  /** A text missing one of the characters of `sub` does not contain `sub`. */
  lemma MissingCharNoOccurrence(s: string, sub: string, j: int)
    requires 0 <= j < |sub| && sub[j] !in s
    ensures LastIndex(s, sub) == -1 && !Contains(s, sub)
  {
    forall i ensures !OccursAt(s, sub, i) {
      if 0 <= i && i + |sub| <= |s| {
        SliceAt(s, i, |sub|, j);
      }
    }
  }
}
