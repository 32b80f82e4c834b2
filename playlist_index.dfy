/** The index arithmetic of `nextSong` and `previousSong`. The index is never
    negative and the operands of `%` are never negative, so Swift's
    truncating remainder and Dafny's Euclidean one agree here. */
module PlaylistIndex {

  /** `(currentSongIndex + 1) % songs.count`. */
  function NextIndex(i: nat, count: nat): (r: nat)
    requires count > 0
    ensures r < count
  {
    (i + 1) % count
  }

  /** `(currentSongIndex - 1 + songs.count) % songs.count`. */
  function PreviousIndex(i: nat, count: nat): (r: nat)
    requires count > 0
    ensures r < count
  {
    (i - 1 + count) % count
  }

  /** For an index in range, the next one steps up by one and wraps from the
      last position back to 0. */
  lemma NextIndexInRange(i: nat, count: nat)
    requires i < count
    ensures NextIndex(i, count) == if i + 1 == count then 0 else i + 1
  {
  }

  /** For an index in range, the previous one steps down by one and wraps
      from 0 to the last position. */
  lemma PreviousIndexInRange(i: nat, count: nat)
    requires i < count
    ensures PreviousIndex(i, count) == if i == 0 then count - 1 else i - 1
  {
    if i > 0 {
      assert i - 1 + count == (i - 1) + count * 1;
    }
  }

  /** `previousSong` undoes `nextSong` on an index in range. */
  lemma PreviousAfterNext(i: nat, count: nat)
    requires i < count
    ensures PreviousIndex(NextIndex(i, count), count) == i
  {
    NextIndexInRange(i, count);
    PreviousIndexInRange(NextIndex(i, count), count);
  }

  /** `nextSong` undoes `previousSong` on an index in range. */
  lemma NextAfterPrevious(i: nat, count: nat)
    requires i < count
    ensures NextIndex(PreviousIndex(i, count), count) == i
  {
    PreviousIndexInRange(i, count);
    NextIndexInRange(PreviousIndex(i, count), count);
  }

  /** The index after `k` calls of `nextSong`. */
  function NextIndexTimes(i: nat, count: nat, k: nat): nat
    requires count > 0
  {
    if k == 0 then i else NextIndex(NextIndexTimes(i, count, k - 1), count)
  }

  /** From an index in range, `k` steps forward land `k` places further on,
      counted modulo the list length (for `k` up to one full turn). */
  lemma {:induction false} NextIndexTimesAdvances(i: nat, count: nat, k: nat)
    requires i < count && k <= count
    ensures NextIndexTimes(i, count, k) == if i + k < count then i + k else i + k - count
  {
    if k > 0 {
      NextIndexTimesAdvances(i, count, k - 1);
      NextIndexInRange(NextIndexTimes(i, count, k - 1), count);
    }
  }

  /** A full turn of `count` calls of `nextSong` comes back to the start. */
  lemma NextIndexFullTurn(i: nat, count: nat)
    requires i < count
    ensures NextIndexTimes(i, count, count) == i
  {
    NextIndexTimesAdvances(i, count, count);
  }
}
