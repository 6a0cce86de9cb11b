/**
 * What the queue operations do to the play queue, stated once as functions on
 * sequences. The Yjs thunks (KaraokeThunks) and the Redux reducers
 * (KaraokeSlice) are each proved to compute these functions, so the two
 * implementations agree by construction; the lemmas here are the properties
 * the queue promises.
 */
module QueueSpec {

  import opened Songs

  /** The queue with the neighbouring entries at `j` and `j + 1` exchanged. */
  function SwapAdjacent(q: seq<SongInfo>, j: nat): (r: seq<SongInfo>)
    requires j + 1 < |q|
    ensures |r| == |q|
    ensures r[j] == q[j + 1] && r[j + 1] == q[j]
    ensures forall k :: 0 <= k < |q| && k != j && k != j + 1 ==> r[k] == q[k]
    ensures multiset(r) == multiset(q)
  {
    var r := q[..j] + [q[j + 1], q[j]] + q[j + 2..];
    calc {
      multiset(r);
      multiset(q[..j]) + multiset{q[j + 1], q[j]} + multiset(q[j + 2..]);
      { assert q == q[..j] + [q[j], q[j + 1]] + q[j + 2..]; }
      multiset(q);
    }
    r
  }

  /** Moving entry `i` one place towards the head; out of range (`i <= 0`, `i >= |q|`) it is a no-op. */
  function Promote(q: seq<SongInfo>, i: int): (r: seq<SongInfo>)
    ensures |r| == |q| && multiset(r) == multiset(q)
    ensures 0 < i < |q| ==> r[i - 1] == q[i] && r[i] == q[i - 1]
    ensures forall k :: 0 <= k < |q| && k != i - 1 && k != i ==> r[k] == q[k]
    ensures !(0 < i < |q|) ==> r == q
  {
    if 0 < i < |q| then SwapAdjacent(q, i - 1) else q
  }

  /** Moving entry `i` one place towards the tail; out of range (`i < 0`, `i >= |q| - 1`) it is a no-op. */
  function Demote(q: seq<SongInfo>, i: int): (r: seq<SongInfo>)
    ensures |r| == |q| && multiset(r) == multiset(q)
    ensures 0 <= i < |q| - 1 ==> r[i] == q[i + 1] && r[i + 1] == q[i]
    ensures forall k :: 0 <= k < |q| && k != i && k != i + 1 ==> r[k] == q[k]
    ensures !(0 <= i < |q| - 1) ==> r == q
  {
    if 0 <= i < |q| - 1 then SwapAdjacent(q, i) else q
  }

  /** The queue without entry `i`, order of the rest kept; out of range it is a no-op. */
  function RemoveAt(q: seq<SongInfo>, i: int): (r: seq<SongInfo>)
    ensures 0 <= i < |q| ==> |r| == |q| - 1 && multiset(r) + multiset{q[i]} == multiset(q)
    ensures 0 <= i < |q| ==> forall k :: 0 <= k < |r| ==> r[k] == (if k < i then q[k] else q[k + 1])
    ensures !(0 <= i < |q|) ==> r == q
  {
    if 0 <= i < |q| then
      assert q == q[..i] + [q[i]] + q[i + 1..];
      q[..i] + q[i + 1..]
    else q
  }

  /** Taking entry `i` out and putting it back one place earlier swaps it with its predecessor. */
  lemma ReinsertBefore(q: seq<SongInfo>, i: nat)
    requires 0 < i < |q|
    ensures var rest := q[..i] + q[i + 1..];
            rest[..i - 1] + [q[i]] + rest[i - 1..] == SwapAdjacent(q, i - 1)
  {
    var rest := q[..i] + q[i + 1..];
    assert rest[..i - 1] == q[..i - 1];
    assert rest[i - 1..] == [q[i - 1]] + q[i + 1..];
    assert q[..i - 1] + [q[i]] + ([q[i - 1]] + q[i + 1..]) == q[..i - 1] + [q[i], q[i - 1]] + q[i + 1..];
  }

  /** Taking entry `i` out and putting it back one place later swaps it with its successor. */
  lemma ReinsertAfter(q: seq<SongInfo>, i: nat)
    requires i + 1 < |q|
    ensures var rest := q[..i] + q[i + 1..];
            rest[..i + 1] + [q[i]] + rest[i + 1..] == SwapAdjacent(q, i)
  {
    var rest := q[..i] + q[i + 1..];
    assert rest[..i + 1] == q[..i] + [q[i + 1]];
    assert rest[i + 1..] == q[i + 2..];
    assert q[..i] + [q[i + 1]] + [q[i]] + q[i + 2..] == q[..i] + [q[i + 1], q[i]] + q[i + 2..];
  }

  /** Demoting entry `i` and then promoting entry `i + 1` gives the original queue back. */
  lemma DemoteThenPromote(q: seq<SongInfo>, i: int)
    ensures Promote(Demote(q, i), i + 1) == q
  {
    if 0 <= i < |q| - 1 {
      var d := Demote(q, i);
      var p := Promote(d, i + 1);
      forall k | 0 <= k < |q| ensures p[k] == q[k] {
        if k != i && k != i + 1 {
          assert p[k] == d[k];
        }
      }
    }
  }

  /** Promoting entry `i` is demoting entry `i - 1`, for every integer `i`. */
  lemma PromoteIsDemoteOfPredecessor(q: seq<SongInfo>, i: int)
    ensures Promote(q, i) == Demote(q, i - 1)
  {
  }

  /** Exchanging two neighbours never makes two keys equal. */
  lemma SwapAdjacentKeepsDistinct(q: seq<SongInfo>, j: nat)
    requires j + 1 < |q| && DistinctKeys(q)
    ensures DistinctKeys(SwapAdjacent(q, j))
  {
    var r := SwapAdjacent(q, j);
    // position k of r holds the entry at Source(k) of q, and Source is injective
    forall a, b | 0 <= a < b < |r| ensures r[a].key != r[b].key {
      var sa := if a == j then j + 1 else if a == j + 1 then j else a;
      var sb := if b == j then j + 1 else if b == j + 1 then j else b;
      assert r[a] == q[sa] && r[b] == q[sb] && sa != sb;
    }
  }

  lemma PromoteKeepsDistinct(q: seq<SongInfo>, i: int)
    requires DistinctKeys(q)
    ensures DistinctKeys(Promote(q, i))
  {
    if 0 < i < |q| { SwapAdjacentKeepsDistinct(q, i - 1); }
  }

  lemma DemoteKeepsDistinct(q: seq<SongInfo>, i: int)
    requires DistinctKeys(q)
    ensures DistinctKeys(Demote(q, i))
  {
    if 0 <= i < |q| - 1 { SwapAdjacentKeepsDistinct(q, i); }
  }

  lemma RemoveAtKeepsDistinct(q: seq<SongInfo>, i: int)
    requires DistinctKeys(q)
    ensures DistinctKeys(RemoveAt(q, i))
  {
    if 0 <= i < |q| {
      var r := RemoveAt(q, i);
      forall a, b | 0 <= a < b < |r| ensures r[a].key != r[b].key {
        var sa := if a < i then a else a + 1;
        var sb := if b < i then b else b + 1;
        assert r[a] == q[sa] && r[b] == q[sb] && sa < sb;
      }
    }
  }

  /** Appending a song whose key is not yet queued keeps the keys distinct. */
  lemma AppendNewKeyKeepsDistinct(q: seq<SongInfo>, song: SongInfo)
    requires DistinctKeys(q) && !HasKey(q, song.key)
    ensures DistinctKeys(q + [song])
  {
    var r := q + [song];
    forall a, b | 0 <= a < b < |r| ensures r[a].key != r[b].key {
      if b == |q| {
        assert r[a] == q[a];
      } else {
        assert r[a] == q[a] && r[b] == q[b];
      }
    }
  }

  /** The queue operations a client can issue against the shared queue. */
  datatype QueueOp =
    | AddSong(song: SongInfo)
    | RemoveSong(index: int)
    | PromoteSong(index: int)
    | DemoteSong(index: int)

  /**
   * The queue after one operation. Adding a song whose key is already queued
   * is refused and leaves the queue as it was.
   */
  function ApplyOp(q: seq<SongInfo>, op: QueueOp): seq<SongInfo> {
    match op
    case AddSong(song) => if HasKey(q, song.key) then q else q + [song]
    case RemoveSong(i) => RemoveAt(q, i)
    case PromoteSong(i) => Promote(q, i)
    case DemoteSong(i) => Demote(q, i)
  }

  /** The queue after the operations `ops`, first to last. */
  function ApplyOps(q: seq<SongInfo>, ops: seq<QueueOp>): seq<SongInfo>
    decreases |ops|
  {
    if |ops| == 0 then q else ApplyOps(ApplyOp(q, ops[0]), ops[1..])
  }

  lemma ApplyOpKeepsDistinct(q: seq<SongInfo>, op: QueueOp)
    requires DistinctKeys(q)
    ensures DistinctKeys(ApplyOp(q, op))
  {
    match op
    case AddSong(song) => if !HasKey(q, song.key) { AppendNewKeyKeepsDistinct(q, song); }
    case RemoveSong(i) => RemoveAtKeepsDistinct(q, i);
    case PromoteSong(i) => PromoteKeepsDistinct(q, i);
    case DemoteSong(i) => DemoteKeepsDistinct(q, i);
  }

  /** Any run of queue operations keeps the keys of a duplicate-free queue distinct. */
  lemma {:induction false} ApplyOpsKeepsDistinct(q: seq<SongInfo>, ops: seq<QueueOp>)
    requires DistinctKeys(q)
    ensures DistinctKeys(ApplyOps(q, ops))
    decreases |ops|
  {
    if |ops| > 0 {
      ApplyOpKeepsDistinct(q, ops[0]);
      ApplyOpsKeepsDistinct(ApplyOp(q, ops[0]), ops[1..]);
    }
  }

  /** Starting from the empty queue, no sequence of operations ever queues a key twice. */
  lemma EmptyQueueStaysDistinct(ops: seq<QueueOp>)
    ensures DistinctKeys(ApplyOps([], ops))
  {
    ApplyOpsKeepsDistinct([], ops);
  }
}
