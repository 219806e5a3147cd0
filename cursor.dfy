/** The polling cursor (`Offset`) of the getUpdates method: how one poll moves it, and
    what a run of polls retrieves when the server honours the cursor. Both copies of the
    client move the cursor by the same rule, `Advance`. */
module Cursor {
  import opened Api

  /** Go's `x + 1` on a 64-bit `int`: two's complement wrap-around. */
  function Inc(x: int64): (r: int64)
    ensures x < MaxInt64 ==> r as int == x as int + 1
    ensures x == MaxInt64 ==> r == MinInt64
  {
    ((x as int + 1 + 0x8000_0000_0000_0000) % 0x1_0000_0000_0000_0000 - 0x8000_0000_0000_0000) as int64
  }

  /** The cursor after a poll whose outcome is `r`, starting from `offset`: one past the
      identifier of the LAST update of a successful non-empty batch, else unchanged. */
  function Advance(offset: int64, r: Result<seq<Update>>): (next: int64)
    ensures r.Err? || r.value == [] ==> next == offset
    ensures r.Ok? && r.value != [] ==> next == Inc(r.value[|r.value| - 1].updateId)
  {
    match r
    case Err(_) => offset
    case Ok(batch) => if |batch| > 0 then Inc(batch[|batch| - 1].updateId) else offset
  }

  /** Identifiers strictly increase along the batch. */
  predicate Ascending(batch: seq<Update>) {
    forall i, j | 0 <= i < j < |batch| :: batch[i].updateId < batch[j].updateId
  }

  /** Every identifier of the batch lies in [lo, hi). */
  predicate Within(batch: seq<Update>, lo: int, hi: int) {
    forall i | 0 <= i < |batch| :: lo <= batch[i].updateId as int < hi
  }

  /** The largest identifier of a non-empty batch, whatever its order. */
  function MaxId(batch: seq<Update>): (m: int64)
    requires |batch| > 0
    ensures exists i | 0 <= i < |batch| :: batch[i].updateId == m
    ensures forall i | 0 <= i < |batch| :: batch[i].updateId <= m
  {
    if |batch| == 1 then batch[0].updateId
    else
      var rest := MaxId(batch[1..]);
      if batch[0].updateId < rest then rest else batch[0].updateId
  }

  /** When the server sends a batch in ascending order, the last identifier is the
      largest, so the cursor rule agrees with "one past the maximum". */
  lemma LastIsMaxWhenAscending(batch: seq<Update>)
    requires |batch| > 0 && Ascending(batch)
    ensures batch[|batch| - 1].updateId == MaxId(batch)
  {
  }

  /** Without that order the rule takes the last identifier, not the largest: after
      a batch [9, 5] the cursor is 6, so update 9, already returned, is not acknowledged
      and comes back on the next poll. */
  lemma LastIsNotMaxInGeneral()
    ensures var batch := [Update(9), Update(5)];
            Advance(0, Ok(batch)) == 6 && MaxId(batch) == 9
  {
  }

  /** Nor does the rule keep the cursor monotone: a batch with a smaller identifier
      moves it backwards, and an identifier at MaxInt64 wraps it to MinInt64. */
  lemma CursorCanMoveBackwards()
    ensures Advance(10, Ok([Update(3)])) == 4
    ensures Advance(10, Ok([Update(MaxInt64)])) == MinInt64
  {
  }

  /** The updates returned by a run of polls, in the order they were returned. */
  function Retrieved(polls: seq<Result<seq<Update>>>): (s: seq<Update>)
  {
    if polls == [] then []
    else (if polls[0].Ok? then polls[0].value else []) + Retrieved(polls[1..])
  }

  /** The cursor after a run of polls started at `offset`. */
  function CursorAfter(offset: int64, polls: seq<Result<seq<Update>>>): (c: int64)
    decreases |polls|
  {
    if polls == [] then offset else CursorAfter(Advance(offset, polls[0]), polls[1..])
  }

  /** The server's side of the protocol: each successful batch is in ascending order,
      holds only updates at or past the cursor it was asked with, and stays below
      MaxInt64 (so that `UpdateID + 1` does not wrap). */
  predicate ServerHonours(offset: int64, polls: seq<Result<seq<Update>>>)
    decreases |polls|
  {
    polls == [] ||
    ((polls[0].Ok? ==> Ascending(polls[0].value) && Within(polls[0].value, offset as int, MaxInt64 as int))
     && ServerHonours(Advance(offset, polls[0]), polls[1..]))
  }

  lemma AscendingConcat(a: seq<Update>, b: seq<Update>, mid: int)
    requires Ascending(a) && Ascending(b)
    requires forall i | 0 <= i < |a| :: a[i].updateId as int < mid
    requires forall i | 0 <= i < |b| :: mid <= b[i].updateId as int
    ensures Ascending(a + b)
  {
  }

  /** One successful poll the server honours: the cursor does not move back and it
      passes every update of the batch. */
  lemma AdvancePassesBatch(offset: int64, r: Result<seq<Update>>)
    requires r.Ok? ==> Ascending(r.value) && Within(r.value, offset as int, MaxInt64 as int)
    ensures offset <= Advance(offset, r)
    ensures r.Ok? ==> Within(r.value, offset as int, Advance(offset, r) as int)
  {
  }

  /** At-most-once retrieval: across any run of polls the server honours, the updates
      returned are in strictly increasing order (so none is returned twice), every one
      is at or past the starting cursor and below the final cursor, and the cursor
      never moves back. */
  lemma {:induction false} AtMostOnce(offset: int64, polls: seq<Result<seq<Update>>>)
    requires ServerHonours(offset, polls)
    ensures offset <= CursorAfter(offset, polls)
    ensures Ascending(Retrieved(polls))
    ensures Within(Retrieved(polls), offset as int, CursorAfter(offset, polls) as int)
    decreases |polls|
  {
    if polls != [] {
      var next := Advance(offset, polls[0]);
      var first := if polls[0].Ok? then polls[0].value else [];
      AdvancePassesBatch(offset, polls[0]);
      AtMostOnce(next, polls[1..]);
      var rest := Retrieved(polls[1..]);
      AscendingConcat(first, rest, next as int);
      assert Retrieved(polls) == first + rest;
      var all := first + rest;
      forall i | 0 <= i < |all|
        ensures offset as int <= all[i].updateId as int < CursorAfter(offset, polls) as int
      {
        if i >= |first| {
          assert all[i] == rest[i - |first|];
        }
      }
    }
  }

  /** The updates of the server's queue at or past `offset`, in queue order: what a
      getUpdates request with that offset may return. */
  function Pending(queue: seq<Update>, offset: int): (p: seq<Update>)
    ensures forall i | 0 <= i < |p| :: p[i] in queue && offset <= p[i].updateId as int
    ensures forall i | 0 <= i < |queue| && offset <= queue[i].updateId as int :: queue[i] in p
  {
    if queue == [] then []
    else (if offset <= queue[0].updateId as int then [queue[0]] else []) + Pending(queue[1..], offset)
  }

  lemma {:induction false} PendingAscending(queue: seq<Update>, offset: int)
    requires Ascending(queue)
    ensures Ascending(Pending(queue, offset))
    decreases |queue|
  {
    if queue != [] {
      PendingAscending(queue[1..], offset);
      var head := if offset <= queue[0].updateId as int then [queue[0]] else [];
      var rest := Pending(queue[1..], offset);
      forall i | 0 <= i < |rest| ensures queue[0].updateId as int + 1 <= rest[i].updateId as int {
        var k :| 0 <= k < |queue[1..]| && queue[1..][k] == rest[i];
        assert queue[k + 1] == rest[i];
      }
      AscendingConcat(head, rest, queue[0].updateId as int + 1);
    }
  }

  predicate IsPrefix(a: seq<Update>, b: seq<Update>) {
    |a| <= |b| && a == b[..|a|]
  }

  /** The server answers every successful poll with a leading part (possibly all, possibly
      none) of the updates of its queue at or past the requested cursor. */
  predicate ServerServes(queue: seq<Update>, offset: int64, polls: seq<Result<seq<Update>>>)
    decreases |polls|
  {
    polls == [] ||
    ((polls[0].Ok? ==> IsPrefix(polls[0].value, Pending(queue, offset as int)))
     && ServerServes(queue, Advance(offset, polls[0]), polls[1..]))
  }

  /** A queue the server can serve without the cursor wrapping: ascending identifiers,
      all below MaxInt64. */
  predicate WellFormedQueue(queue: seq<Update>) {
    Ascending(queue) && Within(queue, MinInt64 as int, MaxInt64 as int)
  }

  lemma {:induction false} ServesImpliesHonours(queue: seq<Update>, offset: int64,
                                                polls: seq<Result<seq<Update>>>)
    requires WellFormedQueue(queue) && ServerServes(queue, offset, polls)
    ensures ServerHonours(offset, polls)
    decreases |polls|
  {
    if polls != [] {
      if polls[0].Ok? {
        var pending := Pending(queue, offset as int);
        PendingAscending(queue, offset as int);
        var b := polls[0].value;
        forall i | 0 <= i < |b| ensures offset as int <= b[i].updateId as int < MaxInt64 as int {
          assert b[i] == pending[i];
          var k :| 0 <= k < |queue| && queue[k] == pending[i];
        }
      }
      ServesImpliesHonours(queue, Advance(offset, polls[0]), polls[1..]);
    }
  }

  /** Every update of the queue in [offset, Advance(offset, r)) is in the batch `r`. */
  lemma BatchCoversAdvance(queue: seq<Update>, offset: int64, r: Result<seq<Update>>, u: Update)
    requires WellFormedQueue(queue)
    requires r.Ok? ==> IsPrefix(r.value, Pending(queue, offset as int))
    requires u in queue && offset as int <= u.updateId as int < Advance(offset, r) as int
    ensures r.Ok? && u in r.value
  {
    var b := r.value;
    var pending := Pending(queue, offset as int);
    PendingAscending(queue, offset as int);
    var k :| 0 <= k < |pending| && pending[k] == u;
    var last := |b| - 1;
    assert b[last] == pending[last];
    assert k <= last;
    assert b[k] == u;
  }

  /** Only queued updates are retrieved. */
  lemma {:induction false} RetrievedFromQueue(queue: seq<Update>, offset: int64,
                                              polls: seq<Result<seq<Update>>>)
    requires ServerServes(queue, offset, polls)
    ensures forall u | u in Retrieved(polls) :: u in queue
    decreases |polls|
  {
    if polls != [] {
      var first := if polls[0].Ok? then polls[0].value else [];
      RetrievedFromQueue(queue, Advance(offset, polls[0]), polls[1..]);
      assert Retrieved(polls) == first + Retrieved(polls[1..]);
      forall u | u in first ensures u in queue {
        var i :| 0 <= i < |first| && first[i] == u;
        assert first[i] == Pending(queue, offset as int)[i];
      }
    }
  }

  /** No update is lost: across any run of polls served from a well-formed queue, every
      update of the queue between the starting cursor and the final cursor has been
      returned. */
  lemma {:induction false} NoLoss(queue: seq<Update>, offset: int64, polls: seq<Result<seq<Update>>>)
    requires WellFormedQueue(queue) && ServerServes(queue, offset, polls)
    ensures forall u | u in queue && offset as int <= u.updateId as int < CursorAfter(offset, polls) as int
              :: u in Retrieved(polls)
    decreases |polls|
  {
    if polls != [] {
      var next := Advance(offset, polls[0]);
      var first := if polls[0].Ok? then polls[0].value else [];
      var rest := Retrieved(polls[1..]);
      NoLoss(queue, next, polls[1..]);
      assert Retrieved(polls) == first + rest;
      forall u | u in queue && offset as int <= u.updateId as int < CursorAfter(offset, polls) as int
        ensures u in first + rest
      {
        if u.updateId as int < next as int {
          BatchCoversAdvance(queue, offset, polls[0], u);
        }
      }
    }
  }

  /** Exactly-once retrieval: across any run of polls served from a well-formed queue,
      the updates returned are exactly the queue's updates between the starting and the
      final cursor, each returned once and in order, and the cursor never moves back. */
  lemma ExactlyOnce(queue: seq<Update>, offset: int64, polls: seq<Result<seq<Update>>>)
    requires WellFormedQueue(queue) && ServerServes(queue, offset, polls)
    ensures offset <= CursorAfter(offset, polls)
    ensures Ascending(Retrieved(polls))
    ensures forall u :: u in Retrieved(polls) <==>
              u in queue && offset as int <= u.updateId as int < CursorAfter(offset, polls) as int
  {
    ServesImpliesHonours(queue, offset, polls);
    AtMostOnce(offset, polls);
    NoLoss(queue, offset, polls);
    RetrievedFromQueue(queue, offset, polls);
    var got := Retrieved(polls);
    forall u | u in got
      ensures offset as int <= u.updateId as int < CursorAfter(offset, polls) as int
    {
      var i :| 0 <= i < |got| && got[i] == u;
    }
  }
}
