/** The table of pending responses, `data_cache`, as values: every function here is one section of
    code that the program runs under its table lock (and, inside it, a row lock). */
module ResponseCache {
  import opened Wire
  import Wrappers

  const QUEUE_RECV_MAX: nat := 500

  datatype DataState = Queued | Waiting | Swapped

  /** `data_read`; times are in nanoseconds. */
  datatype Row = Row(timestamp: int, validMs: int, state: DataState, buffer: Bytes)

  /** `table` holds the ids present in `m_entries`. A row that left the table may still be shared with
      a waiter, so `rows` keeps every row ever made. */
  datatype Cache = Cache(maxEntries: nat, idCounter: U64, rows: map<U64, Row>, table: set<U64>)

  function NewCache(maxEntries: nat): Cache {
    Cache(maxEntries, 0, map[], {})
  }

  /** `duration_cast<milliseconds>`, which truncates toward zero. */
  function Millis(nanos: int): int {
    if nanos >= 0 then nanos / 1_000_000 else -(-nanos / 1_000_000)
  }

  predicate ValidAt(row: Row, now: int) {
    Millis(now - row.timestamp) < row.validMs
  }

  /** `queue`: 0 stands for a full table. The counter wraps as a 64-bit number. */
  function Queue(c: Cache, now: int, valid: int): (Cache, U64) {
    if |c.table| >= c.maxEntries then (c, 0)
    else
      var id: U64 := (c.idCounter + 1) % U64_LIMIT;
      (c.(idCounter := id, table := c.table + {id},
          rows := c.rows[id := Row(now, Millis(valid), Queued, [])]), id)
  }

  datatype Found = Absent | Ready | Registered

  /** The part of `wait` under the table lock. */
  function Lookup(c: Cache, id: U64): (Cache, Found) {
    if id !in c.table || id !in c.rows then (c, Absent)
    else if c.rows[id].state == Swapped then (c.(table := c.table - {id}), Ready)
    else (c.(rows := c.rows[id := c.rows[id].(state := Waiting)]), Registered)
  }

  /** The last part of `wait(buffer)`, under the row lock: the buffers change places. */
  function Take(c: Cache, id: U64, buffer: Bytes): (Cache, Bytes) {
    if id !in c.rows then (c, buffer)
    else (c.(rows := c.rows[id := c.rows[id].(buffer := buffer)]), c.rows[id].buffer)
  }

  /** `swap_notify`; the caller's buffer is empty afterwards whenever the id is known. */
  function SwapNotify(c: Cache, id: U64, buffer: Bytes): (Cache, Bytes) {
    if id !in c.table || id !in c.rows then (c, buffer)
    else
      var row := c.rows[id];
      (c.(rows := c.rows[id := row.(state := Swapped, buffer := buffer)],
          table := if row.state == Waiting then c.table - {id} else c.table), [])
  }

  /** `remove_obsolete` */
  function RemoveObsolete(c: Cache, now: int): Cache {
    c.(table := set id | id in c.table && (id in c.rows ==> ValidAt(c.rows[id], now)))
  }

  /** `clear` */
  function Clear(c: Cache): Cache {
    c.(table := {},
       rows := map id | id in c.rows :: if id in c.table then c.rows[id].(state := Swapped) else c.rows[id])
  }

  // ----- runs -----

  datatype Action =
    | DoQueue(now: int, valid: int)
    | DoLookup(id: U64)
    | DoTake(id: U64, into: Bytes)
    | DoSwap(id: U64, received: Bytes)
    | DoObsolete(now: int)
    | DoClear

  /** A cache with its history: the ids handed out, the ids some `wait` registered on, and the ids
      some `swap_notify` found. */
  datatype Traced = Traced(cache: Cache, issued: seq<U64>, waited: set<U64>, received: set<U64>)

  function Step(t: Traced, a: Action): Traced {
    var c := t.cache;
    match a
    case DoQueue(now, valid) =>
      var (c', id) := Queue(c, now, valid);
      t.(cache := c', issued := if id == 0 then t.issued else t.issued + [id])
    case DoLookup(id) =>
      var (c', found) := Lookup(c, id);
      t.(cache := c', waited := if found.Registered? then t.waited + {id} else t.waited)
    case DoTake(id, into) => t.(cache := Take(c, id, into).0)
    case DoSwap(id, received) =>
      t.(cache := SwapNotify(c, id, received).0,
         received := if id in c.table then t.received + {id} else t.received)
    case DoObsolete(now) => t.(cache := RemoveObsolete(c, now))
    case DoClear => t.(cache := Clear(c))
  }

  function Run(t: Traced, acts: seq<Action>): Traced
    decreases |acts|
  {
    if acts == [] then t else Run(Step(t, acts[0]), acts[1..])
  }

  function Fresh(maxEntries: nat): Traced {
    Traced(NewCache(maxEntries), [], {}, {})
  }

  /** The rows are exactly the ids 1 to `idCounter`. */
  ghost predicate WellFormed(c: Cache) {
    && (forall id: U64 :: id in c.rows <==> 1 <= id <= c.idCounter)
    && c.table <= c.rows.Keys
    && |c.table| <= c.maxEntries
  }

  ghost predicate Inv(t: Traced) {
    var c := t.cache;
    && WellFormed(c)
    && |t.issued| == c.idCounter
    && (forall k :: 0 <= k < |t.issued| ==> t.issued[k] == k + 1)
    && t.waited <= c.rows.Keys && t.received <= c.rows.Keys
    && (forall id :: id in c.table ==> RowFits(t, id))
  }

  /** The state of a row in the table says who has been there. */
  ghost predicate RowFits(t: Traced, id: U64)
    requires id in t.cache.rows
  {
    match t.cache.rows[id].state
    case Queued => id !in t.waited && id !in t.received
    case Waiting => id in t.waited && id !in t.received
    case Swapped => id !in t.waited && id in t.received
  }

  lemma StepKeepsWellFormed(c: Cache, id: U64, bytes: Bytes, now: int)
    requires WellFormed(c)
    ensures WellFormed(Lookup(c, id).0) && WellFormed(Take(c, id, bytes).0)
    ensures WellFormed(SwapNotify(c, id, bytes).0)
    ensures WellFormed(RemoveObsolete(c, now)) && WellFormed(Clear(c))
  {
    Wrappers.SubsetSize(c.table - {id}, c.table);
    Wrappers.SubsetSize(RemoveObsolete(c, now).table, c.table);
  }

  lemma QueueKeepsWellFormed(c: Cache, now: int, valid: int)
    requires WellFormed(c) && c.idCounter + 1 < U64_LIMIT
    ensures WellFormed(Queue(c, now, valid).0)
  {
  }

  lemma QueueKeepsInv(t: Traced, now: int, valid: int)
    requires Inv(t) && t.cache.idCounter + 1 < U64_LIMIT
    ensures Inv(Step(t, DoQueue(now, valid)))
  {
    QueueKeepsWellFormed(t.cache, now, valid);
  }

  lemma LookupKeepsInv(t: Traced, id: U64)
    requires Inv(t)
    ensures Inv(Step(t, DoLookup(id)))
  {
    StepKeepsWellFormed(t.cache, id, [], 0);
    var t' := Step(t, DoLookup(id));
    forall k | k in t'.cache.table ensures RowFits(t', k) {
      assert RowFits(t, k);
    }
  }

  lemma TakeKeepsInv(t: Traced, id: U64, into: Bytes)
    requires Inv(t)
    ensures Inv(Step(t, DoTake(id, into)))
  {
    StepKeepsWellFormed(t.cache, id, into, 0);
  }

  lemma SwapKeepsInv(t: Traced, id: U64, received: Bytes)
    requires Inv(t)
    ensures Inv(Step(t, DoSwap(id, received)))
  {
    StepKeepsWellFormed(t.cache, id, received, 0);
  }

  lemma ObsoleteKeepsInv(t: Traced, now: int)
    requires Inv(t)
    ensures Inv(Step(t, DoObsolete(now)))
  {
    StepKeepsWellFormed(t.cache, 0, [], now);
  }

  lemma ClearKeepsInv(t: Traced)
    requires Inv(t)
    ensures Inv(Step(t, DoClear))
  {
    StepKeepsWellFormed(t.cache, 0, [], 0);
  }

  lemma StepKeepsInv(t: Traced, a: Action)
    requires Inv(t) && t.cache.idCounter + 1 < U64_LIMIT
    ensures Inv(Step(t, a))
  {
    match a
    case DoQueue(now, valid) => QueueKeepsInv(t, now, valid);
    case DoLookup(id) => LookupKeepsInv(t, id);
    case DoTake(id, into) => TakeKeepsInv(t, id, into);
    case DoSwap(id, received) => SwapKeepsInv(t, id, received);
    case DoObsolete(now) => ObsoleteKeepsInv(t, now);
    case DoClear => ClearKeepsInv(t);
  }

  /** Main invariant of the cache, over every run that issues fewer than 2^64 ids: the size stays
      within the maximum; ids are never 0 and count up without gaps; a swapped row still in the table
      was never waited on; a waiting row still in the table has received nothing. */
  lemma {:induction false} RunKeepsInv(t: Traced, acts: seq<Action>)
    requires Inv(t) && t.cache.idCounter + |acts| < U64_LIMIT
    ensures Inv(Run(t, acts))
    decreases |acts|
  {
    if acts != [] {
      StepKeepsInv(t, acts[0]);
      RunKeepsInv(Step(t, acts[0]), acts[1..]);
    }
  }

  lemma CacheLifecycle(maxEntries: nat, acts: seq<Action>, id: U64)
    requires |acts| < U64_LIMIT
    ensures var t := Run(Fresh(maxEntries), acts);
            && |t.cache.table| <= maxEntries
            && (forall j, k :: 0 <= j < k < |t.issued| ==> 0 < t.issued[j] < t.issued[k])
            && (id in t.cache.table ==> id in t.cache.rows && id in t.issued)
            && (id in t.cache.table && t.cache.rows[id].state == Swapped ==> id !in t.waited)
            && (id in t.cache.table && t.cache.rows[id].state == Waiting ==> id !in t.received)
  {
    var t := Run(Fresh(maxEntries), acts);
    RunKeepsInv(Fresh(maxEntries), acts);
    MaxEntriesFixed(Fresh(maxEntries), acts);
    if id in t.cache.table {
      assert t.issued[id - 1] == id;
    }
  }

  lemma {:induction false} MaxEntriesFixed(t: Traced, acts: seq<Action>)
    ensures Run(t, acts).cache.maxEntries == t.cache.maxEntries
    decreases |acts|
  {
    if acts != [] {
      MaxEntriesFixed(Step(t, acts[0]), acts[1..]);
    }
  }

  /** A queued id is new: it was in no row before, so no reply to an older request can reach it. */
  lemma QueueIsFresh(c: Cache, now: int, valid: int)
    requires WellFormed(c) && c.idCounter + 1 < U64_LIMIT
    ensures var (c', id) := Queue(c, now, valid);
            && (id == 0 <==> |c.table| == c.maxEntries)
            && (id == 0 ==> c' == c)
            && (id != 0 ==> id !in c.rows && id == c.idCounter + 1 && c'.table == c.table + {id})
            && forall id0: U64 :: id0 in c.rows ==> id0 in c'.rows && c'.rows[id0] == c.rows[id0]
  {
  }

  /** `remove_obsolete` erases exactly the rows whose age reached their validity, whatever their state. */
  lemma ObsoleteByAgeOnly(c: Cache, now: int, id: U64)
    requires WellFormed(c)
    ensures id in RemoveObsolete(c, now).table
       <==> id in c.table && Millis(now - c.rows[id].timestamp) < c.rows[id].validMs
    ensures RemoveObsolete(c, now).rows == c.rows
  {
  }

  /** A row that is waited on is not spared: `remove_obsolete` drops it, state unchanged, exactly when
      it is too old, and the response that comes later finds no row. */
  lemma WaitedRowSparedIff(c: Cache, now: int, id: U64, response: Bytes)
    requires WellFormed(c) && id in c.table && c.rows[id].state == Waiting
    ensures var c' := RemoveObsolete(c, now);
            var (c'', left) := SwapNotify(c', id, response);
            && (c''.rows[id] == c.rows[id].(state := Swapped, buffer := response)
                && id !in c''.table && left == []
                <==> Millis(now - c.rows[id].timestamp) < c.rows[id].validMs)
            && (Millis(now - c.rows[id].timestamp) >= c.rows[id].validMs ==> c'' == c' && left == response)
  {
    if Millis(now - c.rows[id].timestamp) >= c.rows[id].validMs {
      assert id !in RemoveObsolete(c, now).table;
    }
  }

  /** Ids that left the table, or were never issued up to now, never come back: in particular, after
      `clear` every id issued before makes `wait` return false at once. */
  lemma {:induction false} GoneIsGone(t: Traced, acts: seq<Action>, id: U64)
    requires Inv(t) && t.cache.idCounter + |acts| < U64_LIMIT
    requires id <= t.cache.idCounter && id !in t.cache.table
    ensures Lookup(Run(t, acts).cache, id) == (Run(t, acts).cache, Absent)
    decreases |acts|
  {
    if acts != [] {
      StepKeepsInv(t, acts[0]);
      GoneIsGone(Step(t, acts[0]), acts[1..], id);
    }
  }

  lemma AfterClearNoWaitBlocks(t: Traced, acts: seq<Action>, id: U64)
    requires Inv(t) && t.cache.idCounter + |acts| < U64_LIMIT && id <= t.cache.idCounter
    ensures Lookup(Run(Step(t, DoClear), acts).cache, id).1 == Absent
    ensures id in t.cache.table ==> Step(t, DoClear).cache.rows[id].state == Swapped
  {
    ClearKeepsInv(t);
    GoneIsGone(Step(t, DoClear), acts, id);
  }

  // ----- what erases a row -----

  /** Nobody waits for row `id`, and the table is not cleared. */
  predicate NobodyWaits(acts: seq<Action>, id: U64) {
    forall i :: 0 <= i < |acts| ==> !(acts[i].DoLookup? && acts[i].id == id) && !acts[i].DoClear?
  }

  /** Counting in whole milliseconds loses less than one of them, and decides alike: an age is below a
      validity of some milliseconds exactly when it is below that many nanoseconds. */
  lemma MillisTruncates(nanos: int, validMs: int)
    ensures nanos >= 0 ==> 1_000_000 * Millis(nanos) <= nanos < 1_000_000 * (Millis(nanos) + 1)
    ensures nanos <= 0 ==> 1_000_000 * (Millis(nanos) - 1) < nanos <= 1_000_000 * Millis(nanos)
    ensures validMs > 0 ==> (Millis(nanos) < validMs <==> nanos < 1_000_000 * validMs)
  {
    if nanos < 0 {
      assert -nanos == 1_000_000 * (-nanos / 1_000_000) + -nanos % 1_000_000;
    } else {
      assert nanos == 1_000_000 * (nanos / 1_000_000) + nanos % 1_000_000;
    }
  }

  /** Every time `remove_obsolete` runs, the row's age in milliseconds is below its validity. */
  predicate NeverTooOld(acts: seq<Action>, born: int, validMs: int) {
    forall i :: 0 <= i < |acts| && acts[i].DoObsolete? ==> Millis(acts[i].now - born) < validMs
  }

  lemma AgeAtStep(t: Traced, a: Action, id: U64)
    requires Inv(t) && t.cache.idCounter + 1 < U64_LIMIT && id in t.cache.rows && id !in t.waited
    requires !(a.DoLookup? && a.id == id) && !a.DoClear?
    ensures var c := Step(t, a).cache;
            && id in c.rows
            && c.rows[id].timestamp == t.cache.rows[id].timestamp && c.rows[id].validMs == t.cache.rows[id].validMs
            && (id in c.table <==> id in t.cache.table && (a.DoObsolete? ==> ValidAt(t.cache.rows[id], a.now)))
  {
    match a
    case DoQueue(now, valid) => QueueIsFresh(t.cache, now, valid);
    case DoObsolete(now) => ObsoleteByAgeOnly(t.cache, now, id);
    case DoSwap(id', _) => assert id in t.cache.table ==> RowFits(t, id);
    case DoLookup(id') => assert id' != id;
    case DoTake(id', _) => assert (t.cache.rows[id] == Step(t, a).cache.rows[id]) || id' == id;
    case DoClear => assert false;
  }

  lemma StillNobody(t: Traced, a: Action, id: U64)
    requires Inv(t) && t.cache.idCounter + 1 < U64_LIMIT && id in t.cache.rows && id !in t.waited
    requires !(a.DoLookup? && a.id == id)
    ensures id !in Step(t, a).waited
  {
  }

  lemma {:induction false} AgeDecides(t: Traced, acts: seq<Action>, id: U64)
    requires Inv(t) && t.cache.idCounter + |acts| < U64_LIMIT && NobodyWaits(acts, id)
    requires id in t.cache.rows && id !in t.waited
    ensures id in Run(t, acts).cache.table
       <==> id in t.cache.table && NeverTooOld(acts, t.cache.rows[id].timestamp, t.cache.rows[id].validMs)
    decreases |acts|
  {
    if acts != [] {
      var first, rest := [acts[0]], acts[1..];
      assert acts == first + rest && first[0] == acts[0];
      StepKeepsInv(t, acts[0]);
      AgeAtStep(t, acts[0], id);
      StillNobody(t, acts[0], id);
      AgeDecides(Step(t, acts[0]), rest, id);
      TwoParts(first, rest, t.cache.rows[id].timestamp, t.cache.rows[id].validMs);
    }
  }

  lemma TwoParts(first: seq<Action>, rest: seq<Action>, born: int, validMs: int)
    ensures NeverTooOld(first + rest, born, validMs)
       <==> NeverTooOld(first, born, validMs) && NeverTooOld(rest, born, validMs)
  {
    var acts := first + rest;
    assert forall i :: 0 <= i < |first| ==> acts[i] == first[i];
    assert forall i :: 0 <= i < |rest| ==> acts[|first| + i] == rest[i];
  }

  lemma QueuedRow(t: Traced, born: int, valid: int)
    requires Inv(t) && |t.cache.table| < t.cache.maxEntries && t.cache.idCounter + 1 < U64_LIMIT
    ensures var t', id: U64 := Step(t, DoQueue(born, valid)), t.cache.idCounter + 1;
            && Inv(t') && t'.cache.idCounter == id
            && id in t'.cache.table && id in t'.cache.rows && id !in t'.waited
            && t'.cache.rows[id] == Row(born, Millis(valid), Queued, [])
  {
    QueueKeepsInv(t, born, valid);
    assert t.cache.idCounter + 1 !in t.cache.rows;
  }

  /** Age alone erases: whatever happens to other rows, and however many responses come for this one, the
      row of a request nobody waits for yet is still in the table exactly when no run of `remove_obsolete`
      found its age, counted from `queue`, at or above the validity given there. */
  lemma ErasedByAgeAlone(t: Traced, born: int, valid: int, acts: seq<Action>)
    requires Inv(t) && |t.cache.table| < t.cache.maxEntries && t.cache.idCounter + 1 + |acts| < U64_LIMIT
    requires NobodyWaits(acts, t.cache.idCounter + 1)
    ensures t.cache.idCounter + 1 in Run(Step(t, DoQueue(born, valid)), acts).cache.table
       <==> NeverTooOld(acts, born, Millis(valid))
  {
    QueuedRow(t, born, valid);
    AgeDecides(Step(t, DoQueue(born, valid)), acts, t.cache.idCounter + 1);
  }

  lemma RunOf(t: Traced, a: Action, rest: seq<Action>)
    ensures Run(t, [a] + rest) == Run(Step(t, a), rest)
  {
    assert ([a] + rest)[1..] == rest;
  }

  /** A concrete run: request 1 may take a millisecond and is waited for; after a millisecond
      `remove_obsolete` drops its row all the same, and the response finds nothing. */
  lemma WaitedRowDropped(response: Bytes)
    ensures var t := Run(Fresh(QUEUE_RECV_MAX), [DoQueue(0, 1_000_000)] + ([DoLookup(1)] + ([DoObsolete(1_000_000)]
                                                 + ([DoSwap(1, response)] + []))));
            && t.cache.table == {} && t.received == {} && t.waited == {1}
            && 1 in t.cache.rows && t.cache.rows[1] == Row(0, 1, Waiting, [])
  {
    var t0 := Fresh(QUEUE_RECV_MAX);
    var t1 := Step(t0, DoQueue(0, 1_000_000));
    var t2 := Step(t1, DoLookup(1));
    var t3 := Step(t2, DoObsolete(1_000_000));
    var tail := [DoSwap(1, response)] + [];
    RunOf(t0, DoQueue(0, 1_000_000), [DoLookup(1)] + ([DoObsolete(1_000_000)] + tail));
    RunOf(t1, DoLookup(1), [DoObsolete(1_000_000)] + tail);
    RunOf(t2, DoObsolete(1_000_000), tail);
    RunOf(t3, DoSwap(1, response), []);
    assert t2.cache.rows[1] == Row(0, 1, Waiting, []);
    assert !ValidAt(Row(0, 1, Waiting, []), 1_000_000);
    assert t3.cache.table == {};
  }

  // ----- what the result of `wait` says about the buffer -----

  /** Some `swap_notify` or `clear` finds row `id` in the table. */
  predicate IsFound(t: Traced, acts: seq<Action>, id: U64)
    decreases |acts|
  {
    acts != [] && (Finds(t, acts[0], id) || IsFound(Step(t, acts[0]), acts[1..], id))
  }

  predicate Finds(t: Traced, a: Action, id: U64) {
    id in t.cache.table && (a == DoClear || (a.DoSwap? && a.id == id))
  }

  /** The bytes of the last `swap_notify` that found row `id` in the table; `had` if there was none. */
  function Received(t: Traced, acts: seq<Action>, id: U64, had: Bytes): Bytes
    decreases |acts|
  {
    if acts == [] then had
    else Received(Step(t, acts[0]), acts[1..], id, if Finds(t, acts[0], id) && acts[0].DoSwap? then acts[0].received else had)
  }

  predicate TakenBySomeone(acts: seq<Action>, id: U64) {
    exists i :: 0 <= i < |acts| && acts[i].DoTake? && acts[i].id == id
  }

  lemma TakenLater(acts: seq<Action>, id: U64)
    requires acts != [] && !TakenBySomeone(acts, id)
    ensures !TakenBySomeone(acts[1..], id) && !(acts[0].DoTake? && acts[0].id == id)
  {
    assert forall i :: 0 <= i < |acts| - 1 ==> acts[1..][i] == acts[i + 1];
  }

  lemma RowAtStep(t: Traced, a: Action, id: U64)
    requires Inv(t) && t.cache.idCounter + 1 < U64_LIMIT && id in t.cache.rows && !(a.DoTake? && a.id == id)
    ensures var c := Step(t, a).cache;
            && id in c.rows
            && c.rows[id].buffer == (if Finds(t, a, id) && a.DoSwap? then a.received else t.cache.rows[id].buffer)
            && (c.rows[id].state == Swapped <==> t.cache.rows[id].state == Swapped || Finds(t, a, id))
  {
  }

  /** Until somebody takes its buffer, a row is swapped once found, and keeps what it was given last. */
  lemma {:induction false} RowContents(t: Traced, acts: seq<Action>, id: U64)
    requires Inv(t) && t.cache.idCounter + |acts| < U64_LIMIT && !TakenBySomeone(acts, id) && id in t.cache.rows
    ensures var c := Run(t, acts).cache;
            && id in c.rows
            && c.rows[id].buffer == Received(t, acts, id, t.cache.rows[id].buffer)
            && (c.rows[id].state == Swapped <==> t.cache.rows[id].state == Swapped || IsFound(t, acts, id))
    decreases |acts|
  {
    if acts != [] {
      StepKeepsInv(t, acts[0]);
      TakenLater(acts, id);
      RowAtStep(t, acts[0], id);
      RowContents(Step(t, acts[0]), acts[1..], id);
    }
  }

  /** `wait` that returns true need not have data. From `queue` on, with any actions before, between and
      after the sections of any number of waits: a wait ends with true, at its lookup or at a later look,
      exactly when `swap_notify` or `clear` has found the row, and what it then hands out are the bytes of
      the last `swap_notify` that found it; none if there was no such. */
  lemma TrueWaitHasDataIff(t: Traced, born: int, valid: int, acts: seq<Action>, buffer: Bytes)
    requires Inv(t) && |t.cache.table| < t.cache.maxEntries && t.cache.idCounter + 1 + |acts| < U64_LIMIT
    requires !TakenBySomeone(acts, t.cache.idCounter + 1)
    ensures var id: U64, queued := t.cache.idCounter + 1, Step(t, DoQueue(born, valid));
            var c := Run(queued, acts).cache;
            && id in c.rows
            && (c.rows[id].state == Swapped <==> IsFound(queued, acts, id))
            && (Lookup(c, id).1 == Ready <==> id in c.table && IsFound(queued, acts, id))
            && Take(c, id, buffer).1 == Received(queued, acts, id, [])
  {
    QueueKeepsInv(t, born, valid);
    RowContents(Step(t, DoQueue(born, valid)), acts, t.cache.idCounter + 1);
  }

  /** The bytes of the last response for `id` that a run of actions brings. */
  function LastResponse(acts: seq<Action>, id: U64): Wrappers.Option<Bytes> {
    if acts == [] then Wrappers.None
    else
      var last := acts[|acts| - 1];
      if last.DoSwap? && last.id == id then Wrappers.Some(last.received)
      else LastResponse(acts[..|acts| - 1], id)
  }

  lemma {:induction false} RunEnds(t: Traced, acts: seq<Action>, a: Action)
    ensures Run(t, acts + [a]) == Step(Run(t, acts), a)
    decreases |acts|
  {
    if acts == [] {
      assert acts + [a] == [a] && [a][1..] == [];
    } else {
      assert (acts + [a])[0] == acts[0] && (acts + [a])[1..] == acts[1..] + [a];
      RunEnds(Step(t, acts[0]), acts[1..], a);
    }
  }

  lemma Shorter(acts: seq<Action>, id: U64, born: int, validMs: int)
    requires acts != []
    ensures var front := acts[..|acts| - 1];
            && acts == front + [acts[|acts| - 1]]
            && (NobodyWaits(acts, id) ==> NobodyWaits(front, id))
            && (!TakenBySomeone(acts, id) ==> !TakenBySomeone(front, id))
            && (NeverTooOld(acts, born, validMs) ==> NeverTooOld(front, born, validMs))
  {
    var front := acts[..|acts| - 1];
    assert forall i :: 0 <= i < |front| ==> front[i] == acts[i];
  }

  /** What a row that is never too old and that nobody waits for holds: the last response. */
  predicate Holds(row: Row, response: Wrappers.Option<Bytes>) {
    match response
    case Some(bytes) => row.state == Swapped && row.buffer == bytes
    case None => row.state == Queued && row.buffer == []
  }

  lemma {:induction false} KeepsTheLast(t: Traced, acts: seq<Action>, id: U64)
    requires Inv(t) && t.cache.idCounter + |acts| < U64_LIMIT && id in t.cache.table && id !in t.waited
    requires NobodyWaits(acts, id) && !TakenBySomeone(acts, id)
    requires NeverTooOld(acts, t.cache.rows[id].timestamp, t.cache.rows[id].validMs)
    requires Holds(t.cache.rows[id], Wrappers.None)
    ensures var c := Run(t, acts).cache;
            id in c.table && id in c.rows && Holds(c.rows[id], LastResponse(acts, id))
    decreases |acts|
  {
    AgeDecides(t, acts, id);
    RunKeepsInv(t, acts);
    if acts != [] {
      var front, last := acts[..|acts| - 1], acts[|acts| - 1];
      Shorter(acts, id, t.cache.rows[id].timestamp, t.cache.rows[id].validMs);
      KeepsTheLast(t, front, id);
      RunEnds(t, front, last);
      RunKeepsInv(t, front);
      assert !(last.DoLookup? && last.id == id) && !last.DoClear? && !(last.DoTake? && last.id == id);
    }
  }

  /** A response that comes before its caller waits is kept. From `queue` on, before anybody waits and as
      long as the row is never too old: if any response came, `wait` is true at its lookup, hands out the
      bytes of the last one, and in every later state a second `wait` is false at once; if none came, the
      waiter registers. */
  lemma EarlyResponse(t: Traced, born: int, valid: int, acts: seq<Action>, buffer: Bytes, later: seq<Action>)
    requires Inv(t) && |t.cache.table| < t.cache.maxEntries
    requires t.cache.idCounter + 1 + |acts| + 1 + |later| < U64_LIMIT
    requires NobodyWaits(acts, t.cache.idCounter + 1) && !TakenBySomeone(acts, t.cache.idCounter + 1)
    requires NeverTooOld(acts, born, Millis(valid))
    ensures var id: U64 := t.cache.idCounter + 1;
            var before := Run(Step(t, DoQueue(born, valid)), acts);
            var (c, found) := Lookup(before.cache, id);
            match LastResponse(acts, id)
            case Some(bytes) =>
              && found == Ready && Take(c, id, buffer).1 == bytes
              && Lookup(Run(Step(before, DoLookup(id)), later).cache, id).1 == Absent
            case None => found == Registered && id in c.rows && c.rows[id].state == Waiting && c.rows[id].buffer == []
  {
    var id: U64 := t.cache.idCounter + 1;
    var queued := Step(t, DoQueue(born, valid));
    var before := Run(queued, acts);
    QueuedRow(t, born, valid);
    KeepsTheLast(queued, acts, id);
    RunKeepsInv(queued, acts);
    CounterGrows(queued, acts);
    if LastResponse(acts, id).Some? {
      LookupKeepsInv(before, id);
      GoneIsGone(Step(before, DoLookup(id)), later, id);
    }
  }

  lemma {:induction false} CounterGrows(t: Traced, acts: seq<Action>)
    requires Inv(t) && t.cache.idCounter + |acts| < U64_LIMIT
    ensures t.cache.idCounter <= Run(t, acts).cache.idCounter <= t.cache.idCounter + |acts|
    decreases |acts|
  {
    if acts != [] {
      StepKeepsInv(t, acts[0]);
      CounterGrows(Step(t, acts[0]), acts[1..]);
    }
  }

  /** What ends a wait on row `id`: the first response or `clear`, unless the row was found too old before.
      `clear` brings no bytes. */
  function FirstAnswer(acts: seq<Action>, id: U64, born: int, validMs: int): Wrappers.Option<Bytes> {
    if acts == [] then Wrappers.None
    else
      match acts[0]
      case DoSwap(id', bytes) => if id' == id then Wrappers.Some(bytes) else FirstAnswer(acts[1..], id, born, validMs)
      case DoClear => Wrappers.Some([])
      case DoObsolete(now) =>
        if Millis(now - born) >= validMs then Wrappers.None else FirstAnswer(acts[1..], id, born, validMs)
      case _ => FirstAnswer(acts[1..], id, born, validMs)
  }

  lemma {:induction false} OutOfTableUntouched(t: Traced, acts: seq<Action>, id: U64)
    requires Inv(t) && t.cache.idCounter + |acts| < U64_LIMIT && !TakenBySomeone(acts, id)
    requires id in t.cache.rows && id !in t.cache.table
    ensures var c := Run(t, acts).cache;
            id !in c.table && id in c.rows && c.rows[id] == t.cache.rows[id]
    decreases |acts|
  {
    if acts != [] {
      StepKeepsInv(t, acts[0]);
      TakenLater(acts, id);
      OutOfTableUntouched(Step(t, acts[0]), acts[1..], id);
    }
  }

  lemma WaitedStep(t: Traced, a: Action, id: U64)
    requires Inv(t) && t.cache.idCounter + 1 < U64_LIMIT && id in t.cache.table && t.cache.rows[id].state == Waiting
    requires !(a.DoTake? && a.id == id)
    ensures var c, row := Step(t, a).cache, t.cache.rows[id];
            && id in c.rows
            && (if a.DoClear? then id !in c.table && c.rows[id] == row.(state := Swapped)
                else if a.DoSwap? && a.id == id then
                  id !in c.table && c.rows[id] == row.(state := Swapped, buffer := a.received)
                else
                  && (id in c.table <==> !(a.DoObsolete? && Millis(a.now - row.timestamp) >= row.validMs))
                  && c.rows[id] == row)
  {
    if a.DoObsolete? {
      ObsoleteByAgeOnly(t.cache, a.now, id);
    }
  }

  /** A row that is waited on leaves the table with its first answer, or too old and unanswered. Whatever
      happens from the lookup on that registered the waiter: a later look finds the row swapped exactly when
      a response or `clear` came before the row was found too old, and the buffer holds the bytes of the
      first such, later ones finding no row. */
  lemma {:induction false} WaitedRowEnds(t: Traced, acts: seq<Action>, id: U64)
    requires Inv(t) && t.cache.idCounter + |acts| < U64_LIMIT && !TakenBySomeone(acts, id)
    requires id in t.cache.table && t.cache.rows[id].state == Waiting && t.cache.rows[id].buffer == []
    ensures var c, row := Run(t, acts).cache, t.cache.rows[id];
            var answer := FirstAnswer(acts, id, row.timestamp, row.validMs);
            && id in c.rows
            && (c.rows[id].state == Swapped <==> answer.Some?)
            && c.rows[id].buffer == (if answer.Some? then answer.value else [])
            && (id in c.table <==> answer.None? && NeverTooOld(acts, row.timestamp, row.validMs))
    decreases |acts|
  {
    if acts != [] {
      var row := t.cache.rows[id];
      StepKeepsInv(t, acts[0]);
      TakenLater(acts, id);
      WaitedStep(t, acts[0], id);
      assert acts == [acts[0]] + acts[1..];
      TwoParts([acts[0]], acts[1..], row.timestamp, row.validMs);
      if id in Step(t, acts[0]).cache.table {
        WaitedRowEnds(Step(t, acts[0]), acts[1..], id);
      } else {
        OutOfTableUntouched(Step(t, acts[0]), acts[1..], id);
      }
    }
  }

  /** `wait` that returned false need not leave the buffer empty: `late` may happen between its last look
      at the row and the exchange of buffers. The buffer ends up empty exactly when no `swap_notify` with
      bytes found the row then. */
  lemma FalseWaitIsEmptyIff(t: Traced, late: seq<Action>, id: U64)
    requires Inv(t) && t.cache.idCounter + |late| < U64_LIMIT && !TakenBySomeone(late, id)
    requires id in t.cache.rows && t.cache.rows[id].state == Waiting && t.cache.rows[id].buffer == []
    ensures Take(Run(t, late).cache, id, []).1 == [] <==> Received(t, late, id, []) == []
  {
    RowContents(t, late, id);
  }

  /** A concrete run: request 1 is queued and waited for, the wait times out, the response `[7]` comes, and
      the caller, told false, gets it; had `clear` come instead, it would have been told true and got nothing. */
  lemma LateResponse(now: int)
    ensures var t := Run(Fresh(QUEUE_RECV_MAX), [DoQueue(now, 1_000_000), DoLookup(1)]);
            && 1 in t.cache.rows && t.cache.rows[1].state == Waiting
            && Take(Step(t, DoSwap(1, [7])).cache, 1, []).1 == [7]
            && Step(t, DoClear).cache.rows[1].state == Swapped && Take(Step(t, DoClear).cache, 1, []).1 == []
  {
    var acts := [DoQueue(now, 1_000_000), DoLookup(1)];
    var t0 := Fresh(QUEUE_RECV_MAX);
    var t1 := Step(t0, acts[0]);
    assert acts[1..] == [DoLookup(1)] && acts[1..][1..] == [];
    assert Run(t0, acts) == Run(t1, acts[1..]) == Run(Step(t1, DoLookup(1)), []);
  }
}
