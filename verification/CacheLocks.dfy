/** `data_cache` at the granularity of its locks: one lock for the table, one for each row, and a
    condition variable on each row. Any number of threads run `queue`, `wait`, `swap_notify`,
    `remove_obsolete` and `clear`; between any two lock operations any other thread may run. */
module CacheLocks {
  import opened Wrappers
  import opened ResponseCache

  datatype Op = Queue | Wait(id: nat) | SwapNotify(id: nat) | Clear | Obsolete

  /** Where a thread stands. `Want...` waits for the table lock; `...Row` holds the table lock and waits
      for a row lock; `...Both` holds both. */
  datatype Pc =
    | Idle
    | QueueWant
    | QueueIn
    | WaitWant(id: nat)
    | WaitTable(id: nat)
    | WaitRow(id: nat)
    | WaitBoth(id: nat)
    | Recheck(id: nat, late: bool)     // row lock held, about to evaluate the predicate
    | Asleep(id: nat)                  // in the condition variable, row lock released
    | Rewake(id: nat, late: bool)      // woken or timed out, waiting for the row lock
    | TakeWant(id: nat, ok: bool)      // `wait` on the row returned; waiting for the row lock
    | TakeIn(id: nat, ok: bool)        // about to swap the buffers
    | SwapWant(id: nat)
    | SwapTable(id: nat)
    | SwapRow(id: nat)
    | SwapBoth(id: nat)
    | SwapTell(id: nat)                // table lock held, about to call `notify_all`
    | SwapErase(id: nat)
    | ClearWant
    | ClearTable
    | ClearRow(id: nat)
    | ClearBoth(id: nat)
    | ClearTell(id: nat)
    | ClearErase(id: nat)
    | ObsWant
    | ObsTable(todo: set<nat>)
    | ObsRow(id: nat, todo: set<nat>)
    | ObsBoth(id: nat, todo: set<nat>)
    | Exit                             // table lock held, about to return

  /** A row; `token` names the `swap_notify` whose bytes lie in its buffer. */
  datatype Cell = Cell(state: DataState, token: Option<nat>)

  /** `tokens` counts the calls of `swap_notify` that found their row; `buffers` are the callers'
      buffers; `handed` lists the tokens handed to callers, in order. */
  datatype Sys = Sys(pcs: seq<Pc>, table: Option<nat>, rowLocks: map<nat, nat>,
                     entries: set<nat>, rows: map<nat, Cell>, idCounter: nat,
                     tokens: nat, buffers: seq<Option<nat>>, handed: seq<nat>)

  function Init(threads: nat): Sys {
    Sys(seq(threads, i => Idle), None, map[], {}, map[], 0, 0, seq(threads, i => None), [])
  }

  datatype Action =
    | Start(t: nat, op: Op)
    | Go(t: nat, pick: nat, drop: bool)
    | Timeout(t: nat)
    | Spurious(t: nat)

  function Entry(op: Op): Pc {
    match op
    case Queue => QueueWant
    case Wait(id) => WaitWant(id)
    case SwapNotify(id) => SwapWant(id)
    case Clear => ClearWant
    case Obsolete => ObsWant
  }

  predicate WantsTable(pc: Pc) {
    pc.QueueWant? || pc.WaitWant? || pc.SwapWant? || pc.ClearWant? || pc.ObsWant?
  }

  predicate HoldsTable(pc: Pc) {
    pc.QueueIn? || pc.WaitTable? || pc.WaitRow? || pc.WaitBoth?
    || pc.SwapTable? || pc.SwapRow? || pc.SwapBoth? || pc.SwapTell? || pc.SwapErase?
    || pc.ClearTable? || pc.ClearRow? || pc.ClearBoth? || pc.ClearTell? || pc.ClearErase?
    || pc.ObsTable? || pc.ObsRow? || pc.ObsBoth? || pc.Exit?
  }

  function WantsRow(pc: Pc): Option<nat> {
    match pc
    case WaitRow(id) => Some(id)
    case Rewake(id, _) => Some(id)
    case TakeWant(id, _) => Some(id)
    case SwapRow(id) => Some(id)
    case ClearRow(id) => Some(id)
    case ObsRow(id, _) => Some(id)
    case _ => None
  }

  function HoldsRow(pc: Pc): Option<nat> {
    match pc
    case WaitBoth(id) => Some(id)
    case Recheck(id, _) => Some(id)
    case TakeIn(id, _) => Some(id)
    case SwapBoth(id) => Some(id)
    case ClearBoth(id) => Some(id)
    case ObsBoth(id, _) => Some(id)
    case _ => None
  }

  /** What a thread becomes when it gets the lock it waits for. */
  function Got(pc: Pc, entries: set<nat>): Pc {
    match pc
    case QueueWant => QueueIn
    case WaitWant(id) => WaitTable(id)
    case SwapWant(id) => SwapTable(id)
    case ClearWant => ClearTable
    case ObsWant => ObsTable(entries)
    case WaitRow(id) => WaitBoth(id)
    case Rewake(id, late) => Recheck(id, late)
    case TakeWant(id, ok) => TakeIn(id, ok)
    case SwapRow(id) => SwapBoth(id)
    case ClearRow(id) => ClearBoth(id)
    case ObsRow(id, todo) => ObsBoth(id, todo)
    case _ => pc
  }

  predicate Blocked(s: Sys, t: nat)
    requires t < |s.pcs|
  {
    || (WantsTable(s.pcs[t]) && s.table.Some?)
    || (WantsRow(s.pcs[t]).Some? && WantsRow(s.pcs[t]).value in s.rowLocks)
  }

  /** The thread can take its next step by itself. */
  predicate CanGo(s: Sys, t: nat) {
    t < |s.pcs| && s.pcs[t] != Idle && !s.pcs[t].Asleep? && !Blocked(s, t)
  }

  predicate Enabled(s: Sys, a: Action) {
    |s.buffers| == |s.pcs| &&
    match a
    case Start(t, _) => t < |s.pcs| && s.pcs[t] == Idle
    case Go(t, pick, _) =>
      && CanGo(s, t) && (Found(s.pcs[t]).Some? ==> Found(s.pcs[t]).value in s.rows)
      && (s.pcs[t].ClearTable? && s.entries != {} ==> pick in s.entries)
      && (s.pcs[t].ObsTable? && s.pcs[t].todo != {} ==> pick in s.pcs[t].todo)
    case Timeout(t) => t < |s.pcs| && s.pcs[t].Asleep?
    case Spurious(t) => t < |s.pcs| && s.pcs[t].Asleep?
  }

  function SetPc(s: Sys, t: nat, pc: Pc): Sys
    requires t < |s.pcs|
  {
    s.(pcs := s.pcs[t := pc])
  }

  function SetState(rows: map<nat, Cell>, id: nat, state: DataState): map<nat, Cell>
    requires id in rows
  {
    rows[id := rows[id].(state := state)]
  }

  /** `notify_all` on the row's condition variable. */
  function Notify(pcs: seq<Pc>, id: nat): seq<Pc> {
    seq(|pcs|, i requires 0 <= i < |pcs| => if pcs[i] == Asleep(id) then Rewake(id, false) else pcs[i])
  }

  function Acquire(s: Sys, t: nat): Sys
    requires t < |s.pcs| && (WantsTable(s.pcs[t]) || WantsRow(s.pcs[t]).Some?)
  {
    var pc := s.pcs[t];
    var s' := SetPc(s, t, Got(pc, s.entries));
    if WantsTable(pc) then s'.(table := Some(t)) else s'.(rowLocks := s.rowLocks[WantsRow(pc).value := t])
  }

  /** The row a thread has found. */
  function Found(pc: Pc): Option<nat> {
    match pc
    case Asleep(id) => Some(id)
    case SwapTell(id) => Some(id)
    case SwapErase(id) => Some(id)
    case ClearTell(id) => Some(id)
    case ClearErase(id) => Some(id)
    case _ => if WantsRow(pc).Some? then WantsRow(pc) else HoldsRow(pc)
  }

  function FreeRow(s: Sys, id: nat): map<nat, nat> {
    s.rowLocks - {id}
  }

  function WithNewRow(s: Sys): Sys {
    var id := s.idCounter + 1;
    s.(idCounter := id, entries := s.entries + {id}, rows := s.rows[id := Cell(DataState.Queued, None)])
  }

  /** `queue`, inside the table lock. */
  function QueueRow(s: Sys, t: nat): Sys
    requires t < |s.pcs|
  {
    var moved := SetPc(s, t, Exit);
    if |s.entries| >= QUEUE_RECV_MAX then moved else WithNewRow(moved)
  }

  /** `wait`, both locks held: a swapped row is erased, any other is marked; the table lock goes, and
      `wait_for` first evaluates its predicate. */
  function Register(s: Sys, t: nat, id: nat): Sys
    requires t < |s.pcs| && id in s.rows
  {
    var s' := SetPc(s, t, Recheck(id, false)).(table := None);
    if s.rows[id].state == Swapped then s'.(entries := s.entries - {id})
    else s'.(rows := SetState(s.rows, id, Waiting))
  }

  /** The loop of `wait_for`: leave if the row is swapped or time is up, else sleep. */
  function CheckPredicate(s: Sys, t: nat, id: nat, late: bool): Sys
    requires t < |s.pcs| && id in s.rows
  {
    SetPc(s, t, AfterLook(s.rows[id].state, id, late)).(rowLocks := FreeRow(s, id))
  }

  function AfterLook(state: DataState, id: nat, late: bool): Pc {
    if state == Swapped then TakeWant(id, true) else if late then TakeWant(id, false) else Asleep(id)
  }

  /** The swap at the end of `wait(buffer)`. */
  function TakeOut(s: Sys, t: nat, id: nat): Sys
    requires t < |s.pcs| && |s.buffers| == |s.pcs| && id in s.rows
  {
    var token := s.rows[id].token;
    SetPc(s, t, Idle).(
      rowLocks := FreeRow(s, id), buffers := s.buffers[t := token],
      rows := s.rows[id := s.rows[id].(token := s.buffers[t])],
      handed := if token.Some? then s.handed + [token.value] else s.handed)
  }

  /** `swap_notify`, both locks held. */
  function SwapIn(s: Sys, t: nat, id: nat): Sys
    requires t < |s.pcs| && id in s.rows
  {
    SetPc(s, t, if s.rows[id].state == Waiting then SwapTell(id) else Exit).(
      rowLocks := FreeRow(s, id), tokens := s.tokens + 1, rows := s.rows[id := Cell(Swapped, Some(s.tokens))])
  }

  /** One row of `clear`, both locks held. */
  function MarkCleared(s: Sys, t: nat, id: nat): Sys
    requires t < |s.pcs| && id in s.rows
  {
    SetPc(s, t, ClearTell(id)).(rowLocks := FreeRow(s, id), rows := SetState(s.rows, id, Swapped))
  }

  function Tell(s: Sys, t: nat, id: nat, next: Pc): Sys
    requires t < |s.pcs|
  {
    s.(pcs := Notify(s.pcs[t := next], id))
  }

  /** One row of `remove_obsolete`, both locks held; `drop` says it is too old. */
  function DropObsolete(s: Sys, t: nat, id: nat, todo: set<nat>, drop: bool): Sys
    requires t < |s.pcs|
  {
    SetPc(s, t, ObsTable(todo - {id})).(
      rowLocks := FreeRow(s, id), entries := if drop then s.entries - {id} else s.entries)
  }

  /** The step of a thread that waits for no lock. The row it has found exists (see `Known`). */
  function Work(s: Sys, t: nat, pick: nat, drop: bool): Sys
    requires t < |s.pcs| && |s.buffers| == |s.pcs|
    requires Found(s.pcs[t]).Some? ==> Found(s.pcs[t]).value in s.rows
  {
    match s.pcs[t]
    case QueueIn => QueueRow(s, t)
    case WaitTable(id) => SetPc(s, t, if id in s.entries then WaitRow(id) else Exit)
    case WaitBoth(id) => Register(s, t, id)
    case Recheck(id, late) => CheckPredicate(s, t, id, late)
    case TakeIn(id, _) => TakeOut(s, t, id)
    case SwapTable(id) => SetPc(s, t, if id in s.entries then SwapRow(id) else Exit)
    case SwapBoth(id) => SwapIn(s, t, id)
    case SwapTell(id) => Tell(s, t, id, SwapErase(id))
    case SwapErase(id) => SetPc(s, t, Exit).(entries := s.entries - {id})
    case ClearTable => SetPc(s, t, if s.entries == {} then Exit else ClearRow(pick))
    case ClearBoth(id) => MarkCleared(s, t, id)
    case ClearTell(id) => Tell(s, t, id, ClearErase(id))
    case ClearErase(id) => SetPc(s, t, ClearTable).(entries := s.entries - {id})
    case ObsTable(todo) => SetPc(s, t, if todo == {} then Exit else ObsRow(pick, todo))
    case ObsBoth(id, todo) => DropObsolete(s, t, id, todo, drop)
    case Exit => SetPc(s, t, Idle).(table := None)
    case _ => s
  }

  function Step(s: Sys, a: Action): Sys {
    if !Enabled(s, a) then s else
    match a
    case Start(t, op) =>
      SetPc(s, t, Entry(op)).(buffers := if op.Wait? then s.buffers[t := None] else s.buffers)
    case Go(t, pick, drop) =>
      if WantsTable(s.pcs[t]) || WantsRow(s.pcs[t]).Some? then Acquire(s, t) else Work(s, t, pick, drop)
    case Timeout(t) => SetPc(s, t, Rewake(s.pcs[t].id, true))
    case Spurious(t) => SetPc(s, t, Rewake(s.pcs[t].id, false))
  }

  function Run(s: Sys, acts: seq<Action>): Sys
    decreases |acts|
  {
    if acts == [] then s else Run(Step(s, acts[0]), acts[1..])
  }

  // ----- the invariant, part by part -----

  /** Each lock has at most one owner, and an owner stands where the code holds the lock. */
  ghost predicate Owners(pcs: seq<Pc>, table: Option<nat>, rowLocks: map<nat, nat>) {
    && (forall t :: 0 <= t < |pcs| ==> (HoldsTable(pcs[t]) <==> table == Some(t)))
    && (table.Some? ==> table.value < |pcs|)
    && (forall t :: 0 <= t < |pcs| && HoldsRow(pcs[t]).Some? ==>
          HoldsRow(pcs[t]).value in rowLocks && rowLocks[HoldsRow(pcs[t]).value] == t)
    && (forall id :: id in rowLocks ==> rowLocks[id] < |pcs| && HoldsRow(pcs[rowLocks[id]]) == Some(id))
  }

  predicate Registered(pc: Pc) {
    pc.Recheck? || pc.Asleep? || pc.Rewake? || pc.TakeWant? || pc.TakeIn?
  }

  /** Every row in use exists; a registered thread's row is no longer `Queued`. */
  ghost predicate Known(pcs: seq<Pc>, entries: set<nat>, rows: map<nat, Cell>, idCounter: nat) {
    && entries <= rows.Keys
    && (forall id :: id in rows ==> 1 <= id <= idCounter)
    && (forall t :: 0 <= t < |pcs| ==> PlaceKnown(pcs[t], rows))
  }

  predicate PlaceKnown(pc: Pc, rows: map<nat, Cell>) {
    && (Found(pc).Some? ==> Found(pc).value in rows)
    && (Registered(pc) ==> pc.id in rows && rows[pc.id].state != DataState.Queued)
    && (pc.ObsTable? ==> pc.todo <= rows.Keys)
    && (pc.ObsRow? || pc.ObsBoth? ==> pc.todo <= rows.Keys)
  }

  predicate Tells(pc: Pc, id: nat) {
    pc == SwapTell(id) || pc == ClearTell(id)
  }

  ghost predicate SomeoneTells(pcs: seq<Pc>, id: nat) {
    exists u :: 0 <= u < |pcs| && Tells(pcs[u], id)
  }

  /** No lost wake-up: whoever sleeps on a swapped row is about to be notified. */
  ghost predicate NoLostWakeUp(pcs: seq<Pc>, rows: map<nat, Cell>) {
    forall t :: 0 <= t < |pcs| && pcs[t].Asleep? && pcs[t].id in rows && rows[pcs[t].id].state == Swapped ==>
      SomeoneTells(pcs, pcs[t].id)
  }

  /** The bytes of one `swap_notify` lie in one row, or were handed to one caller, or neither. */
  ghost predicate Linear(rows: map<nat, Cell>, tokens: nat, handed: seq<nat>) {
    && (forall id :: id in rows && rows[id].token.Some? ==> rows[id].token.value < tokens && rows[id].token.value !in handed)
    && (forall i, j :: i in rows && j in rows && i != j && rows[i].token.Some? ==> rows[i].token != rows[j].token)
    && (forall k :: 0 <= k < |handed| ==> handed[k] < tokens)
    && (forall j, k :: 0 <= j < k < |handed| ==> handed[j] != handed[k])
  }

  predicate InsideWait(pc: Pc) {
    Registered(pc) || pc.WaitWant? || pc.WaitTable? || pc.WaitRow? || pc.WaitBoth?
  }

  /** A waiter enters with an empty buffer and keeps it until it takes the row's. */
  ghost predicate EmptyBuffers(pcs: seq<Pc>, buffers: seq<Option<nat>>) {
    |buffers| == |pcs|
    && forall t :: 0 <= t < |pcs| && InsideWait(pcs[t]) ==> buffers[t] == None
  }

  ghost predicate Inv(s: Sys) {
    && Owners(s.pcs, s.table, s.rowLocks)
    && Known(s.pcs, s.entries, s.rows, s.idCounter)
    && NoLostWakeUp(s.pcs, s.rows)
    && Linear(s.rows, s.tokens, s.handed)
    && EmptyBuffers(s.pcs, s.buffers)
  }

  // ----- what each part needs of a step -----

  /** The locks after thread `t` moves to `pc`: it releases what it no longer holds and takes what it
      newly holds, which was free. */
  lemma OwnersAfter(pcs: seq<Pc>, table: Option<nat>, rowLocks: map<nat, nat>, t: nat, pc: Pc,
                    table': Option<nat>, rowLocks': map<nat, nat>)
    requires Owners(pcs, table, rowLocks) && t < |pcs|
    requires table' == if HoldsTable(pc) then Some(t) else if HoldsTable(pcs[t]) then None else table
    requires HoldsTable(pc) && !HoldsTable(pcs[t]) ==> table == None
    requires HoldsRow(pc) == HoldsRow(pcs[t]) ==> rowLocks' == rowLocks
    requires HoldsRow(pc) != HoldsRow(pcs[t]) ==>
               HoldsRow(pc) == None || HoldsRow(pcs[t]) == None
    requires HoldsRow(pc) == None && HoldsRow(pcs[t]).Some? ==> rowLocks' == rowLocks - {HoldsRow(pcs[t]).value}
    requires HoldsRow(pcs[t]) == None && HoldsRow(pc).Some? ==>
               HoldsRow(pc).value !in rowLocks && rowLocks' == rowLocks[HoldsRow(pc).value := t]
    ensures Owners(pcs[t := pc], table', rowLocks')
  {
  }

  lemma OwnersAfterNotify(pcs: seq<Pc>, table: Option<nat>, rowLocks: map<nat, nat>, id: nat)
    requires Owners(pcs, table, rowLocks)
    ensures Owners(Notify(pcs, id), table, rowLocks)
  {
    var pcs' := Notify(pcs, id);
    assert forall t :: 0 <= t < |pcs| ==> HoldsTable(pcs'[t]) == HoldsTable(pcs[t]) && HoldsRow(pcs'[t]) == HoldsRow(pcs[t]);
  }

  lemma KnownAfter(pcs: seq<Pc>, entries: set<nat>, rows: map<nat, Cell>, idCounter: nat, t: nat, pc: Pc)
    requires Known(pcs, entries, rows, idCounter) && t < |pcs| && PlaceKnown(pc, rows)
    ensures Known(pcs[t := pc], entries, rows, idCounter)
  {
  }

  lemma KnownAfterNotify(pcs: seq<Pc>, entries: set<nat>, rows: map<nat, Cell>, idCounter: nat, id: nat)
    requires Known(pcs, entries, rows, idCounter)
    ensures Known(Notify(pcs, id), entries, rows, idCounter)
  {
    var pcs' := Notify(pcs, id);
    forall t | 0 <= t < |pcs| ensures PlaceKnown(pcs'[t], rows) {
      assert PlaceKnown(pcs[t], rows);
    }
  }

  /** Rows may appear, and a row's state may move on from `Queued` but not back. */
  lemma KnownAfterRows(pcs: seq<Pc>, entries: set<nat>, rows: map<nat, Cell>, idCounter: nat,
                       entries': set<nat>, rows': map<nat, Cell>, idCounter': nat)
    requires Known(pcs, entries, rows, idCounter) && idCounter <= idCounter' && entries' <= rows'.Keys
    requires rows.Keys <= rows'.Keys && forall id :: id in rows' ==> 1 <= id <= idCounter'
    requires forall id :: id in rows && rows[id].state != DataState.Queued ==> rows'[id].state != DataState.Queued
    ensures Known(pcs, entries', rows', idCounter')
  {
    forall t | 0 <= t < |pcs| ensures PlaceKnown(pcs[t], rows') {
      assert PlaceKnown(pcs[t], rows);
    }
  }

  lemma WakeUpAfter(pcs: seq<Pc>, rows: map<nat, Cell>, t: nat, pc: Pc)
    requires NoLostWakeUp(pcs, rows) && t < |pcs| && !pcs[t].SwapTell? && !pcs[t].ClearTell?
    requires pc.Asleep? && pc.id in rows ==> rows[pc.id].state != Swapped
    ensures NoLostWakeUp(pcs[t := pc], rows)
  {
    var pcs' := pcs[t := pc];
    forall u | 0 <= u < |pcs| && pcs'[u].Asleep? && pcs'[u].id in rows && rows[pcs'[u].id].state == Swapped
      ensures SomeoneTells(pcs', pcs'[u].id)
    {
      var v :| 0 <= v < |pcs| && Tells(pcs[v], pcs[u].id);
      assert Tells(pcs'[v], pcs[u].id);
    }
  }

  /** A sleeper stays covered when only row `id` changes state, and either someone tells `id` or nobody sleeps on it. */
  lemma WakeUpAfterRow(pcs: seq<Pc>, rows: map<nat, Cell>, id: nat, cell: Cell)
    requires NoLostWakeUp(pcs, rows)
    requires cell.state == Swapped && (id !in rows || rows[id].state != Swapped) ==>
               SomeoneTells(pcs, id) || forall u :: 0 <= u < |pcs| ==> pcs[u] != Asleep(id)
    ensures NoLostWakeUp(pcs, rows[id := cell])
  {
  }

  /** `notify_all` leaves nobody asleep on the row; sleepers on other rows have other tellers. */
  lemma WakeUpAfterTell(pcs: seq<Pc>, table: Option<nat>, rowLocks: map<nat, nat>, rows: map<nat, Cell>,
                        t: nat, id: nat, pc: Pc)
    requires NoLostWakeUp(pcs, rows) && Owners(pcs, table, rowLocks)
    requires t < |pcs| && Tells(pcs[t], id) && !pc.Asleep?
    ensures NoLostWakeUp(Notify(pcs[t := pc], id), rows)
  {
    forall other | SomeoneTells(pcs, other) ensures other == id {
      var v :| 0 <= v < |pcs| && Tells(pcs[v], other);
      assert table == Some(t) && table == Some(v);
    }
  }

  /** A step that moves thread `t` and nothing but the locks. */
  lemma MoveKeepsInv(s: Sys, s': Sys, t: nat, pc: Pc)
    requires Inv(s) && t < |s.pcs| && s' == s.(pcs := s.pcs[t := pc], table := s'.table, rowLocks := s'.rowLocks)
    requires Owners(s'.pcs, s'.table, s'.rowLocks)
    requires PlaceKnown(pc, s.rows) && !s.pcs[t].SwapTell? && !s.pcs[t].ClearTell?
    requires pc.Asleep? ==> s.rows[pc.id].state != Swapped
    requires InsideWait(pc) ==> InsideWait(s.pcs[t])
    ensures Inv(s')
  {
    KnownAfter(s.pcs, s.entries, s.rows, s.idCounter, t, pc);
    WakeUpAfter(s.pcs, s.rows, t, pc);
  }

  lemma StartKeepsInv(s: Sys, t: nat, op: Op)
    requires Inv(s) && Enabled(s, Start(t, op))
    ensures Inv(Step(s, Start(t, op)))
  {
    OwnersAfter(s.pcs, s.table, s.rowLocks, t, Entry(op), s.table, s.rowLocks);
    KnownAfter(s.pcs, s.entries, s.rows, s.idCounter, t, Entry(op));
    WakeUpAfter(s.pcs, s.rows, t, Entry(op));
  }

  lemma WakeKeepsInv(s: Sys, t: nat, late: bool)
    requires Inv(s) && t < |s.pcs| && s.pcs[t].Asleep?
    ensures Inv(SetPc(s, t, Rewake(s.pcs[t].id, late)))
  {
    var pc := Rewake(s.pcs[t].id, late);
    assert PlaceKnown(s.pcs[t], s.rows);
    OwnersAfter(s.pcs, s.table, s.rowLocks, t, pc, s.table, s.rowLocks);
    MoveKeepsInv(s, SetPc(s, t, pc), t, pc);
  }

  /** Getting a lock changes nothing but what is held. */
  lemma GotLocks(pc: Pc, entries: set<nat>)
    ensures WantsTable(pc) ==>
      HoldsTable(Got(pc, entries)) && !HoldsTable(pc) && HoldsRow(Got(pc, entries)) == HoldsRow(pc) == None
    ensures WantsRow(pc).Some? ==>
      HoldsTable(Got(pc, entries)) == HoldsTable(pc) && HoldsRow(Got(pc, entries)) == WantsRow(pc) && HoldsRow(pc) == None
    ensures WantsTable(pc) ==> WantsRow(pc) == None
  {
  }

  lemma GotPlace(pc: Pc, entries: set<nat>, rows: map<nat, Cell>)
    requires PlaceKnown(pc, rows) && entries <= rows.Keys && (WantsTable(pc) || WantsRow(pc).Some?)
    ensures PlaceKnown(Got(pc, entries), rows) && !Got(pc, entries).Asleep? && !pc.SwapTell? && !pc.ClearTell?
    ensures InsideWait(Got(pc, entries)) ==> InsideWait(pc)
  {
  }

  lemma PlaceIsKnown(s: Sys, t: nat)
    requires Inv(s) && t < |s.pcs|
    ensures PlaceKnown(s.pcs[t], s.rows) && s.entries <= s.rows.Keys
    ensures HoldsTable(s.pcs[t]) <==> s.table == Some(t)
  {
  }

  lemma AcquireKeepsInv(s: Sys, t: nat)
    requires Inv(s) && CanGo(s, t) && (WantsTable(s.pcs[t]) || WantsRow(s.pcs[t]).Some?)
    ensures Inv(Acquire(s, t))
  {
    var pc := Got(s.pcs[t], s.entries);
    PlaceIsKnown(s, t);
    GotLocks(s.pcs[t], s.entries);
    GotPlace(s.pcs[t], s.entries, s.rows);
    OwnersAfter(s.pcs, s.table, s.rowLocks, t, pc, Acquire(s, t).table, Acquire(s, t).rowLocks);
    MoveKeepsInv(s, Acquire(s, t), t, pc);
  }

  /** Inside the table lock: move on to `pc`, or give the lock back. */
  lemma TableMoveKeepsInv(s: Sys, t: nat, pc: Pc)
    requires Inv(s) && t < |s.pcs| && HoldsTable(s.pcs[t]) && HoldsRow(s.pcs[t]) == None && HoldsRow(pc) == None
    requires PlaceKnown(pc, s.rows) && !s.pcs[t].SwapTell? && !s.pcs[t].ClearTell?
    requires !pc.Asleep? && (InsideWait(pc) ==> InsideWait(s.pcs[t]))
    ensures Inv(SetPc(s, t, pc).(table := if HoldsTable(pc) then s.table else None))
  {
    assert s.table == Some(t);
    var s' := SetPc(s, t, pc).(table := if HoldsTable(pc) then s.table else None);
    OwnersAfter(s.pcs, s.table, s.rowLocks, t, pc, s'.table, s.rowLocks);
    MoveKeepsInv(s, s', t, pc);
  }

  lemma StayInTableKeepsInv(s: Sys, t: nat, pc: Pc)
    requires Inv(s) && t < |s.pcs| && HoldsTable(s.pcs[t]) && HoldsRow(s.pcs[t]) == None
    requires HoldsTable(pc) && HoldsRow(pc) == None
    requires PlaceKnown(pc, s.rows) && !s.pcs[t].SwapTell? && !s.pcs[t].ClearTell?
    requires InsideWait(pc) ==> InsideWait(s.pcs[t])
    ensures Inv(SetPc(s, t, pc))
  {
    TableMoveKeepsInv(s, t, pc);
  }

  /** Give the row lock back and move on, outside or inside the table lock. */
  lemma RowMoveKeepsInv(s: Sys, t: nat, pc: Pc)
    requires Inv(s) && t < |s.pcs| && HoldsRow(s.pcs[t]).Some? && HoldsRow(pc) == None
    requires HoldsTable(pc) == HoldsTable(s.pcs[t])
    requires PlaceKnown(pc, s.rows) && (InsideWait(pc) ==> InsideWait(s.pcs[t]))
    requires pc.Asleep? ==> s.rows[pc.id].state != Swapped
    ensures Inv(SetPc(s, t, pc).(rowLocks := FreeRow(s, HoldsRow(s.pcs[t]).value)))
  {
    assert HoldsTable(s.pcs[t]) <==> s.table == Some(t);
    var s' := SetPc(s, t, pc).(rowLocks := FreeRow(s, HoldsRow(s.pcs[t]).value));
    OwnersAfter(s.pcs, s.table, s.rowLocks, t, pc, s.table, s'.rowLocks);
    MoveKeepsInv(s, s', t, pc);
  }

  /** Erasing entries only. */
  lemma EraseKeepsInv(s: Sys, entries: set<nat>)
    requires Inv(s) && entries <= s.entries
    ensures Inv(s.(entries := entries))
  {
  }

  lemma TellKeepsPlaces(s: Sys, t: nat, id: nat, next: Pc)
    requires Inv(s) && t < |s.pcs| && Tells(s.pcs[t], id) && (next == SwapErase(id) || next == ClearErase(id))
    ensures Owners(Notify(s.pcs[t := next], id), s.table, s.rowLocks)
    ensures Known(Notify(s.pcs[t := next], id), s.entries, s.rows, s.idCounter)
  {
    PlaceIsKnown(s, t);
    OwnersAfter(s.pcs, s.table, s.rowLocks, t, next, s.table, s.rowLocks);
    OwnersAfterNotify(s.pcs[t := next], s.table, s.rowLocks, id);
    KnownAfter(s.pcs, s.entries, s.rows, s.idCounter, t, next);
    KnownAfterNotify(s.pcs[t := next], s.entries, s.rows, s.idCounter, id);
  }

  lemma TellKeepsInv(s: Sys, t: nat, id: nat, next: Pc)
    requires Inv(s) && t < |s.pcs| && Tells(s.pcs[t], id) && (next == SwapErase(id) || next == ClearErase(id))
    ensures Inv(Tell(s, t, id, next))
  {
    TellKeepsPlaces(s, t, id, next);
    assert s.pcs[t := next][t] == next;
    WakeUpAfterTell(s.pcs, s.table, s.rowLocks, s.rows, t, id, next);
    BuffersAfterTell(s.pcs, s.buffers, t, id, next);
  }

  lemma BuffersAfterTell(pcs: seq<Pc>, buffers: seq<Option<nat>>, t: nat, id: nat, next: Pc)
    requires EmptyBuffers(pcs, buffers) && t < |pcs| && !InsideWait(next)
    ensures EmptyBuffers(Notify(pcs[t := next], id), buffers)
  {
  }

  /** A new row is in nobody's way. */
  lemma NewRowKeepsInv(s: Sys)
    requires Inv(s)
    ensures Inv(WithNewRow(s))
  {
    var id := s.idCounter + 1;
    assert id !in s.rows;
    KnownAfterRows(s.pcs, s.entries, s.rows, s.idCounter, s.entries + {id},
                   s.rows[id := Cell(DataState.Queued, None)], id);
    WakeUpAfterRow(s.pcs, s.rows, id, Cell(DataState.Queued, None));
  }

  lemma QueueMoves(s: Sys, t: nat)
    requires Inv(s) && t < |s.pcs| && s.pcs[t].QueueIn?
    ensures Inv(SetPc(s, t, Exit))
  {
    StayInTableKeepsInv(s, t, Exit);
  }

  lemma QueueKeepsInv(s: Sys, t: nat)
    requires Inv(s) && t < |s.pcs| && s.pcs[t].QueueIn?
    ensures Inv(QueueRow(s, t))
  {
    QueueMoves(s, t);
    if |s.entries| < QUEUE_RECV_MAX {
      NewRowKeepsInv(SetPc(s, t, Exit));
    }
  }

  /** A row that is not swapped may be marked as waited on. */
  lemma MarkKeepsInv(s: Sys, id: nat)
    requires Inv(s) && id in s.rows && s.rows[id].state != Swapped
    ensures Inv(s.(rows := SetState(s.rows, id, Waiting)))
  {
    KnownAfterRows(s.pcs, s.entries, s.rows, s.idCounter, s.entries, SetState(s.rows, id, Waiting), s.idCounter);
    WakeUpAfterRow(s.pcs, s.rows, id, s.rows[id].(state := Waiting));
  }

  lemma RegisterMoves(s: Sys, t: nat, id: nat)
    requires Inv(s) && t < |s.pcs| && s.pcs[t] == WaitBoth(id) && s.rows[id].state != DataState.Queued
    ensures Inv(SetPc(s, t, Recheck(id, false)).(table := None))
  {
    var pc := Recheck(id, false);
    var s' := SetPc(s, t, pc).(table := None);
    assert PlaceKnown(s.pcs[t], s.rows);
    assert s.table == Some(t);
    OwnersAfter(s.pcs, s.table, s.rowLocks, t, pc, None, s.rowLocks);
    MoveKeepsInv(s, s', t, pc);
  }

  lemma RegisterKeepsInv(s: Sys, t: nat, id: nat)
    requires Inv(s) && t < |s.pcs| && s.pcs[t] == WaitBoth(id) && id in s.rows
    ensures Inv(Register(s, t, id))
  {
    if s.rows[id].state == Swapped {
      RegisterMoves(s, t, id);
      EraseKeepsInv(SetPc(s, t, Recheck(id, false)).(table := None), s.entries - {id});
    } else {
      MarkKeepsInv(s, id);
      RegisterMoves(s.(rows := SetState(s.rows, id, Waiting)), t, id);
    }
  }

  lemma LinearAfterTake(rows: map<nat, Cell>, tokens: nat, handed: seq<nat>, id: nat)
    requires Linear(rows, tokens, handed) && id in rows
    ensures Linear(rows[id := rows[id].(token := None)], tokens,
                   if rows[id].token.Some? then handed + [rows[id].token.value] else handed)
  {
  }

  lemma BuffersAfterTake(pcs: seq<Pc>, buffers: seq<Option<nat>>, t: nat, token: Option<nat>)
    requires EmptyBuffers(pcs, buffers) && t < |pcs| && InsideWait(pcs[t])
    ensures EmptyBuffers(pcs[t := Idle], buffers[t := token]) && buffers[t] == None
  {
  }

  lemma TakeKeepsInv(s: Sys, t: nat, id: nat)
    requires Inv(s) && t < |s.pcs| && s.pcs[t].TakeIn? && s.pcs[t].id == id && id in s.rows
    ensures Inv(TakeOut(s, t, id))
  {
    var s' := TakeOut(s, t, id);
    BuffersAfterTake(s.pcs, s.buffers, t, s.rows[id].token);
    RowMoveKeepsInv(s, t, Idle);
    KnownAfterRows(s'.pcs, s.entries, s.rows, s.idCounter, s.entries, s'.rows, s.idCounter);
    WakeUpAfterRow(s'.pcs, s.rows, id, s'.rows[id]);
    LinearAfterTake(s.rows, s.tokens, s.handed, id);
  }

  /** Setting a row to swapped, once its sleepers, if any, are about to be told. */
  lemma SwappedKeepsInv(s: Sys, id: nat, token: Option<nat>, tokens: nat)
    requires Inv(s) && id in s.rows
    requires SomeoneTells(s.pcs, id) || s.rows[id].state == Swapped
             || forall u :: 0 <= u < |s.pcs| ==> s.pcs[u] != Asleep(id)
    requires (token == s.rows[id].token && tokens == s.tokens) || (token == Some(s.tokens) && tokens == s.tokens + 1)
    ensures Inv(s.(rows := s.rows[id := Cell(Swapped, token)], tokens := tokens))
  {
    var rows := s.rows[id := Cell(Swapped, token)];
    KnownAfterRows(s.pcs, s.entries, s.rows, s.idCounter, s.entries, rows, s.idCounter);
    WakeUpAfterRow(s.pcs, s.rows, id, Cell(Swapped, token));
    LinearAfterSwap(s.rows, s.tokens, s.handed, id, token, tokens);
  }

  lemma LinearAfterSwap(rows: map<nat, Cell>, tokens: nat, handed: seq<nat>, id: nat, token: Option<nat>, tokens': nat)
    requires Linear(rows, tokens, handed) && id in rows
    requires (token == rows[id].token && tokens' == tokens) || (token == Some(tokens) && tokens' == tokens + 1)
    ensures Linear(rows[id := Cell(Swapped, token)], tokens', handed)
  {
  }

  /** After the row lock of `swap_notify` is given back: sleepers, if any, are about to be told. */
  lemma SwapMoves(s: Sys, t: nat, id: nat, pc: Pc)
    requires Inv(s) && t < |s.pcs| && s.pcs[t] == SwapBoth(id) && id in s.rows
    requires pc == SwapTell(id) || pc == Exit
    ensures Inv(SetPc(s, t, pc).(rowLocks := FreeRow(s, id)))
  {
    assert PlaceKnown(pc, s.rows);
    RowMoveKeepsInv(s, t, pc);
  }

  /** Nobody sleeps on a queued row. */
  lemma SleepersCovered(s: Sys, t: nat, id: nat, pc: Pc)
    requires Inv(s) && t < |s.pcs| && id in s.rows && !pc.Asleep?
    requires pc == SwapTell(id) || s.rows[id].state != Waiting
    ensures var pcs := s.pcs[t := pc];
            SomeoneTells(pcs, id) || s.rows[id].state == Swapped || forall u :: 0 <= u < |pcs| ==> pcs[u] != Asleep(id)
  {
    var pcs := s.pcs[t := pc];
    if pc == SwapTell(id) {
      assert Tells(pcs[t], id);
    } else if s.rows[id].state == DataState.Queued {
      forall u | 0 <= u < |pcs| ensures pcs[u] != Asleep(id) {
        if u != t { PlaceIsKnown(s, u); }
      }
    }
  }

  lemma SwapKeepsInv(s: Sys, t: nat, id: nat)
    requires Inv(s) && t < |s.pcs| && s.pcs[t] == SwapBoth(id) && id in s.rows
    ensures Inv(SwapIn(s, t, id))
  {
    var pc := if s.rows[id].state == Waiting then SwapTell(id) else Exit;
    SwapMoves(s, t, id, pc);
    SleepersCovered(s, t, id, pc);
    SwappedKeepsInv(SetPc(s, t, pc).(rowLocks := FreeRow(s, id)), id, Some(s.tokens), s.tokens + 1);
  }

  lemma ClearKeepsInv(s: Sys, t: nat, id: nat)
    requires Inv(s) && t < |s.pcs| && s.pcs[t] == ClearBoth(id) && id in s.rows
    ensures Inv(MarkCleared(s, t, id))
  {
    var moved := SetPc(s, t, ClearTell(id)).(rowLocks := FreeRow(s, id));
    RowMoveKeepsInv(s, t, ClearTell(id));
    assert Tells(moved.pcs[t], id);
    SwappedKeepsInv(moved, id, s.rows[id].token, s.tokens);
    assert s.rows[id].(state := Swapped) == Cell(Swapped, s.rows[id].token);
  }

  lemma CheckKeepsInv(s: Sys, t: nat, id: nat, late: bool)
    requires Inv(s) && t < |s.pcs| && s.pcs[t] == Recheck(id, late) && id in s.rows
    ensures Inv(CheckPredicate(s, t, id, late))
  {
    PlaceIsKnown(s, t);
    LookedPlaces(s.rows, id, late);
    RowMoveKeepsInv(s, t, AfterLook(s.rows[id].state, id, late));
  }

  lemma LookedPlaces(rows: map<nat, Cell>, id: nat, late: bool)
    requires PlaceKnown(Recheck(id, late), rows)
    ensures var pc := AfterLook(rows[id].state, id, late);
            && PlaceKnown(pc, rows) && HoldsRow(pc) == None && !HoldsTable(pc)
            && (pc.Asleep? ==> pc.id == id && rows[id].state != Swapped)
  {
  }

  lemma DropKeepsInv(s: Sys, t: nat, id: nat, todo: set<nat>, drop: bool)
    requires Inv(s) && t < |s.pcs| && s.pcs[t] == ObsBoth(id, todo)
    ensures Inv(DropObsolete(s, t, id, todo, drop))
  {
    DropMoves(s, t, id, todo);
    EraseKeepsInv(SetPc(s, t, ObsTable(todo - {id})).(rowLocks := FreeRow(s, id)),
                  DropObsolete(s, t, id, todo, drop).entries);
  }

  lemma DropMoves(s: Sys, t: nat, id: nat, todo: set<nat>)
    requires Inv(s) && t < |s.pcs| && s.pcs[t] == ObsBoth(id, todo)
    ensures Inv(SetPc(s, t, ObsTable(todo - {id})).(rowLocks := FreeRow(s, id)))
  {
    PlaceIsKnown(s, t);
    GoesOn(s.rows, id, todo);
    RowMoveKeepsInv(s, t, ObsTable(todo - {id}));
  }

  lemma GoesOn(rows: map<nat, Cell>, id: nat, todo: set<nat>)
    requires PlaceKnown(ObsBoth(id, todo), rows)
    ensures PlaceKnown(ObsTable(todo - {id}), rows)
  {
  }

  lemma ErasedKeepsInv(s: Sys, t: nat, id: nat, pc: Pc)
    requires Inv(s) && t < |s.pcs| && (s.pcs[t] == SwapErase(id) || s.pcs[t] == ClearErase(id))
    requires pc == Exit || pc == ClearTable
    ensures Inv(SetPc(s, t, pc).(entries := s.entries - {id}))
  {
    TableMoveKeepsInv(s, t, pc);
    assert SetPc(s, t, pc).(table := s.table) == SetPc(s, t, pc);
    EraseKeepsInv(SetPc(s, t, pc), s.entries - {id});
  }

  function LookedUp(s: Sys, t: nat, pick: nat): Pc
    requires t < |s.pcs|
  {
    match s.pcs[t]
    case WaitTable(id) => if id in s.entries then WaitRow(id) else Exit
    case SwapTable(id) => if id in s.entries then SwapRow(id) else Exit
    case ClearTable => if s.entries == {} then Exit else ClearRow(pick)
    case ObsTable(todo) => if todo == {} then Exit else ObsRow(pick, todo)
    case pc => pc
  }

  lemma LookKeepsInv(s: Sys, t: nat, pick: nat, drop: bool)
    requires Inv(s) && Enabled(s, Go(t, pick, drop))
    requires s.pcs[t].WaitTable? || s.pcs[t].SwapTable? || s.pcs[t].ClearTable? || s.pcs[t].ObsTable?
    ensures Inv(Work(s, t, pick, drop))
  {
    PlaceIsKnown(s, t);
    LookedUpFits(s, t, pick, drop);
    StayInTableKeepsInv(s, t, LookedUp(s, t, pick));
  }

  lemma LookedUpFits(s: Sys, t: nat, pick: nat, drop: bool)
    requires Enabled(s, Go(t, pick, drop)) && PlaceKnown(s.pcs[t], s.rows) && s.entries <= s.rows.Keys
    requires s.pcs[t].WaitTable? || s.pcs[t].SwapTable? || s.pcs[t].ClearTable? || s.pcs[t].ObsTable?
    ensures Work(s, t, pick, drop) == SetPc(s, t, LookedUp(s, t, pick))
    ensures var pc := LookedUp(s, t, pick);
            && HoldsTable(pc) && HoldsRow(pc) == None && PlaceKnown(pc, s.rows)
            && (InsideWait(pc) ==> InsideWait(s.pcs[t]))
  {
  }

  lemma WaitWorkKeepsInv(s: Sys, t: nat, pick: nat, drop: bool)
    requires Inv(s) && Enabled(s, Go(t, pick, drop))
    requires s.pcs[t].WaitBoth? || s.pcs[t].Recheck? || s.pcs[t].TakeIn?
    ensures Inv(Work(s, t, pick, drop))
  {
    match s.pcs[t]
    case WaitBoth(id) => RegisterKeepsInv(s, t, id);
    case Recheck(id, late) => CheckKeepsInv(s, t, id, late);
    case TakeIn(id, _) => TakeKeepsInv(s, t, id);
  }

  lemma SwapWorkKeepsInv(s: Sys, t: nat, pick: nat, drop: bool)
    requires Inv(s) && Enabled(s, Go(t, pick, drop)) && (s.pcs[t].SwapBoth? || s.pcs[t].ClearBoth?)
    ensures Inv(Work(s, t, pick, drop))
  {
    if s.pcs[t].SwapBoth? {
      SwapKeepsInv(s, t, s.pcs[t].id);
    } else {
      ClearKeepsInv(s, t, s.pcs[t].id);
    }
  }

  lemma ObsoleteWorkKeepsInv(s: Sys, t: nat, pick: nat, drop: bool)
    requires Inv(s) && Enabled(s, Go(t, pick, drop)) && s.pcs[t].ObsBoth?
    ensures Inv(Work(s, t, pick, drop))
  {
    var ObsBoth(id, todo) := s.pcs[t];
    ObsoleteWorkDrops(s, t, pick, drop, id, todo);
    DropKeepsInv(s, t, id, todo, drop);
  }

  lemma ObsoleteWorkDrops(s: Sys, t: nat, pick: nat, drop: bool, id: nat, todo: set<nat>)
    requires Enabled(s, Go(t, pick, drop)) && s.pcs[t] == ObsBoth(id, todo)
    ensures Work(s, t, pick, drop) == DropObsolete(s, t, id, todo, drop)
  {
  }

  lemma ExitKeepsInv(s: Sys, t: nat)
    requires Inv(s) && t < |s.pcs| && s.pcs[t].Exit?
    ensures Inv(SetPc(s, t, Idle).(table := None))
  {
    TableMoveKeepsInv(s, t, Idle);
  }

  lemma TellWorkKeepsInv(s: Sys, t: nat, pick: nat, drop: bool)
    requires Inv(s) && Enabled(s, Go(t, pick, drop)) && (s.pcs[t].SwapTell? || s.pcs[t].ClearTell?)
    ensures Inv(Work(s, t, pick, drop))
  {
    var id := s.pcs[t].id;
    TellKeepsInv(s, t, id, if s.pcs[t].SwapTell? then SwapErase(id) else ClearErase(id));
  }

  lemma EraseWorkKeepsInv(s: Sys, t: nat, pick: nat, drop: bool)
    requires Inv(s) && Enabled(s, Go(t, pick, drop)) && (s.pcs[t].SwapErase? || s.pcs[t].ClearErase?)
    ensures Inv(Work(s, t, pick, drop))
  {
    ErasedKeepsInv(s, t, s.pcs[t].id, if s.pcs[t].SwapErase? then Exit else ClearTable);
  }

  lemma QueueOrExitKeepsInv(s: Sys, t: nat, pick: nat, drop: bool)
    requires Inv(s) && Enabled(s, Go(t, pick, drop)) && (s.pcs[t].QueueIn? || s.pcs[t].Exit?)
    ensures Inv(Work(s, t, pick, drop))
  {
    if s.pcs[t].QueueIn? {
      QueueKeepsInv(s, t);
    } else {
      ExitKeepsInv(s, t);
    }
  }

  lemma WorkKeepsInv(s: Sys, t: nat, pick: nat, drop: bool)
    requires Inv(s) && Enabled(s, Go(t, pick, drop))
    requires !WantsTable(s.pcs[t]) && WantsRow(s.pcs[t]) == None
    ensures Inv(Work(s, t, pick, drop))
  {
    var pc := s.pcs[t];
    if pc.WaitBoth? || pc.Recheck? || pc.TakeIn? {
      WaitWorkKeepsInv(s, t, pick, drop);
    } else if pc.SwapBoth? || pc.ClearBoth? {
      SwapWorkKeepsInv(s, t, pick, drop);
    } else if pc.ObsBoth? {
      ObsoleteWorkKeepsInv(s, t, pick, drop);
    } else if pc.WaitTable? || pc.SwapTable? || pc.ClearTable? || pc.ObsTable? {
      LookKeepsInv(s, t, pick, drop);
    } else if pc.QueueIn? || pc.Exit? {
      QueueOrExitKeepsInv(s, t, pick, drop);
    } else if pc.SwapTell? || pc.ClearTell? {
      TellWorkKeepsInv(s, t, pick, drop);
    } else {
      EraseWorkKeepsInv(s, t, pick, drop);
    }
  }

  lemma StepKeepsInv(s: Sys, a: Action)
    requires Inv(s)
    ensures Inv(Step(s, a))
  {
    if Enabled(s, a) {
      match a
      case Start(t, op) => StartKeepsInv(s, t, op);
      case Go(t, pick, drop) =>
        if WantsTable(s.pcs[t]) || WantsRow(s.pcs[t]).Some? {
          AcquireKeepsInv(s, t);
        } else {
          WorkKeepsInv(s, t, pick, drop);
        }
      case Timeout(t) => WakeKeepsInv(s, t, true);
      case Spurious(t) => WakeKeepsInv(s, t, false);
    }
  }

  lemma {:induction false} RunKeepsInv(s: Sys, acts: seq<Action>)
    requires Inv(s)
    ensures Inv(Run(s, acts))
    decreases |acts|
  {
    if acts != [] {
      StepKeepsInv(s, acts[0]);
      RunKeepsInv(Step(s, acts[0]), acts[1..]);
    }
  }

  lemma InitKeepsInv(threads: nat)
    ensures Inv(Init(threads))
  {
  }

  // ----- main results -----

  /** No lost wake-up, in every run: a thread asleep on a row that is swapped is about to be notified, by
      the thread that owns the table lock. So while nobody owns it, no sleeper's predicate is true. */
  lemma NoSleeperIsForgotten(threads: nat, acts: seq<Action>, t: nat)
    requires var s := Run(Init(threads), acts);
             t < |s.pcs| && s.pcs[t].Asleep? && s.pcs[t].id in s.rows && s.rows[s.pcs[t].id].state == Swapped
    ensures var s := Run(Init(threads), acts);
            s.table.Some? && s.table.value < |s.pcs| && Tells(s.pcs[s.table.value], s.pcs[t].id)
  {
    InitKeepsInv(threads);
    RunKeepsInv(Init(threads), acts);
    var s := Run(Init(threads), acts);
    var u :| 0 <= u < |s.pcs| && Tells(s.pcs[u], s.pcs[t].id);
    assert s.table == Some(u);
  }

  /** A thread asleep on a swapped row is woken by the very next step of the thread that owns the table
      lock, and nothing blocks that step. */
  ghost predicate WokenByOwner(s: Sys, t: nat, pick: nat, drop: bool)
    requires t < |s.pcs| && s.pcs[t].Asleep?
  {
    && s.table.Some? && CanGo(s, s.table.value) && Enabled(s, Go(s.table.value, pick, drop))
    && Step(s, Go(s.table.value, pick, drop)).pcs[t] == Rewake(s.pcs[t].id, false)
  }

  lemma SleeperIsWoken(threads: nat, acts: seq<Action>, t: nat, pick: nat, drop: bool)
    requires var s := Run(Init(threads), acts);
             t < |s.pcs| && s.pcs[t].Asleep? && IsSwapped(s.rows, s.pcs[t].id)
    ensures WokenByOwner(Run(Init(threads), acts), t, pick, drop)
  {
    InitKeepsInv(threads);
    RunKeepsInv(Init(threads), acts);
    OwnerWakes(Run(Init(threads), acts), t, pick, drop);
  }

  lemma OwnerWakes(s: Sys, t: nat, pick: nat, drop: bool)
    requires Inv(s) && t < |s.pcs| && s.pcs[t].Asleep? && IsSwapped(s.rows, s.pcs[t].id)
    ensures WokenByOwner(s, t, pick, drop)
  {
    var id := s.pcs[t].id;
    var u :| 0 <= u < |s.pcs| && Tells(s.pcs[u], id);
    PlaceIsKnown(s, u);
    RowCounted(s, id);
    TellWakes(s, t, u, pick, drop);
  }

  lemma TellWakes(s: Sys, t: nat, u: nat, pick: nat, drop: bool)
    requires t < |s.pcs| == |s.buffers| && u < |s.pcs| && s.pcs[t].Asleep? && s.pcs[t].id in s.rows
    requires Tells(s.pcs[u], s.pcs[t].id)
    ensures CanGo(s, u) && Enabled(s, Go(u, pick, drop))
    ensures Step(s, Go(u, pick, drop)).pcs[t] == Rewake(s.pcs[t].id, false)
  {
  }

  predicate IsSwapped(rows: map<nat, Cell>, id: nat) {
    id in rows && rows[id].state == Swapped
  }

  lemma SwappedAtRowWork(s: Sys, t: nat, pick: nat, drop: bool, id: nat)
    requires IsSwapped(s.rows, id) && Enabled(s, Go(t, pick, drop)) && HoldsRow(s.pcs[t]).Some?
    ensures IsSwapped(Work(s, t, pick, drop).rows, id) && Work(s, t, pick, drop).idCounter == s.idCounter
  {
  }

  lemma SwappedAtTableWork(s: Sys, t: nat, pick: nat, drop: bool, id: nat)
    requires IsSwapped(s.rows, id) && id <= s.idCounter && Enabled(s, Go(t, pick, drop)) && HoldsRow(s.pcs[t]) == None
    ensures IsSwapped(Work(s, t, pick, drop).rows, id) && id <= Work(s, t, pick, drop).idCounter
  {
    if !s.pcs[t].QueueIn? {
      TableWorkLeavesRows(s, t, pick, drop);
    }
  }

  lemma TableWorkLeavesRows(s: Sys, t: nat, pick: nat, drop: bool)
    requires Enabled(s, Go(t, pick, drop)) && HoldsRow(s.pcs[t]) == None && !s.pcs[t].QueueIn?
    ensures Work(s, t, pick, drop).rows == s.rows && Work(s, t, pick, drop).idCounter == s.idCounter
  {
  }

  lemma SwappedAtStep(s: Sys, a: Action, id: nat)
    requires IsSwapped(s.rows, id) && id <= s.idCounter
    ensures IsSwapped(Step(s, a).rows, id) && id <= Step(s, a).idCounter
  {
    if Enabled(s, a) && a.Go? {
      if HoldsRow(s.pcs[a.t]).Some? {
        SwappedAtRowWork(s, a.t, a.pick, a.drop, id);
      } else {
        SwappedAtTableWork(s, a.t, a.pick, a.drop, id);
      }
    }
  }

  /** Swapped is for ever: the predicate a waiter was notified about stays true until it looks. */
  lemma {:induction false} SwappedStays(s: Sys, acts: seq<Action>, id: nat)
    requires IsSwapped(s.rows, id) && id <= s.idCounter
    ensures IsSwapped(Run(s, acts).rows, id)
    decreases |acts|
  {
    if acts != [] {
      SwappedAtStep(s, acts[0], id);
      SwappedStays(Step(s, acts[0]), acts[1..], id);
    }
  }

  /** Once `swap_notify` or `clear` has run its section on the row a waiter is registered on, the waiter's
      next look at its predicate, whenever it comes, ends the wait with true. */
  lemma WaiterSeesSwap(s: Sys, u: nat, id: nat, acts: seq<Action>, t: nat, late: bool)
    requires Inv(s) && u < |s.pcs| && id in s.rows && (s.pcs[u] == SwapBoth(id) || s.pcs[u] == ClearBoth(id))
    requires var s' := Run(Step(s, Go(u, 0, false)), acts);
             t < |s'.pcs| && s'.pcs[t] == Recheck(id, late)
    ensures var s' := Run(Step(s, Go(u, 0, false)), acts);
            && id in s'.rows
            && CheckPredicate(s', t, id, late).pcs[t] == TakeWant(id, true)
  {
    SectionSwaps(s, u, id);
    SwappedStays(Step(s, Go(u, 0, false)), acts, id);
  }

  lemma SectionSwaps(s: Sys, u: nat, id: nat)
    requires Inv(s) && u < |s.pcs| && id in s.rows && (s.pcs[u] == SwapBoth(id) || s.pcs[u] == ClearBoth(id))
    ensures var s' := Step(s, Go(u, 0, false));
            IsSwapped(s'.rows, id) && id <= s'.idCounter
  {
    RowCounted(s, id);
    SectionMarks(s, u, id);
  }

  lemma RowCounted(s: Sys, id: nat)
    requires Inv(s) && id in s.rows
    ensures id <= s.idCounter && |s.buffers| == |s.pcs|
  {
  }

  lemma SectionMarks(s: Sys, u: nat, id: nat)
    requires u < |s.pcs| == |s.buffers| && id in s.rows && (s.pcs[u] == SwapBoth(id) || s.pcs[u] == ClearBoth(id))
    ensures var s' := Step(s, Go(u, 0, false));
            IsSwapped(s'.rows, id) && s'.idCounter == s.idCounter
  {
  }

  /** Thread `u` owns the lock that thread `t` waits for. */
  predicate WaitsFor(s: Sys, t: nat, u: nat)
    requires t < |s.pcs|
  {
    var row := WantsRow(s.pcs[t]);
    || (WantsTable(s.pcs[t]) && s.table == Some(u))
    || (row.Some? && row.value in s.rowLocks && s.rowLocks[row.value] == u)
  }

  /** The owner of the lock `t` waits for can take its next step, or waits for one whose owner can; and `t`
      itself holds no row lock, nor any lock at all if it waits for the table. */
  ghost predicate ChainEnds(s: Sys, t: nat)
    requires t < |s.pcs|
  {
    && HoldsRow(s.pcs[t]) == None && (WantsTable(s.pcs[t]) ==> !HoldsTable(s.pcs[t]))
    && exists u: nat :: u < |s.pcs| && WaitsFor(s, t, u)
                   && (CanGo(s, u) || exists v: nat :: WaitsFor(s, u, v) && CanGo(s, v))
  }

  /** No lock cycle, in any run: a thread that waits for a lock waits for at most two others. */
  lemma NoLockCycle(threads: nat, acts: seq<Action>, t: nat)
    requires t < |Run(Init(threads), acts).pcs| && Blocked(Run(Init(threads), acts), t)
    ensures ChainEnds(Run(Init(threads), acts), t)
  {
    InitKeepsInv(threads);
    RunKeepsInv(Init(threads), acts);
    ChainsEnd(Run(Init(threads), acts), t);
  }

  lemma ChainsEnd(s: Sys, t: nat)
    requires Inv(s) && t < |s.pcs| && Blocked(s, t)
    ensures ChainEnds(s, t)
  {
    GotLocks(s.pcs[t], s.entries);
    var row := WantsRow(s.pcs[t]);
    if row.Some? && row.value in s.rowLocks {
      RowOwnerGoes(s, row.value);
      assert WaitsFor(s, t, s.rowLocks[row.value]);
    } else {
      var u := s.table.value;
      TableOwnerIsInside(s);
      assert WaitsFor(s, t, u);
      if !CanGo(s, u) {
        TableOwnerWaitsForRow(s, u);
        var held := WantsRow(s.pcs[u]).value;
        RowOwnerGoes(s, held);
        assert WaitsFor(s, u, s.rowLocks[held]);
      }
    }
  }

  lemma TableOwnerWaitsForRow(s: Sys, u: nat)
    requires u < |s.pcs| && HoldsTable(s.pcs[u]) && !CanGo(s, u)
    ensures WantsRow(s.pcs[u]).Some? && WantsRow(s.pcs[u]).value in s.rowLocks
  {
  }

  lemma TableOwnerIsInside(s: Sys)
    requires Inv(s) && s.table.Some?
    ensures s.table.value < |s.pcs| && HoldsTable(s.pcs[s.table.value])
  {
  }

  lemma RowOwnerGoes(s: Sys, id: nat)
    requires Inv(s) && id in s.rowLocks
    ensures CanGo(s, s.rowLocks[id])
  {
    assert HoldsRow(s.pcs[s.rowLocks[id]]) == Some(id);
  }

  lemma GoneAtStep(s: Sys, a: Action, id: nat)
    requires id <= s.idCounter && id !in s.entries
    ensures id <= Step(s, a).idCounter && id !in Step(s, a).entries
  {
    if a.Go? && Enabled(s, a) && !WantsTable(s.pcs[a.t]) && WantsRow(s.pcs[a.t]) == None {
      GoneAtWork(s, a.t, a.pick, a.drop, id);
    }
  }

  lemma GoneAtWork(s: Sys, t: nat, pick: nat, drop: bool, id: nat)
    requires Enabled(s, Go(t, pick, drop)) && id <= s.idCounter && id !in s.entries
    ensures id <= Work(s, t, pick, drop).idCounter && id !in Work(s, t, pick, drop).entries
  {
  }

  /** `clear` gives the table lock back only when the table is empty; an id issued before then never
      enters the table again, so `wait` on it returns at once. */
  lemma {:induction false} AfterClearNothingWaits(s: Sys, acts: seq<Action>, id: nat)
    requires id <= s.idCounter && id !in s.entries
    ensures id !in Run(s, acts).entries
    decreases |acts|
  {
    if acts != [] {
      GoneAtStep(s, acts[0], id);
      AfterClearNothingWaits(Step(s, acts[0]), acts[1..], id);
    }
  }

  /** The places of a thread inside `clear`, table lock held. */
  predicate InClear(pc: Pc) {
    pc.ClearTable? || pc.ClearRow? || pc.ClearBoth? || pc.ClearTell? || pc.ClearErase?
  }

  /** Thread `u` is inside `clear`, or about to leave it; of the rows `listed` when it came in, those no
      longer in the table are swapped. */
  ghost predicate Covers(s: Sys, u: nat, listed: set<nat>) {
    && u < |s.pcs| && s.table == Some(u)
    && (InClear(s.pcs[u]) || (s.pcs[u] == Exit && s.entries == {}))
    && (forall id :: id in listed ==> id in s.entries || IsSwapped(s.rows, id))
    && (s.pcs[u].ClearTell? || s.pcs[u].ClearErase? ==> IsSwapped(s.rows, s.pcs[u].id))
  }

  /** Only the owner of the table lock changes the table. */
  lemma OthersLeaveTable(s: Sys, a: Action, u: nat)
    requires Inv(s) && u < |s.pcs| && s.table == Some(u) && HoldsTable(s.pcs[u]) && !(a.Go? && a.t == u)
    ensures |Step(s, a).pcs| == |s.pcs|
    ensures Step(s, a).entries == s.entries && Step(s, a).table == s.table && Step(s, a).pcs[u] == s.pcs[u]
  {
    if a.Go? {
      if Enabled(s, a) {
        PlaceIsKnown(s, a.t);
        GoOfOther(s, a.t, u, a.pick, a.drop);
      }
    } else {
      NotGoOfOther(s, a, u);
    }
  }

  lemma NotGoOfOther(s: Sys, a: Action, u: nat)
    requires u < |s.pcs| && HoldsTable(s.pcs[u]) && !a.Go?
    ensures var s' := Step(s, a);
            |s'.pcs| == |s.pcs| && s'.entries == s.entries && s'.table == s.table && s'.pcs[u] == s.pcs[u]
  {
  }

  lemma GoOfOther(s: Sys, t: nat, u: nat, pick: nat, drop: bool)
    requires Enabled(s, Go(t, pick, drop)) && t != u && u < |s.pcs| && s.table == Some(u)
    requires !HoldsTable(s.pcs[t]) && HoldsTable(s.pcs[u])
    ensures var s' := Step(s, Go(t, pick, drop));
            |s'.pcs| == |s.pcs| && s'.entries == s.entries && s'.table == s.table && s'.pcs[u] == s.pcs[u]
  {
  }

  lemma OwnStepOfClear(s: Sys, u: nat, pick: nat, drop: bool, listed: set<nat>)
    requires Covers(s, u, listed) && Enabled(s, Go(u, pick, drop)) && s.pcs[u] != Exit
    ensures Covers(Step(s, Go(u, pick, drop)), u, listed)
  {
  }

  lemma CoversAtStep(s: Sys, a: Action, u: nat, listed: set<nat>)
    requires Inv(s) && Covers(s, u, listed) && !Leaves(s, a, u)
    ensures Covers(Step(s, a), u, listed)
  {
    if a.Go? && a.t == u {
      if Enabled(s, a) {
        OwnStepOfClear(s, u, a.pick, a.drop, listed);
      }
    } else {
      OthersLeaveTable(s, a, u);
      SwappedStay(s, a);
      CoversSame(s, Step(s, a), u, listed);
    }
  }

  lemma SwappedStay(s: Sys, a: Action)
    requires Inv(s)
    ensures forall id :: IsSwapped(s.rows, id) ==> IsSwapped(Step(s, a).rows, id)
  {
    forall id | IsSwapped(s.rows, id) ensures IsSwapped(Step(s, a).rows, id) {
      RowCounted(s, id);
      SwappedAtStep(s, a, id);
    }
  }

  lemma CoversSame(s: Sys, s': Sys, u: nat, listed: set<nat>)
    requires Covers(s, u, listed) && u < |s'.pcs| && s'.pcs[u] == s.pcs[u] && s'.table == s.table && s'.entries == s.entries
    requires forall id :: IsSwapped(s.rows, id) ==> IsSwapped(s'.rows, id)
    ensures Covers(s', u, listed)
  {
  }

  /** The step that gives the table lock back. */
  predicate Leaves(s: Sys, a: Action, u: nat) {
    a.Go? && a.t == u && u < |s.pcs| && s.pcs[u] == Exit
  }

  /** Thread `u` does not give the table lock back. */
  ghost predicate StaysInside(s: Sys, acts: seq<Action>, u: nat)
    decreases |acts|
  {
    acts != [] ==> !Leaves(s, acts[0], u) && StaysInside(Step(s, acts[0]), acts[1..], u)
  }

  lemma {:induction false} CoversRun(s: Sys, acts: seq<Action>, u: nat, listed: set<nat>)
    requires Inv(s) && Covers(s, u, listed) && StaysInside(s, acts, u)
    ensures Covers(Run(s, acts), u, listed) && Inv(Run(s, acts))
    decreases |acts|
  {
    if acts != [] {
      var s' := Step(s, acts[0]);
      StepKeepsInv(s, acts[0]);
      CoversAtStep(s, acts[0], u, listed);
      CoversRun(s', acts[1..], u, listed);
    }
  }

  /** `clear` reaches every row, whatever other threads do meanwhile: when it is about to give the table
      lock back the table is empty and every row listed when it took the lock is swapped. */
  lemma ClearReachesAll(s: Sys, acts: seq<Action>, u: nat)
    requires Inv(s) && u < |s.pcs| && s.pcs[u] == ClearTable && StaysInside(s, acts, u)
    requires u < |Run(s, acts).pcs| && Run(s, acts).pcs[u] == Exit
    ensures Run(s, acts).entries == {}
    ensures forall id :: id in s.entries ==> IsSwapped(Run(s, acts).rows, id)
  {
    PlaceIsKnown(s, u);
    CoversRun(s, acts, u, s.entries);
  }

  /** After `clear` nothing waits: once a thread's `clear` is about to give the table lock back, then in
      every later state a `wait` on any id issued up to then leaves at its lookup, with false. */
  lemma WaitAfterClear(s: Sys, acts: seq<Action>, u: nat, later: seq<Action>, id: nat, t: nat, pick: nat, drop: bool)
    requires Inv(s) && u < |s.pcs| && s.pcs[u] == ClearTable && StaysInside(s, acts, u)
    requires u < |Run(s, acts).pcs| && Run(s, acts).pcs[u] == Exit && id <= Run(s, acts).idCounter
    requires var s' := Run(Run(s, acts), later);
             Enabled(s', Go(t, pick, drop)) && s'.pcs[t] == WaitTable(id)
    ensures Step(Run(Run(s, acts), later), Go(t, pick, drop)).pcs[t] == Exit
  {
    ClearReachesAll(s, acts, u);
    AfterClearNothingWaits(Run(s, acts), later, id);
    LeavesAtLookup(Run(Run(s, acts), later), id, t, pick, drop);
  }

  lemma LeavesAtLookup(s: Sys, id: nat, t: nat, pick: nat, drop: bool)
    requires Enabled(s, Go(t, pick, drop)) && s.pcs[t] == WaitTable(id) && id !in s.entries
    ensures Step(s, Go(t, pick, drop)).pcs[t] == Exit
  {
  }

  // ----- what a wait answers -----

  /** What thread `t` knows of its wait: whether its time is up, and how it ended. */
  datatype Told = Told(late: bool, verdict: Option<bool>)

  /** A wait ends at a look at its row: with true if the row is swapped then, with false if it is not and
      time is up. */
  function AfterAction(s: Sys, a: Action, t: nat, w: Told): Told
    requires t < |s.pcs|
  {
    match a
    case Start(u, _) => if u == t && s.pcs[t] == Idle then Told(false, None) else w
    case Timeout(u) => if u == t && s.pcs[t].Asleep? then w.(late := true) else w
    case Spurious(_) => w
    case Go(u, _, _) =>
      if u != t || !s.pcs[t].Recheck? then w
      else if IsSwapped(s.rows, s.pcs[t].id) then w.(verdict := Some(true))
      else if w.late then w.(verdict := Some(false))
      else w
  }

  ghost function ToldOver(s: Sys, acts: seq<Action>, t: nat, w: Told): Told
    decreases |acts|
  {
    if acts == [] || t >= |s.pcs| then w
    else ToldOver(Step(s, acts[0]), acts[1..], t, AfterAction(s, acts[0], t, w))
  }

  /** The place of a thread inside `wait` agrees with what it was told. */
  predicate Stands(pc: Pc, rows: map<nat, Cell>, w: Told) {
    match pc
    case WaitWant(_) => w == Told(false, None)
    case WaitTable(_) => w == Told(false, None)
    case WaitRow(_) => w == Told(false, None)
    case WaitBoth(_) => w == Told(false, None)
    case Asleep(_) => w == Told(false, None)
    case Recheck(_, late) => w == Told(late, None)
    case Rewake(_, late) => w == Told(late, None)
    case TakeWant(id, ok) => w.verdict == Some(ok) && (ok ==> IsSwapped(rows, id))
    case TakeIn(id, ok) => w.verdict == Some(ok) && (ok ==> IsSwapped(rows, id))
    case _ => true
  }

  /** A step of thread `u` moves no other thread, but may wake it. */
  ghost predicate LeavesOthers(s: Sys, s': Sys, u: nat) {
    && |s'.pcs| == |s.pcs|
    && forall t :: 0 <= t < |s.pcs| && t != u ==>
         s'.pcs[t] == s.pcs[t] || (s.pcs[t].Asleep? && s'.pcs[t] == Rewake(s.pcs[t].id, false))
  }

  lemma RowWorkLeavesOthers(s: Sys, u: nat, pick: nat, drop: bool)
    requires Enabled(s, Go(u, pick, drop)) && HoldsRow(s.pcs[u]).Some?
    ensures LeavesOthers(s, Work(s, u, pick, drop), u)
  {
  }

  lemma TableWorkLeavesOthers(s: Sys, u: nat, pick: nat, drop: bool)
    requires Enabled(s, Go(u, pick, drop)) && HoldsRow(s.pcs[u]) == None
    ensures LeavesOthers(s, Work(s, u, pick, drop), u)
  {
  }

  lemma OthersLeavePlace(s: Sys, u: nat, pick: nat, drop: bool)
    requires Enabled(s, Go(u, pick, drop))
    ensures LeavesOthers(s, Step(s, Go(u, pick, drop)), u)
  {
    if WantsTable(s.pcs[u]) || WantsRow(s.pcs[u]).Some? {
      assert LeavesOthers(s, Acquire(s, u), u);
    } else if HoldsRow(s.pcs[u]).Some? {
      RowWorkLeavesOthers(s, u, pick, drop);
    } else {
      TableWorkLeavesOthers(s, u, pick, drop);
    }
  }

  lemma OwnAcquire(s: Sys, t: nat, w: Told)
    requires t < |s.pcs| && (WantsTable(s.pcs[t]) || WantsRow(s.pcs[t]).Some?) && Stands(s.pcs[t], s.rows, w)
    ensures Stands(Acquire(s, t).pcs[t], s.rows, w) && !s.pcs[t].Recheck?
  {
  }

  lemma OwnRowWork(s: Sys, t: nat, pick: nat, drop: bool, w: Told)
    requires Enabled(s, Go(t, pick, drop)) && HoldsRow(s.pcs[t]).Some? && Stands(s.pcs[t], s.rows, w)
    ensures var a := Go(t, pick, drop);
            |Work(s, t, pick, drop).pcs| == |s.pcs| && Stands(Work(s, t, pick, drop).pcs[t], s.rows, AfterAction(s, a, t, w))
  {
  }

  lemma OwnTableLook(s: Sys, t: nat, pick: nat, drop: bool, w: Told)
    requires Enabled(s, Go(t, pick, drop)) && s.pcs[t].WaitTable? && Stands(s.pcs[t], s.rows, w)
    ensures |Work(s, t, pick, drop).pcs| == |s.pcs| && Stands(Work(s, t, pick, drop).pcs[t], s.rows, w)
  {
  }

  lemma NotInsideWait(s: Sys, t: nat, pick: nat, drop: bool)
    requires Enabled(s, Go(t, pick, drop)) && HoldsRow(s.pcs[t]) == None && WantsRow(s.pcs[t]) == None
    requires !InsideWait(s.pcs[t]) && !s.pcs[t].SwapTell? && !s.pcs[t].ClearTell?
    ensures |Work(s, t, pick, drop).pcs| == |s.pcs| && !InsideWait(Work(s, t, pick, drop).pcs[t])
  {
    if s.pcs[t].SwapTable? || s.pcs[t].ClearTable? || s.pcs[t].ObsTable? {
      LookNotInsideWait(s, t, pick, drop);
    } else if s.pcs[t].SwapErase? || s.pcs[t].ClearErase? {
      EraserNotInsideWait(s, t, pick, drop);
    } else if s.pcs[t].QueueIn? {
      QueuerNotInsideWait(s, t, pick, drop);
    } else if s.pcs[t].Exit? {
      LeaverNotInsideWait(s, t, pick, drop);
    } else {
      assert WantsTable(s.pcs[t]) || s.pcs[t].Idle?;
      NoWorkThere(s, t, pick, drop);
    }
  }

  lemma QueuerNotInsideWait(s: Sys, t: nat, pick: nat, drop: bool)
    requires Enabled(s, Go(t, pick, drop)) && s.pcs[t] == QueueIn
    ensures |Work(s, t, pick, drop).pcs| == |s.pcs| && !InsideWait(Work(s, t, pick, drop).pcs[t])
  {
    assert Work(s, t, pick, drop) == QueueRow(s, t);
  }

  lemma LeaverNotInsideWait(s: Sys, t: nat, pick: nat, drop: bool)
    requires Enabled(s, Go(t, pick, drop)) && s.pcs[t] == Exit
    ensures |Work(s, t, pick, drop).pcs| == |s.pcs| && !InsideWait(Work(s, t, pick, drop).pcs[t])
  {
    assert Work(s, t, pick, drop) == SetPc(s, t, Idle).(table := None);
  }

  lemma NoWorkThere(s: Sys, t: nat, pick: nat, drop: bool)
    requires Enabled(s, Go(t, pick, drop)) && (WantsTable(s.pcs[t]) || s.pcs[t].Idle?)
    ensures Work(s, t, pick, drop) == s
  {
  }

  lemma LookNotInsideWait(s: Sys, t: nat, pick: nat, drop: bool)
    requires Enabled(s, Go(t, pick, drop)) && (s.pcs[t].SwapTable? || s.pcs[t].ClearTable? || s.pcs[t].ObsTable?)
    ensures |Work(s, t, pick, drop).pcs| == |s.pcs| && !InsideWait(Work(s, t, pick, drop).pcs[t])
  {
    assert Work(s, t, pick, drop).pcs == s.pcs[t := LookedUp(s, t, pick)];
  }

  lemma EraserNotInsideWait(s: Sys, t: nat, pick: nat, drop: bool)
    requires Enabled(s, Go(t, pick, drop)) && (s.pcs[t].SwapErase? || s.pcs[t].ClearErase?)
    ensures |Work(s, t, pick, drop).pcs| == |s.pcs| && !InsideWait(Work(s, t, pick, drop).pcs[t])
  {
  }

  lemma TellerNotInsideWait(s: Sys, t: nat, pick: nat, drop: bool)
    requires Enabled(s, Go(t, pick, drop)) && (s.pcs[t].SwapTell? || s.pcs[t].ClearTell?)
    ensures |Work(s, t, pick, drop).pcs| == |s.pcs| && !InsideWait(Work(s, t, pick, drop).pcs[t])
  {
  }

  lemma OwnTableWork(s: Sys, t: nat, pick: nat, drop: bool, w: Told)
    requires Enabled(s, Go(t, pick, drop)) && HoldsRow(s.pcs[t]) == None && WantsRow(s.pcs[t]) == None
    requires !WantsTable(s.pcs[t]) && Stands(s.pcs[t], s.rows, w)
    ensures |Work(s, t, pick, drop).pcs| == |s.pcs| && Stands(Work(s, t, pick, drop).pcs[t], s.rows, w)
  {
    if s.pcs[t].WaitTable? {
      OwnTableLook(s, t, pick, drop, w);
    } else if s.pcs[t].SwapTell? || s.pcs[t].ClearTell? {
      TellerNotInsideWait(s, t, pick, drop);
    } else {
      NotInsideWait(s, t, pick, drop);
    }
  }

  lemma OwnLook(s: Sys, t: nat, pick: nat, drop: bool, w: Told)
    requires Enabled(s, Go(t, pick, drop)) && Stands(s.pcs[t], s.rows, w)
    ensures var a := Go(t, pick, drop);
            |Step(s, a).pcs| == |s.pcs| && Stands(Step(s, a).pcs[t], s.rows, AfterAction(s, a, t, w))
  {
    if WantsTable(s.pcs[t]) || WantsRow(s.pcs[t]).Some? {
      OwnAcquire(s, t, w);
    } else if HoldsRow(s.pcs[t]).Some? {
      OwnRowWork(s, t, pick, drop, w);
    } else {
      OwnTableWork(s, t, pick, drop, w);
    }
  }

  lemma StandsLater(pc: Pc, rows: map<nat, Cell>, rows': map<nat, Cell>, w: Told)
    requires Stands(pc, rows, w) && forall id :: IsSwapped(rows, id) ==> IsSwapped(rows', id)
    ensures Stands(pc, rows', w)
  {
  }

  lemma StandsAtGo(s: Sys, a: Action, t: nat, w: Told)
    requires a.Go? && Enabled(s, a) && t < |s.pcs| && Stands(s.pcs[t], s.rows, w)
    ensures |Step(s, a).pcs| == |s.pcs|
    ensures Stands(Step(s, a).pcs[t], s.rows, AfterAction(s, a, t, w))
  {
    if a.t == t {
      OwnLook(s, t, a.pick, a.drop, w);
    } else {
      OthersLeavePlace(s, a.t, a.pick, a.drop);
    }
  }

  lemma StandsAtRest(s: Sys, a: Action, t: nat, w: Told)
    requires !a.Go? && t < |s.pcs| == |s.buffers| && Stands(s.pcs[t], s.rows, w)
    ensures |Step(s, a).pcs| == |s.pcs| && Step(s, a).rows == s.rows
    ensures Stands(Step(s, a).pcs[t], s.rows, AfterAction(s, a, t, w))
  {
  }

  lemma LookIsEnabled(s: Sys, t: nat, pick: nat, drop: bool)
    requires Inv(s) && t < |s.pcs| && s.pcs[t].Recheck?
    ensures Enabled(s, Go(t, pick, drop))
  {
    PlaceIsKnown(s, t);
  }

  lemma StandsAtStep(s: Sys, a: Action, t: nat, w: Told)
    requires Inv(s) && t < |s.pcs| && Stands(s.pcs[t], s.rows, w)
    ensures |Step(s, a).pcs| == |s.pcs|
    ensures Stands(Step(s, a).pcs[t], Step(s, a).rows, AfterAction(s, a, t, w))
  {
    if !a.Go? {
      StandsAtRest(s, a, t, w);
    } else if Enabled(s, a) {
      SwappedStay(s, a);
      StandsAtGo(s, a, t, w);
      StandsLater(Step(s, a).pcs[t], s.rows, Step(s, a).rows, AfterAction(s, a, t, w));
    } else if s.pcs[t].Recheck? {
      LookIsEnabled(s, t, a.pick, a.drop);
    }
  }

  lemma {:induction false} StandsOverRun(s: Sys, acts: seq<Action>, t: nat, w: Told)
    requires Inv(s) && t < |s.pcs| && Stands(s.pcs[t], s.rows, w)
    ensures t < |Run(s, acts).pcs|
    ensures Stands(Run(s, acts).pcs[t], Run(s, acts).rows, ToldOver(s, acts, t, w))
    decreases |acts|
  {
    if acts != [] {
      StepKeepsInv(s, acts[0]);
      StandsAtStep(s, acts[0], t, w);
      StandsOverRun(Step(s, acts[0]), acts[1..], t, AfterAction(s, acts[0], t, w));
    }
  }

  /** What `wait` answers, in every run: it ends with true exactly at a look that finds its row swapped,
      with false exactly at one that does not after its time is up, and with nothing before; a wake-up
      without cause changes nothing. */
  lemma WaitAnswersIff(threads: nat, acts: seq<Action>, t: nat)
    requires t < threads
    ensures var s := Run(Init(threads), acts);
            t < |s.pcs| && Stands(s.pcs[t], s.rows, ToldOver(Init(threads), acts, t, Told(false, None)))
  {
    InitKeepsInv(threads);
    StandsOverRun(Init(threads), acts, t, Told(false, None));
  }

  // ----- a response before anybody waits -----

  /** Nobody has come to row `id` to wait on it or to erase it. */
  predicate EarlyRow(s: Sys, id: nat) {
    && id in s.rows && id in s.entries && s.rows[id].state != Waiting
    && forall t :: 0 <= t < |s.pcs| ==> !Erases(s.pcs[t], id)
  }

  predicate Erases(pc: Pc, id: nat) {
    pc == SwapTell(id) || pc == SwapErase(id) || pc == ClearTell(id) || pc == ClearErase(id)
  }

  /** A thread inside both locks of row `id` waits on it, clears it, or finds it too old. */
  predicate Reaches(s: Sys, a: Action, id: nat) {
    a.Go? && a.t < |s.pcs|
    && (s.pcs[a.t] == WaitBoth(id) || s.pcs[a.t] == ClearBoth(id)
        || (s.pcs[a.t].ObsBoth? && s.pcs[a.t].id == id && a.drop))
  }

  ghost predicate Unreached(s: Sys, acts: seq<Action>, id: nat)
    decreases |acts|
  {
    acts != [] ==> !Reaches(s, acts[0], id) && Unreached(Step(s, acts[0]), acts[1..], id)
  }

  /** A `swap_notify` of row `id` runs its section. */
  predicate SwapsNow(s: Sys, a: Action, id: nat) {
    a.Go? && a.t < |s.pcs| && s.pcs[a.t] == SwapBoth(id)
  }

  ghost predicate SwappedOver(s: Sys, acts: seq<Action>, id: nat)
    decreases |acts|
  {
    acts != [] && (SwapsNow(s, acts[0], id) || SwappedOver(Step(s, acts[0]), acts[1..], id))
  }

  lemma EarlyAtRowWork(s: Sys, t: nat, pick: nat, drop: bool, id: nat)
    requires EarlyRow(s, id) && Enabled(s, Go(t, pick, drop)) && !Reaches(s, Go(t, pick, drop), id)
    requires HoldsRow(s.pcs[t]).Some?
    ensures var s' := Work(s, t, pick, drop);
            EarlyRow(s', id) && (IsSwapped(s'.rows, id) <==> IsSwapped(s.rows, id) || s.pcs[t] == SwapBoth(id))
  {
  }

  lemma EarlyAtTableWork(s: Sys, t: nat, pick: nat, drop: bool, id: nat)
    requires EarlyRow(s, id) && id <= s.idCounter && Enabled(s, Go(t, pick, drop)) && HoldsRow(s.pcs[t]) == None
    ensures var s' := Work(s, t, pick, drop);
            EarlyRow(s', id) && (IsSwapped(s'.rows, id) <==> IsSwapped(s.rows, id))
  {
    if !s.pcs[t].QueueIn? {
      TableWorkLeavesRows(s, t, pick, drop);
    }
  }

  lemma EarlyAtMove(s: Sys, a: Action, id: nat)
    requires EarlyRow(s, id) && Enabled(s, a)
    requires a.Go? ==> WantsTable(s.pcs[a.t]) || WantsRow(s.pcs[a.t]).Some?
    ensures EarlyRow(Step(s, a), id) && Step(s, a).rows == s.rows && !SwapsNow(s, a, id)
  {
  }

  lemma EarlyAtStep(s: Sys, a: Action, id: nat)
    requires Inv(s) && EarlyRow(s, id) && !Reaches(s, a, id)
    ensures EarlyRow(Step(s, a), id)
    ensures IsSwapped(Step(s, a).rows, id) <==> IsSwapped(s.rows, id) || SwapsNow(s, a, id)
  {
    RowCounted(s, id);
    if !Enabled(s, a) {
      if SwapsNow(s, a, id) {
        PlaceIsKnown(s, a.t);
        assert false;
      }
    } else if a.Go? && !WantsTable(s.pcs[a.t]) && WantsRow(s.pcs[a.t]) == None {
      if HoldsRow(s.pcs[a.t]).Some? {
        EarlyAtRowWork(s, a.t, a.pick, a.drop, id);
      } else {
        EarlyAtTableWork(s, a.t, a.pick, a.drop, id);
      }
    } else {
      EarlyAtMove(s, a, id);
    }
  }

  lemma {:induction false} EarlyOverRun(s: Sys, acts: seq<Action>, id: nat)
    requires Inv(s) && EarlyRow(s, id) && Unreached(s, acts, id)
    ensures EarlyRow(Run(s, acts), id)
    ensures IsSwapped(Run(s, acts).rows, id) <==> IsSwapped(s.rows, id) || SwappedOver(s, acts, id)
    decreases |acts|
  {
    if acts != [] {
      StepKeepsInv(s, acts[0]);
      EarlyAtStep(s, acts[0], id);
      EarlyOverRun(Step(s, acts[0]), acts[1..], id);
    }
  }

  lemma NewRowIsEarly(s: Sys, t: nat, pick: nat, drop: bool)
    requires Inv(s) && t < |s.pcs| && s.pcs[t] == QueueIn && |s.entries| < QUEUE_RECV_MAX
    ensures var s', id := Step(s, Go(t, pick, drop)), s.idCounter + 1;
            EarlyRow(s', id) && !IsSwapped(s'.rows, id) && id == s'.idCounter
  {
    NoPlaceForNew(s);
    RowsCounted(s);
    NewRowAppears(s, t, pick, drop);
  }

  lemma NoPlaceForNew(s: Sys)
    requires Inv(s)
    ensures forall u :: 0 <= u < |s.pcs| ==> !Erases(s.pcs[u], s.idCounter + 1)
  {
    forall u | 0 <= u < |s.pcs| ensures !Erases(s.pcs[u], s.idCounter + 1) {
      assert PlaceKnown(s.pcs[u], s.rows);
    }
  }

  lemma RowsCounted(s: Sys)
    requires Inv(s)
    ensures |s.buffers| == |s.pcs| && s.idCounter + 1 !in s.rows
  {
  }

  lemma NewRowAppears(s: Sys, t: nat, pick: nat, drop: bool)
    requires t < |s.pcs| == |s.buffers| && s.pcs[t] == QueueIn && |s.entries| < QUEUE_RECV_MAX
    requires forall u :: 0 <= u < |s.pcs| ==> !Erases(s.pcs[u], s.idCounter + 1)
    ensures var s', id := Step(s, Go(t, pick, drop)), s.idCounter + 1;
            EarlyRow(s', id) && !IsSwapped(s'.rows, id) && id == s'.idCounter
  {
    assert Step(s, Go(t, pick, drop)) == WithNewRow(SetPc(s, t, Exit));
  }

  ghost predicate EarlySwapKept(s: Sys, t: nat, acts: seq<Action>) {
    var s', id := Step(s, Go(t, 0, false)), s.idCounter + 1;
    Unreached(s', acts, id) ==>
      && id in Run(s', acts).entries
      && (IsSwapped(Run(s', acts).rows, id) <==> SwappedOver(s', acts, id))
  }

  /** A response that comes before its caller waits is kept: in every run, from `queue` on, and until some
      thread comes to the row to wait, to clear, or to drop it as too old, the row stays in the table,
      however many `swap_notify` go over it, and is swapped exactly if one did. */
  lemma EarlySwapStays(threads: nat, before: seq<Action>, t: nat, acts: seq<Action>)
    requires var s := Run(Init(threads), before);
             t < |s.pcs| && s.pcs[t] == QueueIn && |s.entries| < QUEUE_RECV_MAX
    ensures EarlySwapKept(Run(Init(threads), before), t, acts)
  {
    InitKeepsInv(threads);
    RunKeepsInv(Init(threads), before);
    EarlyFromQueue(Run(Init(threads), before), t, acts);
  }

  lemma EarlyFromQueue(s: Sys, t: nat, acts: seq<Action>)
    requires Inv(s) && t < |s.pcs| && s.pcs[t] == QueueIn && |s.entries| < QUEUE_RECV_MAX
    ensures EarlySwapKept(s, t, acts)
  {
    var s', id := Step(s, Go(t, 0, false)), s.idCounter + 1;
    StepKeepsInv(s, Go(t, 0, false));
    NewRowIsEarly(s, t, 0, false);
    if Unreached(s', acts, id) {
      EarlyOverRun(s', acts, id);
    }
  }

  /** A wait that finds its row swapped takes it out of the table as it gives the table lock back; any
      other wait leaves it there, marked. */
  lemma WaitErasesSwapped(s: Sys, t: nat, id: nat, pick: nat, drop: bool)
    requires Inv(s) && t < |s.pcs| && s.pcs[t] == WaitBoth(id)
    ensures var s' := Step(s, Go(t, pick, drop));
            && s'.table == None && s'.pcs == s.pcs[t := Recheck(id, false)]
            && id in s.rows && id in s'.rows && s'.rows[id].token == s.rows[id].token
            && s'.entries == (if s.rows[id].state == Swapped then s.entries - {id} else s.entries)
            && s'.rows[id].state == (if s.rows[id].state == Swapped then Swapped else Waiting)
  {
    PlaceIsKnown(s, t);
  }

  /** The bytes a wait hands out are those in its row, whatever it answers; they are moved. */
  lemma TakeMovesBytes(s: Sys, t: nat, id: nat, ok: bool, pick: nat, drop: bool)
    requires Inv(s) && t < |s.pcs| && s.pcs[t] == TakeIn(id, ok)
    ensures var s' := Step(s, Go(t, pick, drop));
            && id in s.rows && id in s'.rows && s'.rows[id].token == None
            && |s'.buffers| == |s.pcs| && s'.buffers[t] == s.rows[id].token
            && s'.handed == (if s.rows[id].token.Some? then s.handed + [s.rows[id].token.value] else s.handed)
  {
    PlaceIsKnown(s, t);
  }

  /** The bytes of each `swap_notify` are with at most one caller or in at most one row, never both. */
  ghost predicate OneHolder(s: Sys) {
    && (forall k :: 0 <= k < |s.handed| ==> s.handed[k] < s.tokens)
    && (forall j, k :: 0 <= j < k < |s.handed| ==> s.handed[j] != s.handed[k])
    && (forall k, id :: 0 <= k < |s.handed| && id in s.rows ==> s.rows[id].token != Some(s.handed[k]))
    && (forall i, j :: i in s.rows && j in s.rows && i != j && s.rows[i].token.Some? ==> s.rows[i].token != s.rows[j].token)
  }

  /** Payloads are linear: in every run the bytes of one `swap_notify` are handed to at most one caller,
      however many wait on the same id; they are moved, so once handed out no row holds them. */
  lemma HandedOnce(threads: nat, acts: seq<Action>)
    ensures OneHolder(Run(Init(threads), acts))
  {
    InitKeepsInv(threads);
    RunKeepsInv(Init(threads), acts);
    InvGivesOneHolder(Run(Init(threads), acts));
  }

  lemma InvGivesOneHolder(s: Sys)
    requires Inv(s)
    ensures OneHolder(s)
  {
  }
}
