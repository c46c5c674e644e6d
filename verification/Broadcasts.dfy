/** The session manager: broadcasts shared by reference count among caller threads, posted handlers and
    session queues; the counter of broadcasts; the registry of sessions; and the listener, which admits
    a connection by the manager's own reference count. */
module Broadcasts {
  import opened Wrappers
  import opened WritePump

  /** What lies on a session's send queue: a broadcast, named by its number, or a response. */
  datatype Item = Message(mid: nat) | Response

  /** From the last strong reference on: `Dying` runs the destructor, `Unlisted` has left the registry,
      `Gone` has released its reference to the manager and its storage. */
  datatype Status = Live | Dying | Unlisted | Gone

  /** `pending` stands for the reads, timers and handshakes bound to the session; `posted` are the
      broadcasts whose `handle_send` has not run there. */
  datatype Session = Session(id: nat, status: Status, established: bool, pending: bool,
                             posted: seq<nat>, pump: Pump<Item>)

  /** A thread in `broadcast`. */
  datatype Caller =
    | Idle
    | Checked                                   // the counter was below the limit
    | Counting                                  // inside `connections()`, which holds a reference
    | Counted(connections: int)
    | Making                                    // holds the reference the message's deleter will have
    | Made(mid: nat)                            // the message exists, the counter not yet raised
    | Raised(mid: nat)
    | Posting(mid: nat, targets: set<nat>, copied: set<nat>)
                                                // of the sessions copied, those still to be posted to

  datatype Listener = Armed | Asking | Admitted

  /** `refs` is the reference count of every message; `useCount` that of the manager; `temps` the threads
      that hold a temporary reference to it, inside `connections()` or while they make a message (the
      listener counts as thread number |callers|); `deleting` the deleters that have counted their message
      down but not let go of the manager. History: `posts`, which message was posted to which session. */
  datatype Manager = Manager(
    maxSessions: nat, msgQueued: int, refs: multiset<nat>, nextMid: nat, useCount: int, temps: set<nat>,
    deleting: nat, posts: multiset<(nat, nat)>, sessions: seq<Session>, registry: map<nat, nat>, callers: seq<Caller>, listener: Listener)

  /** The server and the listener hold the manager; the third reference is the temporary one alive while
      `set_subtract_refs` counts. */
  const BASE_REFS: int := 2
  const SUB_REFS: int := 3

  function Init(maxSessions: nat, threads: nat): Manager {
    Manager(maxSessions, 0, multiset{}, 0, BASE_REFS, {}, 0, multiset{}, [], map[], seq(threads, i => Idle), Armed)
  }

  /** `connections()`, evaluated while its own temporary reference is alive. */
  function Connections(m: Manager): int {
    if m.useCount - SUB_REFS > 0 then m.useCount - SUB_REFS else 0
  }

  datatype Action =
    | Check(t: nat)
    | BeginCount(t: nat)
    | EndCount(t: nat)
    | BeginMake(t: nat)
    | Make(t: nat)
    | Raise(t: nat)
    | Copy(t: nat, ids: Option<seq<nat>>)
    | Post(t: nat, sid: nat)
    | Finish(t: nat)
    | Accept                                    // a connection arrives; `is_full` begins
    | Decide
    | Create(id: nat)
    | Establish(sid: nat)
    | RunPost(sid: nat, k: nat)
    | Respond(sid: nat)
    | Deliver(sid: nat)
    | WriteDone(sid: nat, failed: bool, closesNow: bool)
    | Stop(sid: nat, a: WritePump.Action<Item>)  // a close or an error reaches the session
    | Settle(sid: nat)                          // its last other operation completes
    | Die(sid: nat)
    | Unlist(sid: nat)
    | Release(sid: nat)
    | Delete                                    // a deleter goes, and its reference to the manager

  function SetCaller(m: Manager, t: nat, c: Caller): Manager
    requires t < |m.callers|
  {
    m.(callers := m.callers[t := c])
  }

  function SetSession(m: Manager, sid: nat, x: Session): Manager
    requires sid < |m.sessions|
  {
    m.(sessions := m.sessions[sid := x])
  }

  /** A shared pointer to a message goes away; the last one runs `on_msg_sent`, and its deleter goes after. */
  function Drop(m: Manager, mid: nat): Manager {
    var refs := m.refs - multiset{mid};
    if mid in m.refs && mid !in refs then m.(refs := refs, msgQueued := m.msgQueued - 1, deleting := m.deleting + 1)
    else m.(refs := refs)
  }

  function DropAll(m: Manager, items: seq<Item>): Manager
    decreases |items|
  {
    if items == [] then m
    else DropAll(if items[0].Message? then Drop(m, items[0].mid) else m, items[1..])
  }

  function AfterPost(x: Session, k: nat): Session
    requires k < |x.posted|
  {
    x.(posted := x.posted[..k] + x.posted[k + 1..], pump := HandleSend(x.pump, Message(x.posted[k])))
  }

  /** The entries one completion takes off the queue. */
  function LeavingItems(p: Pump<Item>, failed: bool): seq<Item>
    requires p.queue != []
  {
    if WriteGivesUp(p, failed) then p.queue else [p.queue[0]]
  }

  /** `handle_send` of a posted broadcast: its reference moves to the queue, or is dropped. */
  function AfterRunPost(m: Manager, sid: nat, k: nat): Manager
    requires sid < |m.sessions| && k < |m.sessions[sid].posted|
  {
    var x := m.sessions[sid];
    var mid := x.posted[k];
    DropAll(SetSession(m, sid, AfterPost(x, k)), if Accepts(x.pump) then [] else [Message(mid)])
  }

  /** `on_write`: the entries that leave the queue release their messages. */
  function AfterWrite(m: Manager, sid: nat, failed: bool, closesNow: bool): Manager
    requires sid < |m.sessions| && m.sessions[sid].pump.queue != []
  {
    var x := m.sessions[sid];
    DropAll(SetSession(m, sid, x.(pump := OnWrite(x.pump, failed, closesNow))), LeavingItems(x.pump, failed))
  }

  /** The sessions a broadcast is copied to: those listed under one of the ids, or all. */
  function Targets(registry: map<nat, nat>, ids: Option<seq<nat>>): set<nat> {
    set id | id in registry && (ids.None? || id in ids.value) :: registry[id]
  }

  function NewSession(id: nat): Session {
    Session(id, Live, false, true, [], NewPump())
  }

  predicate InUse(sessions: seq<Session>, id: nat) {
    exists sid :: 0 <= sid < |sessions| && sessions[sid].status != Gone && sessions[sid].id == id
  }

  predicate Enabled(m: Manager, a: Action) {
    match a
    case Check(t) => t < |m.callers| && m.callers[t] == Idle
    case BeginCount(t) => t < |m.callers| && m.callers[t] == Checked
    case EndCount(t) => t < |m.callers| && m.callers[t] == Counting
    case BeginMake(t) => t < |m.callers| && m.callers[t].Counted?
    case Make(t) => t < |m.callers| && m.callers[t] == Making
    case Raise(t) => t < |m.callers| && m.callers[t].Made?
    case Copy(t, _) => t < |m.callers| && m.callers[t].Raised?
    case Post(t, sid) => t < |m.callers| && m.callers[t].Posting? && sid in m.callers[t].targets && sid < |m.sessions|
    case Finish(t) => t < |m.callers| && m.callers[t].Posting? && m.callers[t].targets == {}
    case Accept => m.listener == Armed
    case Decide => m.listener == Asking
    case Create(id) => m.listener == Admitted && !InUse(m.sessions, id)
    case Establish(sid) => sid < |m.sessions| && m.sessions[sid].status == Live && !m.sessions[sid].established
    case RunPost(sid, k) => sid < |m.sessions| && k < |m.sessions[sid].posted|
    case Respond(sid) => sid < |m.sessions| && m.sessions[sid].pending && m.sessions[sid].status == Live
    case Deliver(sid) => sid < |m.sessions| && m.sessions[sid].pump.writing && !m.sessions[sid].pump.onWire
    case WriteDone(sid, failed, _) =>
      && sid < |m.sessions| && m.sessions[sid].pump.writing && (failed || m.sessions[sid].pump.onWire)
      && m.sessions[sid].pump.queue != []
    case Stop(sid, b) =>
      sid < |m.sessions| && m.sessions[sid].status == Live && (b.ReadError? || b.PeerClose? || b.Close?)
    case Settle(sid) => sid < |m.sessions| && m.sessions[sid].pending
    case Die(sid) =>
      && sid < |m.sessions| && m.sessions[sid].status == Live && !m.sessions[sid].pending
      && m.sessions[sid].posted == [] && !m.sessions[sid].pump.writing
    case Unlist(sid) => sid < |m.sessions| && m.sessions[sid].status == Dying
    case Release(sid) => sid < |m.sessions| && m.sessions[sid].status == Unlisted
    case Delete => m.deleting > 0
  }

  function AfterEnd(m: Manager, t: nat, c: Caller): Manager
    requires t < |m.callers|
  {
    SetCaller(m, t, c).(useCount := m.useCount - 1, temps := m.temps - {t})
  }

  /** The message exists; its deleter takes over the caller's reference to the manager. */
  function AfterMake(m: Manager, t: nat): Manager
    requires t < |m.callers|
  {
    SetCaller(m, t, Made(m.nextMid)).(
      refs := m.refs + multiset{m.nextMid}, nextMid := m.nextMid + 1, temps := m.temps - {t})
  }

  function AfterRaise(m: Manager, t: nat): Manager
    requires t < |m.callers| && m.callers[t].Made?
  {
    SetCaller(m, t, Raised(m.callers[t].mid)).(msgQueued := m.msgQueued + 1)
  }

  /** The caller's own pointer to the message goes when `broadcast` returns. */
  function AfterFinish(m: Manager, t: nat): Manager
    requires t < |m.callers| && m.callers[t].Posting?
  {
    Drop(SetCaller(m, t, Idle), m.callers[t].mid)
  }

  /** Lock the weak pointer to session `sid`; post to it if it is alive. */
  function AfterPosting(m: Manager, t: nat, sid: nat): Manager
    requires t < |m.callers| && m.callers[t].Posting? && sid < |m.sessions|
  {
    var c, x := m.callers[t], m.sessions[sid];
    var rest := SetCaller(m, t, Posting(c.mid, c.targets - {sid}, c.copied));
    if x.status == Live
    then SetSession(rest, sid, x.(posted := x.posted + [c.mid])).(
           refs := m.refs + multiset{c.mid}, posts := m.posts + multiset{(c.mid, sid)})
    else rest
  }

  function AfterAccept(m: Manager): Manager {
    m.(listener := Asking, useCount := m.useCount + 1, temps := m.temps + {|m.callers|})
  }

  function AfterCreate(m: Manager, id: nat): Manager {
    m.(listener := Armed, useCount := m.useCount + 1, sessions := m.sessions + [NewSession(id)])
  }

  function Step(m: Manager, a: Action): Manager {
    if !Enabled(m, a) then m else
    match a
    case Check(t) => if m.msgQueued >= QUEUE_SEND_MAX then m else SetCaller(m, t, Checked)
    case BeginCount(t) => SetCaller(m, t, Counting).(useCount := m.useCount + 1, temps := m.temps + {t})
    case EndCount(t) => AfterEnd(m, t, if Connections(m) == 0 then Idle else Counted(Connections(m)))
    case BeginMake(t) => SetCaller(m, t, Making).(useCount := m.useCount + 1, temps := m.temps + {t})
    case Make(t) => AfterMake(m, t)
    case Raise(t) => AfterRaise(m, t)
    case Copy(t, ids) =>
      SetCaller(m, t, Posting(m.callers[t].mid, Targets(m.registry, ids), Targets(m.registry, ids)))
    case Post(t, sid) => AfterPosting(m, t, sid)
    case Finish(t) => AfterFinish(m, t)
    case Accept => AfterAccept(m)
    case Decide =>
      m.(listener := if Connections(m) >= m.maxSessions then Armed else Admitted,
         useCount := m.useCount - 1, temps := m.temps - {|m.callers|})
    case Create(id) => AfterCreate(m, id)
    case Establish(sid) =>
      SetSession(m, sid, m.sessions[sid].(established := true)).(registry := m.registry[m.sessions[sid].id := sid])
    case RunPost(sid, k) => AfterRunPost(m, sid, k)
    case Respond(sid) => SetSession(m, sid, m.sessions[sid].(pump := HandleSend(m.sessions[sid].pump, Response)))
    case Deliver(sid) => SetSession(m, sid, m.sessions[sid].(pump := Transmit(m.sessions[sid].pump)))
    case WriteDone(sid, failed, closesNow) => AfterWrite(m, sid, failed, closesNow)
    case Stop(sid, b) => SetSession(m, sid, m.sessions[sid].(pump := WritePump.Step(m.sessions[sid].pump, b)))
    case Settle(sid) => SetSession(m, sid, m.sessions[sid].(pending := false))
    case Die(sid) => SetSession(m, sid, m.sessions[sid].(status := Dying))
    case Unlist(sid) =>
      SetSession(m, sid, m.sessions[sid].(status := Unlisted)).(
        registry := if m.sessions[sid].established then m.registry - {m.sessions[sid].id} else m.registry)
    case Release(sid) =>
      SetSession(m, sid, m.sessions[sid].(status := Gone)).(useCount := m.useCount - 1)
    case Delete => m.(deleting := m.deleting - 1, useCount := m.useCount - 1)
  }

  function Run(m: Manager, acts: seq<Action>): Manager
    decreases |acts|
  {
    if acts == [] then m else Run(Step(m, acts[0]), acts[1..])
  }

  // ----- who refers to which message -----

  function CallerRefs(callers: seq<Caller>): multiset<nat> {
    if callers == [] then multiset{} else RefOf(callers[0]) + CallerRefs(callers[1..])
  }

  function RefOf(c: Caller): multiset<nat> {
    if c.Made? || c.Raised? || c.Posting? then multiset{c.mid} else multiset{}
  }

  function QueueRefs(queue: seq<Item>): multiset<nat> {
    if queue == [] then multiset{}
    else (if queue[0].Message? then multiset{queue[0].mid} else multiset{}) + QueueRefs(queue[1..])
  }

  function SessionRefs(sessions: seq<Session>): multiset<nat> {
    if sessions == [] then multiset{} else RefsOf(sessions[0]) + SessionRefs(sessions[1..])
  }

  function RefsOf(x: Session): multiset<nat> {
    multiset(x.posted) + QueueRefs(x.pump.queue)
  }

  lemma AddInFront(first: multiset<nat>, rest: multiset<nat>, rest': multiset<nat>, a: multiset<nat>, b: multiset<nat>)
    requires rest' + a == rest + b
    ensures (first + rest') + a == (first + rest) + b
  {
    assert (first + rest') + a == first + (rest' + a);
    assert (first + rest) + b == first + (rest + b);
  }

  lemma {:induction false} CallerRefsUpdate(callers: seq<Caller>, t: nat, c: Caller)
    requires t < |callers|
    ensures CallerRefs(callers[t := c]) + RefOf(callers[t]) == CallerRefs(callers) + RefOf(c)
  {
    var callers' := callers[t := c];
    if t == 0 {
      assert callers'[1..] == callers[1..];
    } else {
      assert callers'[1..] == callers[1..][t - 1 := c] && callers'[0] == callers[0];
      CallerRefsUpdate(callers[1..], t - 1, c);
      var rest, rest' := CallerRefs(callers[1..]), CallerRefs(callers[1..][t - 1 := c]);
      AddInFront(RefOf(callers[0]), rest, rest', RefOf(callers[t]), RefOf(c));
    }
  }

  lemma {:induction false} SessionRefsUpdate(sessions: seq<Session>, sid: nat, x: Session)
    requires sid < |sessions|
    ensures SessionRefs(sessions[sid := x]) + RefsOf(sessions[sid]) == SessionRefs(sessions) + RefsOf(x)
  {
    var sessions' := sessions[sid := x];
    if sid == 0 {
      assert sessions'[1..] == sessions[1..];
    } else {
      assert sessions'[1..] == sessions[1..][sid - 1 := x] && sessions'[0] == sessions[0];
      SessionRefsUpdate(sessions[1..], sid - 1, x);
      var rest, rest' := SessionRefs(sessions[1..]), SessionRefs(sessions[1..][sid - 1 := x]);
      AddInFront(RefsOf(sessions[0]), rest, rest', RefsOf(sessions[sid]), RefsOf(x));
    }
  }

  lemma {:induction false} SessionRefsAppend(sessions: seq<Session>, x: Session)
    ensures SessionRefs(sessions + [x]) == SessionRefs(sessions) + RefsOf(x)
  {
    if sessions == [] {
      assert sessions + [x] == [x];
      assert SessionRefs([x]) == RefsOf(x) + SessionRefs([]);
    } else {
      assert (sessions + [x])[1..] == sessions[1..] + [x];
      SessionRefsAppend(sessions[1..], x);
    }
  }

  lemma {:induction false} QueueRefsAppend(queue: seq<Item>, item: Item)
    ensures QueueRefs(queue + [item]) == QueueRefs(queue) + QueueRefs([item])
  {
    if queue == [] {
      assert queue + [item] == [item];
    } else {
      assert (queue + [item])[1..] == queue[1..] + [item];
      QueueRefsAppend(queue[1..], item);
    }
  }

  lemma {:induction false} NoRefsInitially(threads: nat)
    ensures CallerRefs(seq(threads, i => Idle)) == multiset{}
  {
    var callers := seq(threads, i => Idle);
    if threads > 0 {
      assert callers[1..] == seq(threads - 1, i => Idle);
      NoRefsInitially(threads - 1);
    }
  }

  // ----- the invariant, part by part -----

  function LiveMessages(refs: multiset<nat>): set<nat> {
    set mid | mid in refs
  }

  function LiveSessions(sessions: seq<Session>): set<nat> {
    set sid | 0 <= sid < |sessions| && sessions[sid].status != Gone
  }

  /** The callers whose message exists but is not counted yet. */
  function MadeBy(callers: seq<Caller>): set<nat> {
    set t | 0 <= t < |callers| && callers[t].Made?
  }

  /** The callers between the check of the counter and its increment. */
  function InWindow(callers: seq<Caller>): set<nat> {
    set t | 0 <= t < |callers| && Inside(callers[t])
  }

  predicate Inside(c: Caller) {
    c.Checked? || c.Counting? || c.Counted? || c.Making? || c.Made?
  }

  /** The reference counts are those of the references that exist; `leaving` are about to be dropped. */
  ghost predicate Exact(refs: multiset<nat>, callers: seq<Caller>, sessions: seq<Session>, leaving: multiset<nat>) {
    refs == CallerRefs(callers) + SessionRefs(sessions) + leaving
  }

  ghost predicate Fresh(refs: multiset<nat>, nextMid: nat) {
    forall mid :: mid in refs ==> mid < nextMid
  }

  /** The broadcast counter counts the live messages, but for those just made. */
  ghost predicate Counter(msgQueued: int, callers: seq<Caller>, refs: multiset<nat>) {
    msgQueued + |MadeBy(callers)| == |LiveMessages(refs)|
  }

  /** The manager's use count, but for deleters on their way out: its base references, the live sessions,
      the live messages and the temporary references. */
  ghost predicate Use(useCount: int, sessions: seq<Session>, refs: multiset<nat>, temps: set<nat>) {
    useCount == BASE_REFS + |LiveSessions(sessions)| + |LiveMessages(refs)| + |temps|
  }

  ghost predicate Accounts(m: Manager, leaving: multiset<nat>) {
    && Exact(m.refs, m.callers, m.sessions, leaving)
    && Fresh(m.refs, m.nextMid)
    && Counter(m.msgQueued, m.callers, m.refs)
    && Use(m.useCount - m.deleting, m.sessions, m.refs, m.temps)
  }

  /** The caller holds a temporary reference to the manager. */
  predicate HoldsManager(c: Caller) {
    c == Counting || c == Making
  }

  /** The threads with a temporary reference, the listener's strand included. */
  ghost predicate Temps(callers: seq<Caller>, listener: Listener, temps: set<nat>) {
    && (forall t :: 0 <= t < |callers| ==> (HoldsManager(callers[t]) <==> t in temps))
    && (listener == Asking <==> |callers| in temps)
  }

  ghost predicate Window(msgQueued: int, callers: seq<Caller>) {
    msgQueued + |InWindow(callers)| <= QUEUE_SEND_MAX - 1 + |callers|
  }

  function MidOf(c: Caller): Option<nat> {
    if c.Made? || c.Raised? || c.Posting? then Some(c.mid) else None
  }

  /** Each caller works on a message of its own. */
  ghost predicate OwnMessages(callers: seq<Caller>, nextMid: nat) {
    && (forall t :: 0 <= t < |callers| && MidOf(callers[t]).Some? ==> MidOf(callers[t]).value < nextMid)
    && (forall t, u :: 0 <= t < u < |callers| && MidOf(callers[t]).Some? ==> MidOf(callers[t]) != MidOf(callers[u]))
  }

  ghost predicate Cap(sessions: seq<Session>, listener: Listener, maxSessions: nat) {
    |LiveSessions(sessions)| + (if listener == Admitted then 1 else 0) <= maxSessions
  }

  predicate Listed(x: Session) {
    x.established && (x.status == Live || x.status == Dying)
  }

  /** The registry holds exactly the established sessions that are not yet destroyed, each under its id;
      ids of existing sessions differ. */
  ghost predicate Registry(registry: map<nat, nat>, sessions: seq<Session>) {
    && (forall id :: id in registry ==>
          registry[id] < |sessions| && Listed(sessions[registry[id]]) && sessions[registry[id]].id == id)
    && (forall sid :: 0 <= sid < |sessions| && Listed(sessions[sid]) ==>
          sessions[sid].id in registry && registry[sessions[sid].id] == sid)
    && (forall i, j :: 0 <= i < j < |sessions| && sessions[i].status != Gone && sessions[j].status != Gone ==>
          sessions[i].id != sessions[j].id)
  }

  ghost predicate Pumps(sessions: seq<Session>) {
    forall sid :: 0 <= sid < |sessions| ==>
      WritePump.Inv(sessions[sid].pump) && (sessions[sid].status != Live ==> Quiet(sessions[sid]))
  }

  predicate Quiet(x: Session) {
    !x.pending && x.posted == [] && x.pump.queue == []
  }

  ghost predicate Inv(m: Manager) {
    && Accounts(m, multiset{})
    && Temps(m.callers, m.listener, m.temps)
    && Window(m.msgQueued, m.callers)
    && OwnMessages(m.callers, m.nextMid)
    && Cap(m.sessions, m.listener, m.maxSessions)
    && Registry(m.registry, m.sessions)
    && Pumps(m.sessions)
  }

  // ----- dropping references -----

  lemma LiveAfterDrop(refs: multiset<nat>, mid: nat)
    requires mid in refs
    ensures var refs' := refs - multiset{mid};
            LiveMessages(refs') == if mid in refs' then LiveMessages(refs) else LiveMessages(refs) - {mid}
  {
  }

  lemma DropKeepsAccounts(m: Manager, mid: nat, leaving: multiset<nat>)
    requires Accounts(m, leaving + multiset{mid})
    ensures Accounts(Drop(m, mid), leaving)
    ensures var m' := Drop(m, mid);
            m' == m.(refs := m'.refs, msgQueued := m'.msgQueued, deleting := m'.deleting)
    ensures Drop(m, mid).msgQueued <= m.msgQueued
  {
    assert mid in m.refs;
    LiveAfterDrop(m.refs, mid);
    assert m.refs - multiset{mid} == CallerRefs(m.callers) + SessionRefs(m.sessions) + leaving;
  }

  lemma {:induction false} DropAllKeepsAccounts(m: Manager, items: seq<Item>)
    requires Accounts(m, QueueRefs(items))
    ensures Accounts(DropAll(m, items), multiset{})
    ensures var m' := DropAll(m, items);
            m' == m.(refs := m'.refs, msgQueued := m'.msgQueued, deleting := m'.deleting)
    ensures DropAll(m, items).msgQueued <= m.msgQueued
    decreases |items|
  {
    if items != [] {
      var rest := QueueRefs(items[1..]);
      if items[0].Message? {
        assert QueueRefs(items) == rest + multiset{items[0].mid};
        DropKeepsAccounts(m, items[0].mid, rest);
        DropAllKeepsAccounts(Drop(m, items[0].mid), items[1..]);
      } else {
        assert QueueRefs(items) == rest;
        DropAllKeepsAccounts(m, items[1..]);
      }
    }
  }

  // ----- sessions change -----

  lemma LiveSessionsSame(sessions: seq<Session>, sid: nat, y: Session)
    requires sid < |sessions| && (y.status == Gone <==> sessions[sid].status == Gone)
    ensures LiveSessions(sessions[sid := y]) == LiveSessions(sessions)
  {
  }

  /** A session lets go of some references without being created or released. */
  lemma AccountsAfterSession(m: Manager, sid: nat, y: Session, leaving: multiset<nat>)
    requires Accounts(m, multiset{}) && sid < |m.sessions|
    requires y.status == Gone <==> m.sessions[sid].status == Gone
    requires RefsOf(m.sessions[sid]) == RefsOf(y) + leaving
    ensures Accounts(SetSession(m, sid, y), leaving)
  {
    var x := m.sessions[sid];
    LiveSessionsSame(m.sessions, sid, y);
    SessionRefsUpdate(m.sessions, sid, y);
    var before, after := SessionRefs(m.sessions), SessionRefs(m.sessions[sid := y]);
    RefsMoveOut(before, after, RefsOf(y), leaving);
    assert CallerRefs(m.callers) + before == CallerRefs(m.callers) + after + leaving;
  }

  lemma RefsMoveOut(before: multiset<nat>, after: multiset<nat>, kept: multiset<nat>, leaving: multiset<nat>)
    requires after + (kept + leaving) == before + kept
    ensures before == after + leaving
  {
    forall mid ensures before[mid] == (after + leaving)[mid] {
      assert (after + (kept + leaving))[mid] == (before + kept)[mid];
    }
  }

  lemma RegistrySame(registry: map<nat, nat>, sessions: seq<Session>, sid: nat, y: Session)
    requires Registry(registry, sessions) && sid < |sessions|
    requires y.id == sessions[sid].id && y.status == sessions[sid].status && y.established == sessions[sid].established
    ensures Registry(registry, sessions[sid := y])
  {
  }

  lemma PumpsAfter(sessions: seq<Session>, sid: nat, y: Session)
    requires Pumps(sessions) && sid < |sessions|
    requires WritePump.Inv(y.pump) && (y.status != Live ==> Quiet(y))
    ensures Pumps(sessions[sid := y])
  {
  }

  /** A step of one session that keeps its id, its status and its listing, and lets go of `leaving`. */
  lemma SessionKeepsInv(m: Manager, sid: nat, y: Session, items: seq<Item>)
    requires Inv(m) && sid < |m.sessions|
    requires y.id == m.sessions[sid].id && y.status == m.sessions[sid].status && y.established == m.sessions[sid].established
    requires WritePump.Inv(y.pump) && (y.status != Live ==> Quiet(y))
    requires RefsOf(m.sessions[sid]) == RefsOf(y) + QueueRefs(items)
    ensures Inv(DropAll(SetSession(m, sid, y), items))
  {
    AccountsAfterSession(m, sid, y, QueueRefs(items));
    LiveSessionsSame(m.sessions, sid, y);
    RegistrySame(m.registry, m.sessions, sid, y);
    PumpsAfter(m.sessions, sid, y);
    DropAllKeepsAccounts(SetSession(m, sid, y), items);
  }

  lemma SendsItem(p: Pump<Item>, item: Item)
    requires WritePump.Inv(p)
    ensures WritePump.Inv(HandleSend(p, item))
    ensures HandleSend(p, item).queue == if Accepts(p) then p.queue + [item] else p.queue
  {
    WritePump.StepKeepsInv(p, Send(item));
  }

  lemma RemoveAt(posted: seq<nat>, k: nat)
    requires k < |posted|
    ensures multiset(posted) == multiset(posted[..k] + posted[k + 1..]) + multiset{posted[k]}
  {
    assert posted == posted[..k] + [posted[k]] + posted[k + 1..];
  }

  lemma PostedQueueRefs(p: Pump<Item>, mid: nat)
    requires WritePump.Inv(p)
    ensures QueueRefs([Message(mid)]) == multiset{mid}
    ensures QueueRefs(HandleSend(p, Message(mid)).queue)
            == QueueRefs(p.queue) + if Accepts(p) then multiset{mid} else multiset{}
  {
    SendsItem(p, Message(mid));
    assert [Message(mid)][1..] == [];
    QueueRefsAppend(p.queue, Message(mid));
  }

  /** The reference of a posted broadcast moves to the queue, or is all that leaves. */
  lemma PostMoves(x: Session, k: nat)
    requires WritePump.Inv(x.pump) && k < |x.posted|
    ensures WritePump.Inv(AfterPost(x, k).pump)
    ensures RefsOf(x) == RefsOf(AfterPost(x, k))
                         + QueueRefs(if Accepts(x.pump) then [] else [Message(x.posted[k])])
  {
    var mid := x.posted[k];
    RemoveAt(x.posted, k);
    SendsItem(x.pump, Message(mid));
    PostedQueueRefs(x.pump, mid);
    var rest := multiset(x.posted[..k] + x.posted[k + 1..]);
    MoveOne(rest, multiset{mid}, QueueRefs(x.pump.queue));
  }

  lemma MoveOne(rest: multiset<nat>, one: multiset<nat>, queue: multiset<nat>)
    ensures rest + one + queue == rest + (queue + one) + multiset{}
    ensures rest + one + queue == rest + (queue + multiset{}) + one
  {
  }

  lemma RunPostKeepsInv(m: Manager, sid: nat, k: nat)
    requires Inv(m) && Enabled(m, RunPost(sid, k))
    ensures Inv(AfterRunPost(m, sid, k))
  {
    var x := m.sessions[sid];
    PostMoves(x, k);
    SessionKeepsInv(m, sid, AfterPost(x, k), if Accepts(x.pump) then [] else [Message(x.posted[k])]);
  }

  lemma WriteReleases(p: Pump<Item>, failed: bool, closesNow: bool)
    requires p.queue != []
    ensures QueueRefs(p.queue) == QueueRefs(OnWrite(p, failed, closesNow).queue) + QueueRefs(LeavingItems(p, failed))
  {
    var q := p.queue;
    if WriteGivesUp(p, failed) {
      assert OnWrite(p, failed, closesNow).queue == [];
    } else {
      assert OnWrite(p, failed, closesNow).queue == q[1..];
      assert [q[0]][1..] == [];
    }
  }

  lemma WriteMoves(x: Session, failed: bool, closesNow: bool)
    requires WritePump.Inv(x.pump) && x.pump.writing && (failed || x.pump.onWire)
    ensures WritePump.Inv(OnWrite(x.pump, failed, closesNow)) && x.pump.queue != []
    ensures RefsOf(x) == RefsOf(x.(pump := OnWrite(x.pump, failed, closesNow))) + QueueRefs(LeavingItems(x.pump, failed))
  {
    QuietStep(x.pump, WritePump.Action.WriteDone(failed, closesNow));
    WriteReleases(x.pump, failed, closesNow);
  }

  lemma WriteKeepsInv(m: Manager, sid: nat, failed: bool, closesNow: bool)
    requires Inv(m) && Enabled(m, Action.WriteDone(sid, failed, closesNow))
    ensures Inv(AfterWrite(m, sid, failed, closesNow))
  {
    var x := m.sessions[sid];
    WriteMoves(x, failed, closesNow);
    SessionKeepsInv(m, sid, x.(pump := OnWrite(x.pump, failed, closesNow)), LeavingItems(x.pump, failed));
  }

  // ----- callers -----

  lemma CallerSets(callers: seq<Caller>, t: nat, c: Caller)
    requires t < |callers|
    ensures MadeBy(callers[t := c]) == if c.Made? then MadeBy(callers) + {t} else MadeBy(callers) - {t}
    ensures InWindow(callers[t := c]) == if Inside(c)
                                         then InWindow(callers) + {t} else InWindow(callers) - {t}
    ensures t in MadeBy(callers) <==> callers[t].Made?
    ensures t in InWindow(callers)
       <==> Inside(callers[t])
  {
  }

  lemma {:induction false} BelowBound(s: set<nat>, n: nat)
    requires forall x :: x in s ==> x < n
    ensures |s| <= n
  {
    if n > 0 {
      BelowBound(s - {n - 1}, n - 1);
    }
  }

  lemma ExactAfterCaller(refs: multiset<nat>, callers: seq<Caller>, sessions: seq<Session>, t: nat, c: Caller)
    requires Exact(refs, callers, sessions, multiset{}) && t < |callers| && RefOf(c) == RefOf(callers[t])
    ensures Exact(refs, callers[t := c], sessions, multiset{})
  {
    CallerRefsUpdate(callers, t, c);
    MultisetCancel(CallerRefs(callers[t := c]), CallerRefs(callers), RefOf(c));
  }

  lemma MultisetCancel(a: multiset<nat>, b: multiset<nat>, more: multiset<nat>)
    requires a + more == b + more
    ensures a == b
  {
    forall mid ensures a[mid] == b[mid] {
      assert (a + more)[mid] == (b + more)[mid];
    }
  }

  lemma CounterAfterCaller(msgQueued: int, callers: seq<Caller>, refs: multiset<nat>, t: nat, c: Caller)
    requires Counter(msgQueued, callers, refs) && t < |callers| && c.Made? == callers[t].Made?
    ensures Counter(msgQueued, callers[t := c], refs)
  {
    CallerSets(callers, t, c);
    assert MadeBy(callers[t := c]) == MadeBy(callers);
  }

  lemma WindowAfterCaller(msgQueued: int, callers: seq<Caller>, t: nat, c: Caller)
    requires Window(msgQueued, callers) && t < |callers| && (Inside(c) ==> Inside(callers[t]))
    ensures Window(msgQueued, callers[t := c])
    ensures Inside(callers[t]) && !Inside(c) ==> Window(msgQueued + 1, callers[t := c])
  {
    CallerSets(callers, t, c);
    if Inside(callers[t]) && Inside(c) {
      assert InWindow(callers[t := c]) == InWindow(callers);
    }
    if !Inside(callers[t]) && !Inside(c) {
      assert InWindow(callers[t := c]) == InWindow(callers);
    }
  }

  lemma OwnAfterMove(callers: seq<Caller>, nextMid: nat, t: nat, c: Caller)
    requires OwnMessages(callers, nextMid) && t < |callers| && (MidOf(c) == MidOf(callers[t]) || MidOf(c) == None)
    ensures OwnMessages(callers[t := c], nextMid)
  {
  }

  lemma TempsAfterCaller(callers: seq<Caller>, listener: Listener, temps: set<nat>, t: nat, c: Caller)
    requires Temps(callers, listener, temps) && t < |callers|
    ensures Temps(callers[t := c], listener, if HoldsManager(c) then temps + {t} else temps - {t})
    ensures !HoldsManager(callers[t]) && !HoldsManager(c) ==> Temps(callers[t := c], listener, temps)
  {
    assert !HoldsManager(callers[t]) ==> temps - {t} == temps;
  }

  /** What a caller that keeps its message, if any, leaves as it is. */
  lemma CallerMoves(m: Manager, t: nat, c: Caller)
    requires Inv(m) && t < |m.callers|
    requires RefOf(c) == RefOf(m.callers[t]) && c.Made? == m.callers[t].Made? && MidOf(c) == MidOf(m.callers[t])
    requires Inside(c) ==> Inside(m.callers[t])
    ensures var callers := m.callers[t := c];
            && Exact(m.refs, callers, m.sessions, multiset{})
            && Counter(m.msgQueued, callers, m.refs)
            && Window(m.msgQueued, callers)
            && OwnMessages(callers, m.nextMid)
  {
    ExactAfterCaller(m.refs, m.callers, m.sessions, t, c);
    CounterAfterCaller(m.msgQueued, m.callers, m.refs, t, c);
    WindowAfterCaller(m.msgQueued, m.callers, t, c);
    OwnAfterMove(m.callers, m.nextMid, t, c);
  }

  predicate EmptyHanded(c: Caller) {
    c == Idle || c == Checked || c == Counting || c.Counted? || c == Making
  }

  lemma NothingInHand(c: Caller)
    requires EmptyHanded(c)
    ensures RefOf(c) == multiset{} && MidOf(c) == None && !c.Made?
  {
  }

  /** Likewise for one that has no message yet. */
  lemma EmptyHandedMoves(m: Manager, t: nat, c: Caller)
    requires Inv(m) && t < |m.callers| && EmptyHanded(m.callers[t]) && EmptyHanded(c)
    requires Inside(c) ==> Inside(m.callers[t])
    ensures var callers := m.callers[t := c];
            && Exact(m.refs, callers, m.sessions, multiset{})
            && Counter(m.msgQueued, callers, m.refs)
            && Window(m.msgQueued, callers)
            && OwnMessages(callers, m.nextMid)
  {
    NothingInHand(c);
    NothingInHand(m.callers[t]);
    CallerMoves(m, t, c);
  }

  /** A caller moves on with the message it has, if any, and holds no reference inside `connections()`. */
  lemma MoveKeepsInv(m: Manager, t: nat, c: Caller)
    requires Inv(m) && t < |m.callers|
    requires RefOf(c) == RefOf(m.callers[t]) && c.Made? == m.callers[t].Made? && MidOf(c) == MidOf(m.callers[t])
    requires Inside(c) ==> Inside(m.callers[t])
    requires !HoldsManager(m.callers[t]) && !HoldsManager(c)
    ensures Inv(SetCaller(m, t, c))
  {
    CallerMoves(m, t, c);
    TempsAfterCaller(m.callers, m.listener, m.temps, t, c);
  }

  lemma CheckKeepsInv(m: Manager, t: nat)
    requires Inv(m) && t < |m.callers| && m.callers[t] == Idle && m.msgQueued < QUEUE_SEND_MAX
    ensures Inv(SetCaller(m, t, Checked))
  {
    ExactAfterCaller(m.refs, m.callers, m.sessions, t, Checked);
    CounterAfterCaller(m.msgQueued, m.callers, m.refs, t, Checked);
    BelowBound(InWindow(m.callers[t := Checked]), |m.callers|);
    OwnAfterMove(m.callers, m.nextMid, t, Checked);
    TempsAfterCaller(m.callers, m.listener, m.temps, t, Checked);
  }

  /** A caller takes a temporary reference. */
  lemma HoldKeepsInv(m: Manager, t: nat, c: Caller)
    requires Inv(m) && t < |m.callers| && HoldsManager(c)
    requires m.callers[t].Checked? || m.callers[t].Counted?
    ensures Inv(SetCaller(m, t, c).(useCount := m.useCount + 1, temps := m.temps + {t}))
  {
    EmptyHandedMoves(m, t, c);
    TempsAfterCaller(m.callers, m.listener, m.temps, t, c);
    UseAfterTemp(m.useCount - m.deleting, m.sessions, m.refs, m.temps, t);
  }

  lemma UseAfterTemp(useCount: int, sessions: seq<Session>, refs: multiset<nat>, temps: set<nat>, t: nat)
    requires Use(useCount, sessions, refs, temps)
    ensures t !in temps ==> Use(useCount + 1, sessions, refs, temps + {t})
    ensures t in temps ==> Use(useCount - 1, sessions, refs, temps - {t})
  {
  }

  lemma EndCountKeepsInv(m: Manager, t: nat, c: Caller)
    requires Inv(m) && t < |m.callers| && m.callers[t] == Counting && (c == Idle || c.Counted?)
    ensures Inv(AfterEnd(m, t, c))
  {
    EndCountParts(m, t, c);
  }

  lemma EndCountParts(m: Manager, t: nat, c: Caller)
    requires Inv(m) && t < |m.callers| && m.callers[t] == Counting && (c == Idle || c.Counted?)
    ensures var m' := AfterEnd(m, t, c);
            && Accounts(m', multiset{}) && Temps(m'.callers, m'.listener, m'.temps)
            && Window(m'.msgQueued, m'.callers) && OwnMessages(m'.callers, m'.nextMid)
  {
    EmptyHandedMoves(m, t, c);
    TempsAfterEnd(m.callers, m.listener, m.temps, t, c);
    AccountsAfterEnd(m, t, c);
  }

  lemma AccountsAfterEnd(m: Manager, t: nat, c: Caller)
    requires Accounts(m, multiset{}) && t < |m.callers| && t in m.temps
    requires Exact(m.refs, m.callers[t := c], m.sessions, multiset{}) && Counter(m.msgQueued, m.callers[t := c], m.refs)
    ensures Accounts(AfterEnd(m, t, c), multiset{})
  {
    UseAfterTemp(m.useCount - m.deleting, m.sessions, m.refs, m.temps, t);
  }

  lemma TempsAfterEnd(callers: seq<Caller>, listener: Listener, temps: set<nat>, t: nat, c: Caller)
    requires Temps(callers, listener, temps) && t < |callers| && HoldsManager(callers[t]) && !HoldsManager(c)
    ensures Temps(callers[t := c], listener, temps - {t}) && t in temps
  {
    TempsAfterCaller(callers, listener, temps, t, c);
  }

  lemma LiveAfterMake(refs: multiset<nat>, mid: nat)
    requires mid !in refs
    ensures LiveMessages(refs + multiset{mid}) == LiveMessages(refs) + {mid}
  {
  }

  lemma ExactAfterMake(refs: multiset<nat>, callers: seq<Caller>, sessions: seq<Session>, t: nat, mid: nat)
    requires Exact(refs, callers, sessions, multiset{}) && t < |callers| && RefOf(callers[t]) == multiset{}
    ensures Exact(refs + multiset{mid}, callers[t := Made(mid)], sessions, multiset{})
  {
    CallerRefsUpdate(callers, t, Made(mid));
    MultisetCancel(CallerRefs(callers[t := Made(mid)]), CallerRefs(callers) + multiset{mid}, multiset{});
  }

  lemma CountsAfterMake(m: Manager, t: nat)
    requires Counter(m.msgQueued, m.callers, m.refs) && Use(m.useCount - m.deleting, m.sessions, m.refs, m.temps)
    requires t < |m.callers| && m.callers[t] == Making && m.nextMid !in m.refs && t in m.temps
    ensures Counter(m.msgQueued, m.callers[t := Made(m.nextMid)], m.refs + multiset{m.nextMid})
    ensures Use(m.useCount - m.deleting, m.sessions, m.refs + multiset{m.nextMid}, m.temps - {t})
  {
    LiveAfterMake(m.refs, m.nextMid);
    CallerSets(m.callers, t, Made(m.nextMid));
  }

  lemma MakeKeepsInv(m: Manager, t: nat)
    requires Inv(m) && t < |m.callers| && m.callers[t] == Making
    ensures Inv(AfterMake(m, t))
  {
    var mid := m.nextMid;
    TempsAfterEnd(m.callers, m.listener, m.temps, t, Made(mid));
    ExactAfterMake(m.refs, m.callers, m.sessions, t, mid);
    CountsAfterMake(m, t);
    WindowAfterCaller(m.msgQueued, m.callers, t, Made(mid));
    OwnAfterMake(m.callers, mid, t);
  }

  lemma OwnAfterMake(callers: seq<Caller>, mid: nat, t: nat)
    requires OwnMessages(callers, mid) && t < |callers|
    ensures OwnMessages(callers[t := Made(mid)], mid + 1)
  {
  }

  lemma RaiseKeepsInv(m: Manager, t: nat)
    requires Inv(m) && t < |m.callers| && m.callers[t].Made?
    ensures Inv(AfterRaise(m, t))
  {
    var c := Raised(m.callers[t].mid);
    ExactAfterCaller(m.refs, m.callers, m.sessions, t, c);
    CallerSets(m.callers, t, c);
    assert Counter(m.msgQueued + 1, m.callers[t := c], m.refs);
    WindowAfterCaller(m.msgQueued, m.callers, t, c);
    OwnAfterMove(m.callers, m.nextMid, t, c);
    TempsAfterCaller(m.callers, m.listener, m.temps, t, c);
  }

  /** One more reference to a message that has one already. */
  lemma AddPostKeepsInv(m: Manager, sid: nat, mid: nat)
    requires Inv(m) && sid < |m.sessions| && m.sessions[sid].status == Live && mid in m.refs
    ensures Inv(SetSession(m, sid, m.sessions[sid].(posted := m.sessions[sid].posted + [mid])).(
                  refs := m.refs + multiset{mid}))
  {
    var x := m.sessions[sid];
    var y := x.(posted := x.posted + [mid]);
    LiveSessionsSame(m.sessions, sid, y);
    RegistrySame(m.registry, m.sessions, sid, y);
    PumpsAfter(m.sessions, sid, y);
    ExactAfterPost(m.refs, m.callers, m.sessions, sid, mid);
    LiveAfterCopy(m.refs, mid);
  }

  lemma LiveAfterCopy(refs: multiset<nat>, mid: nat)
    requires mid in refs
    ensures LiveMessages(refs + multiset{mid}) == LiveMessages(refs)
  {
  }

  lemma ExactAfterPost(refs: multiset<nat>, callers: seq<Caller>, sessions: seq<Session>, sid: nat, mid: nat)
    requires Exact(refs, callers, sessions, multiset{}) && sid < |sessions|
    ensures Exact(refs + multiset{mid}, callers,
                  sessions[sid := sessions[sid].(posted := sessions[sid].posted + [mid])], multiset{})
  {
    var x := sessions[sid];
    var y := x.(posted := x.posted + [mid]);
    SessionRefsUpdate(sessions, sid, y);
    assert multiset(y.posted) == multiset(x.posted) + multiset{mid};
    assert RefsOf(y) == multiset{mid} + RefsOf(x);
    MultisetCancel(SessionRefs(sessions[sid := y]), SessionRefs(sessions) + multiset{mid}, RefsOf(x));
  }

  lemma {:induction false} CallerHasRef(callers: seq<Caller>, t: nat)
    requires t < |callers| && MidOf(callers[t]).Some?
    ensures MidOf(callers[t]).value in CallerRefs(callers)
  {
    if t > 0 {
      CallerHasRef(callers[1..], t - 1);
      assert callers[1..][t - 1] == callers[t];
    }
  }

  lemma PostsAreHistory(m: Manager, posts: multiset<(nat, nat)>)
    requires Inv(m)
    ensures Inv(m.(posts := posts))
  {
  }

  lemma PostKeepsInv(m: Manager, t: nat, sid: nat)
    requires Inv(m) && t < |m.callers| && m.callers[t].Posting? && sid < |m.sessions|
    ensures Inv(AfterPosting(m, t, sid))
  {
    var c := Posting(m.callers[t].mid, m.callers[t].targets - {sid}, m.callers[t].copied);
    MoveKeepsInv(m, t, c);
    CallerHasRef(m.callers, t);
    if m.sessions[sid].status == Live {
      var moved := SetCaller(m, t, c);
      AddPostKeepsInv(moved, sid, c.mid);
      PostsAreHistory(SetSession(moved, sid, m.sessions[sid].(posted := m.sessions[sid].posted + [c.mid])).(
                        refs := m.refs + multiset{c.mid}), m.posts + multiset{(c.mid, sid)});
    }
  }

  lemma ExactAfterFinish(refs: multiset<nat>, callers: seq<Caller>, sessions: seq<Session>, t: nat, mid: nat)
    requires Exact(refs, callers, sessions, multiset{}) && t < |callers| && RefOf(callers[t]) == multiset{mid}
    ensures Exact(refs, callers[t := Idle], sessions, multiset{} + multiset{mid})
  {
    CallerRefsUpdate(callers, t, Idle);
    MultisetCancel(CallerRefs(callers[t := Idle]) + multiset{mid}, CallerRefs(callers), multiset{});
    MultisetCancel(refs, CallerRefs(callers[t := Idle]) + SessionRefs(sessions) + multiset{mid}, multiset{});
  }

  lemma AccountsBeforeFinish(m: Manager, t: nat)
    requires Accounts(m, multiset{}) && t < |m.callers| && m.callers[t].Posting?
    ensures Accounts(SetCaller(m, t, Idle), multiset{} + multiset{m.callers[t].mid})
  {
    ExactAfterFinish(m.refs, m.callers, m.sessions, t, m.callers[t].mid);
    CounterAfterCaller(m.msgQueued, m.callers, m.refs, t, Idle);
  }

  lemma FinishKeepsInv(m: Manager, t: nat)
    requires Inv(m) && t < |m.callers| && m.callers[t].Posting?
    ensures Inv(AfterFinish(m, t))
  {
    var mid := m.callers[t].mid;
    AccountsBeforeFinish(m, t);
    WindowAfterCaller(m.msgQueued, m.callers, t, Idle);
    OwnAfterMove(m.callers, m.nextMid, t, Idle);
    TempsAfterCaller(m.callers, m.listener, m.temps, t, Idle);
    DropKeepsAccounts(SetCaller(m, t, Idle), mid, multiset{});
  }

  // ----- the listener and the life of sessions -----

  lemma AcceptKeepsInv(m: Manager)
    requires Inv(m) && m.listener == Armed
    ensures Inv(AfterAccept(m))
  {
    UseAfterTemp(m.useCount - m.deleting, m.sessions, m.refs, m.temps, |m.callers|);
    TempsAfterAccept(m.callers, m.temps);
  }

  lemma TempsAfterAccept(callers: seq<Caller>, temps: set<nat>)
    requires Temps(callers, Armed, temps)
    ensures Temps(callers, Asking, temps + {|callers|}) && |callers| !in temps
  {
  }

  /** While somebody is inside `connections()`, it is at least the number of live sessions and live
      messages, and exactly that when nobody else holds a reference for a while. */
  lemma ConnectionsCounts(m: Manager)
    requires Use(m.useCount - m.deleting, m.sessions, m.refs, m.temps) && m.temps != {}
    ensures Connections(m) == |LiveSessions(m.sessions)| + |LiveMessages(m.refs)| + |m.temps| - 1 + m.deleting
    ensures |m.temps| >= 1
  {
    var t :| t in m.temps;
    assert m.temps == (m.temps - {t}) + {t};
  }

  /** `is_full`: while the listener asks, `connections()` is at least the number of live sessions, so a
      connection is admitted only while there is room. */
  lemma DecideKeepsInv(m: Manager, listener: Listener)
    requires Inv(m) && m.listener == Asking
    requires listener == if Connections(m) >= m.maxSessions then Armed else Admitted
    ensures Inv(m.(listener := listener, useCount := m.useCount - 1, temps := m.temps - {|m.callers|}))
  {
    UseAfterTemp(m.useCount - m.deleting, m.sessions, m.refs, m.temps, |m.callers|);
    RoomWhenAdmitted(m, listener);
  }

  lemma RoomWhenAdmitted(m: Manager, listener: Listener)
    requires Use(m.useCount - m.deleting, m.sessions, m.refs, m.temps) && Cap(m.sessions, m.listener, m.maxSessions)
    requires m.listener == Asking && Temps(m.callers, m.listener, m.temps)
    requires listener == if Connections(m) >= m.maxSessions then Armed else Admitted
    ensures Cap(m.sessions, listener, m.maxSessions)
  {
    ConnectionsCounts(m);
  }

  lemma CreateKeepsInv(m: Manager, id: nat)
    requires Inv(m) && m.listener == Admitted && !InUse(m.sessions, id)
    ensures Inv(AfterCreate(m, id))
  {
    SessionsAfterCreate(m.sessions, id);
    RegistryAfterCreate(m.registry, m.sessions, id);
    PumpsAfterCreate(m.sessions, id);
  }

  lemma SessionsAfterCreate(sessions: seq<Session>, id: nat)
    ensures SessionRefs(sessions + [NewSession(id)]) == SessionRefs(sessions)
    ensures LiveSessions(sessions + [NewSession(id)]) == LiveSessions(sessions) + {|sessions|}
    ensures |sessions| !in LiveSessions(sessions)
  {
    SessionRefsAppend(sessions, NewSession(id));
    NewSessionHoldsNothing(id);
    LiveAfterCreate(sessions, id);
  }

  lemma NewSessionHoldsNothing(id: nat)
    ensures RefsOf(NewSession(id)) == multiset{}
  {
  }

  lemma LiveAfterCreate(sessions: seq<Session>, id: nat)
    ensures LiveSessions(sessions + [NewSession(id)]) == LiveSessions(sessions) + {|sessions|}
  {
  }

  lemma RegistryAfterCreate(registry: map<nat, nat>, sessions: seq<Session>, id: nat)
    requires Registry(registry, sessions) && !InUse(sessions, id)
    ensures Registry(registry, sessions + [NewSession(id)])
  {
  }

  lemma PumpsAfterCreate(sessions: seq<Session>, id: nat)
    requires Pumps(sessions)
    ensures Pumps(sessions + [NewSession(id)])
  {
  }

  lemma EstablishKeepsInv(m: Manager, sid: nat)
    requires Inv(m) && Enabled(m, Establish(sid))
    ensures Inv(Step(m, Establish(sid)))
  {
    var x := m.sessions[sid];
    var y := x.(established := true);
    AccountsAfterSession(m, sid, y, multiset{});
    LiveSessionsSame(m.sessions, sid, y);
    PumpsAfter(m.sessions, sid, y);
    RegistryAfterEstablish(m.registry, m.sessions, sid);
  }

  lemma RegistryAfterEstablish(registry: map<nat, nat>, sessions: seq<Session>, sid: nat)
    requires Registry(registry, sessions) && sid < |sessions| && sessions[sid].status == Live && !sessions[sid].established
    ensures Registry(registry[sessions[sid].id := sid], sessions[sid := sessions[sid].(established := true)])
  {
  }

  lemma RespondMoves(x: Session)
    requires WritePump.Inv(x.pump)
    ensures WritePump.Inv(HandleSend(x.pump, Response))
    ensures RefsOf(x.(pump := HandleSend(x.pump, Response))) == RefsOf(x)
  {
    SendsItem(x.pump, Response);
    QueueRefsAppend(x.pump.queue, Response);
    assert [Response][1..] == [] && QueueRefs([Response]) == multiset{};
  }

  lemma QuietMoves(x: Session, a: WritePump.Action<Item>)
    requires WritePump.Inv(x.pump) && WritePump.Enabled(x.pump, a)
    requires a.Deliver? || a.ReadError? || a.PeerClose? || a.Close?
    ensures WritePump.Inv(WritePump.Step(x.pump, a))
    ensures WritePump.Step(x.pump, a).queue == x.pump.queue
  {
    QuietStep(x.pump, a);
  }

  lemma RespondKeepsInv(m: Manager, sid: nat)
    requires Inv(m) && Enabled(m, Respond(sid))
    ensures Inv(Step(m, Respond(sid)))
  {
    RespondMoves(m.sessions[sid]);
    SessionKeepsInv(m, sid, m.sessions[sid].(pump := HandleSend(m.sessions[sid].pump, Response)), []);
  }

  lemma PumpStepKeepsInv(m: Manager, sid: nat, b: WritePump.Action<Item>)
    requires Inv(m) && sid < |m.sessions| && m.sessions[sid].status == Live && WritePump.Enabled(m.sessions[sid].pump, b)
    requires b.Deliver? || b.ReadError? || b.PeerClose? || b.Close?
    ensures Inv(SetSession(m, sid, m.sessions[sid].(pump := WritePump.Step(m.sessions[sid].pump, b))))
  {
    QuietMoves(m.sessions[sid], b);
    SessionKeepsInv(m, sid, m.sessions[sid].(pump := WritePump.Step(m.sessions[sid].pump, b)), []);
  }

  lemma DeliverKeepsInv(m: Manager, sid: nat)
    requires Inv(m) && Enabled(m, Action.Deliver(sid))
    ensures Inv(Step(m, Action.Deliver(sid)))
  {
    PumpStepKeepsInv(m, sid, WritePump.Action.Deliver);
  }

  lemma SettleKeepsInv(m: Manager, sid: nat)
    requires Inv(m) && Enabled(m, Settle(sid))
    ensures Inv(Step(m, Settle(sid)))
  {
    SessionKeepsInv(m, sid, m.sessions[sid].(pending := false), []);
  }

  lemma DieKeepsInv(m: Manager, sid: nat)
    requires Inv(m) && Enabled(m, Die(sid))
    ensures Inv(Step(m, Die(sid)))
  {
    var y := m.sessions[sid].(status := Dying);
    AccountsAfterSession(m, sid, y, multiset{});
    LiveSessionsSame(m.sessions, sid, y);
    PumpsAfter(m.sessions, sid, y);
    RegistryAfterDeath(m.registry, m.sessions, sid);
  }

  lemma RegistryAfterDeath(registry: map<nat, nat>, sessions: seq<Session>, sid: nat)
    requires Registry(registry, sessions) && sid < |sessions| && sessions[sid].status == Live
    ensures Registry(registry, sessions[sid := sessions[sid].(status := Dying)])
  {
  }

  lemma UnlistKeepsInv(m: Manager, sid: nat)
    requires Inv(m) && Enabled(m, Unlist(sid))
    ensures Inv(Step(m, Unlist(sid)))
  {
    var y := m.sessions[sid].(status := Unlisted);
    AccountsAfterSession(m, sid, y, multiset{});
    LiveSessionsSame(m.sessions, sid, y);
    PumpsAfter(m.sessions, sid, y);
    RegistryAfterUnlist(m.registry, m.sessions, sid);
  }

  lemma RegistryAfterUnlist(registry: map<nat, nat>, sessions: seq<Session>, sid: nat)
    requires Registry(registry, sessions) && sid < |sessions| && sessions[sid].status == Dying
    ensures Registry(if sessions[sid].established then registry - {sessions[sid].id} else registry,
                     sessions[sid := sessions[sid].(status := Unlisted)])
  {
  }

  lemma ReleaseKeepsInv(m: Manager, sid: nat)
    requires Inv(m) && Enabled(m, Release(sid))
    ensures Inv(Step(m, Release(sid)))
  {
    RefsAfterRelease(m.sessions, sid);
    LiveAfterRelease(m.sessions, sid);
    PumpsAfter(m.sessions, sid, m.sessions[sid].(status := Gone));
    RegistryAfterRelease(m.registry, m.sessions, sid);
  }

  lemma RefsAfterRelease(sessions: seq<Session>, sid: nat)
    requires sid < |sessions|
    ensures SessionRefs(sessions[sid := sessions[sid].(status := Gone)]) == SessionRefs(sessions)
  {
    var y := sessions[sid].(status := Gone);
    SessionRefsUpdate(sessions, sid, y);
    MultisetCancel(SessionRefs(sessions[sid := y]), SessionRefs(sessions), RefsOf(y));
  }

  lemma LiveAfterRelease(sessions: seq<Session>, sid: nat)
    requires sid < |sessions| && sessions[sid].status != Gone
    ensures LiveSessions(sessions[sid := sessions[sid].(status := Gone)]) == LiveSessions(sessions) - {sid}
    ensures sid in LiveSessions(sessions)
  {
  }

  lemma RegistryAfterRelease(registry: map<nat, nat>, sessions: seq<Session>, sid: nat)
    requires Registry(registry, sessions) && sid < |sessions| && sessions[sid].status == Unlisted
    ensures Registry(registry, sessions[sid := sessions[sid].(status := Gone)])
  {
  }

  lemma DeleteKeepsInv(m: Manager)
    requires Inv(m) && m.deleting > 0
    ensures Inv(m.(deleting := m.deleting - 1, useCount := m.useCount - 1))
  {
  }

  lemma CheckStepKeepsInv(m: Manager, a: Action)
    requires Inv(m) && Enabled(m, a) && (a.Check? || a.BeginCount? || a.EndCount? || a.BeginMake?)
    ensures Inv(Step(m, a))
  {
    match a
    case Check(t) => if m.msgQueued < QUEUE_SEND_MAX { CheckKeepsInv(m, t); }
    case BeginCount(t) => HoldKeepsInv(m, t, Counting);
    case BeginMake(t) => HoldKeepsInv(m, t, Making);
    case EndCount(t) => EndCountKeepsInv(m, t, if Connections(m) == 0 then Idle else Counted(Connections(m)));
  }

  lemma MakerStepKeepsInv(m: Manager, a: Action)
    requires Inv(m) && Enabled(m, a) && (a.Make? || a.Raise? || a.Copy?)
    ensures Inv(Step(m, a))
  {
    match a
    case Make(t) => MakeKeepsInv(m, t);
    case Raise(t) => RaiseKeepsInv(m, t);
    case Copy(t, ids) =>
      MoveKeepsInv(m, t, Posting(m.callers[t].mid, Targets(m.registry, ids), Targets(m.registry, ids)));
  }

  lemma PosterStepKeepsInv(m: Manager, a: Action)
    requires Inv(m) && Enabled(m, a) && (a.Post? || a.Finish?)
    ensures Inv(Step(m, a))
  {
    match a
    case Post(t, sid) => PostKeepsInv(m, t, sid);
    case Finish(t) => FinishKeepsInv(m, t);
  }

  lemma ListenerStepKeepsInv(m: Manager, a: Action)
    requires Inv(m) && Enabled(m, a) && (a.Accept? || a.Decide? || a.Create?)
    ensures Inv(Step(m, a))
  {
    match a
    case Accept => AcceptKeepsInv(m);
    case Decide => DecideKeepsInv(m, if Connections(m) >= m.maxSessions then Armed else Admitted);
    case Create(id) => CreateKeepsInv(m, id);
  }

  lemma LifeStepKeepsInv(m: Manager, a: Action)
    requires Inv(m) && Enabled(m, a)
    requires a.Establish? || a.Settle? || a.Die? || a.Unlist? || a.Release?
    ensures Inv(Step(m, a))
  {
    match a
    case Establish(sid) => EstablishKeepsInv(m, sid);
    case Settle(sid) => SettleKeepsInv(m, sid);
    case Die(sid) => DieKeepsInv(m, sid);
    case Unlist(sid) => UnlistKeepsInv(m, sid);
    case Release(sid) => ReleaseKeepsInv(m, sid);
  }

  lemma SessionStepKeepsInv(m: Manager, a: Action)
    requires Inv(m) && Enabled(m, a)
    requires a.RunPost? || a.Respond? || a.Deliver? || a.WriteDone? || a.Stop?
    ensures Inv(Step(m, a))
  {
    match a
    case RunPost(sid, k) => RunPostKeepsInv(m, sid, k);
    case Respond(sid) => RespondKeepsInv(m, sid);
    case Deliver(sid) => DeliverKeepsInv(m, sid);
    case WriteDone(sid, failed, closesNow) => WriteKeepsInv(m, sid, failed, closesNow);
    case Stop(sid, b) => PumpStepKeepsInv(m, sid, b);
  }

  lemma StepKeepsInv(m: Manager, a: Action)
    requires Inv(m)
    ensures Inv(Step(m, a))
  {
    if Enabled(m, a) {
      if a.RunPost? || a.Respond? || a.Deliver? || a.WriteDone? || a.Stop? {
        SessionStepKeepsInv(m, a);
      } else if a.Establish? || a.Settle? || a.Die? || a.Unlist? || a.Release? {
        LifeStepKeepsInv(m, a);
      } else if a.Accept? || a.Decide? || a.Create? {
        ListenerStepKeepsInv(m, a);
      } else if a.Check? || a.BeginCount? || a.EndCount? || a.BeginMake? {
        CheckStepKeepsInv(m, a);
      } else if a.Delete? {
        DeleteKeepsInv(m);
      } else if a.Post? || a.Finish? {
        PosterStepKeepsInv(m, a);
      } else {
        MakerStepKeepsInv(m, a);
      }
    }
  }

  lemma {:induction false} RunKeepsInv(m: Manager, acts: seq<Action>)
    requires Inv(m)
    ensures Inv(Run(m, acts))
    decreases |acts|
  {
    if acts != [] {
      StepKeepsInv(m, acts[0]);
      RunKeepsInv(Step(m, acts[0]), acts[1..]);
    }
  }

  lemma InitKeepsInv(maxSessions: nat, threads: nat)
    ensures Inv(Init(maxSessions, threads))
  {
    NoRefsInitially(threads);
    var m := Init(maxSessions, threads);
    assert MadeBy(m.callers) == {} && InWindow(m.callers) == {} && LiveMessages(m.refs) == {} && LiveSessions(m.sessions) == {};
  }

  // ----- main results -----

  lemma {:induction false} SizesFixed(m: Manager, acts: seq<Action>)
    ensures |Run(m, acts).callers| == |m.callers| && Run(m, acts).maxSessions == m.maxSessions
    decreases |acts|
  {
    if acts != [] {
      SizesAtStep(m, acts[0]);
      SizesFixed(Step(m, acts[0]), acts[1..]);
    }
  }

  lemma {:induction false} DropAllSizes(m: Manager, items: seq<Item>)
    ensures DropAll(m, items).callers == m.callers && DropAll(m, items).maxSessions == m.maxSessions
    decreases |items|
  {
    if items != [] {
      DropAllSizes(if items[0].Message? then Drop(m, items[0].mid) else m, items[1..]);
    }
  }

  lemma SizesAtStep(m: Manager, a: Action)
    ensures |Step(m, a).callers| == |m.callers| && Step(m, a).maxSessions == m.maxSessions
  {
    if Enabled(m, a) && a.RunPost? {
      var x := m.sessions[a.sid];
      DropAllSizes(SetSession(m, a.sid, AfterPost(x, a.k)), if Accepts(x.pump) then [] else [Message(x.posted[a.k])]);
    } else if Enabled(m, a) && a.WriteDone? {
      var x := m.sessions[a.sid];
      DropAllSizes(SetSession(m, a.sid, x.(pump := OnWrite(x.pump, a.failed, a.closesNow))), LeavingItems(x.pump, a.failed));
    }
  }

  /** The messages some caller, posted handler or session queue refers to. */
  function Referenced(m: Manager): set<nat> {
    set mid | mid in CallerRefs(m.callers) + SessionRefs(m.sessions)
  }

  /** Distinct callers have just made distinct messages, and each is referenced. */
  lemma {:induction false} MadeAreReferenced(callers: seq<Caller>, nextMid: nat, refs: multiset<nat>, made: set<nat>)
    returns (mids: set<nat>)
    requires OwnMessages(callers, nextMid) && made <= MadeBy(callers)
    requires forall mid :: mid in CallerRefs(callers) ==> mid in refs
    ensures mids <= LiveMessages(refs) && |mids| == |made|
    ensures forall mid :: mid in mids ==> exists t :: t in made && callers[t].mid == mid
    decreases made
  {
    if made == {} {
      mids := {};
    } else {
      var t :| t in made;
      CallerHasRef(callers, t);
      var rest := MadeAreReferenced(callers, nextMid, refs, made - {t});
      mids := rest + {callers[t].mid};
      assert forall u :: u in made - {t} ==> MidOf(callers[u]) != MidOf(callers[t]);
      assert callers[t].mid !in rest;
    }
  }

  /** Live accounting, in every run: the counter is the number of messages that a caller, a posted
      handler or a session queue still refers to, but for those whose caller is about to count them; it is
      never negative, and with N threads it never exceeds 499 + N. */
  lemma BroadcastAccounting(maxSessions: nat, threads: nat, acts: seq<Action>)
    ensures var m := Run(Init(maxSessions, threads), acts);
            && m.msgQueued == |Referenced(m)| - |MadeBy(m.callers)|
            && 0 <= m.msgQueued <= QUEUE_SEND_MAX - 1 + threads
            && forall mid :: mid in Referenced(m) <==> m.refs[mid] > 0
  {
    InitKeepsInv(maxSessions, threads);
    RunKeepsInv(Init(maxSessions, threads), acts);
    SizesFixed(Init(maxSessions, threads), acts);
    AccountingOf(Run(Init(maxSessions, threads), acts));
  }

  lemma AccountingOf(m: Manager)
    requires Inv(m)
    ensures m.msgQueued == |Referenced(m)| - |MadeBy(m.callers)|
    ensures 0 <= m.msgQueued <= QUEUE_SEND_MAX - 1 + |m.callers|
    ensures forall mid :: mid in Referenced(m) <==> m.refs[mid] > 0
  {
    assert Referenced(m) == LiveMessages(m.refs);
    var mids := MadeAreReferenced(m.callers, m.nextMid, m.refs, MadeBy(m.callers));
    SubsetSize(mids, LiveMessages(m.refs));
  }

  /** What `connections()` shows while somebody is inside it. */
  ghost predicate ConnectionsTell(m: Manager) {
    m.temps != {} ==>
      && Connections(m) == |LiveSessions(m.sessions)| + |Referenced(m)| + (|m.temps| - 1) + m.deleting
      && (Connections(m) == |LiveSessions(m.sessions)| <==> Referenced(m) == {} && |m.temps| == 1 && m.deleting == 0)
  }

  /** `connections()`, in every run: it is the number of live sessions, plus that of live broadcasts, plus the
      other temporary references and the deleters on their way out. So it is never below the number of
      sessions, and it is that number exactly when there is nothing of the others. */
  lemma ConnectionsAreSessionsAndBroadcasts(maxSessions: nat, threads: nat, acts: seq<Action>)
    ensures ConnectionsTell(Run(Init(maxSessions, threads), acts))
  {
    InitKeepsInv(maxSessions, threads);
    RunKeepsInv(Init(maxSessions, threads), acts);
    InvGivesConnections(Run(Init(maxSessions, threads), acts));
  }

  lemma InvGivesConnections(m: Manager)
    requires Inv(m)
    ensures ConnectionsTell(m)
  {
    assert Referenced(m) == LiveMessages(m.refs);
    if m.temps != {} {
      ConnectionsCounts(m);
    }
  }

  /** A plain listener never lets the live sessions exceed the configured maximum, in any run and with any
      number of threads broadcasting. */
  lemma SessionCap(maxSessions: nat, threads: nat, acts: seq<Action>)
    ensures |LiveSessions(Run(Init(maxSessions, threads), acts).sessions)| <= maxSessions
  {
    InitKeepsInv(maxSessions, threads);
    RunKeepsInv(Init(maxSessions, threads), acts);
    SizesFixed(Init(maxSessions, threads), acts);
  }

  /** Every id in the registry leads to an established session under that id that is not yet destroyed, and
      every such session is found under its id; a broadcast is copied to exactly the listed sessions it
      asks for, however often it repeats an id. */
  ghost predicate RegistryTells(registry: map<nat, nat>, sessions: seq<Session>, ids: Option<seq<nat>>) {
    && (forall id :: id in registry ==>
          registry[id] < |sessions| && Listed(sessions[registry[id]]) && sessions[registry[id]].id == id)
    && (forall sid :: 0 <= sid < |sessions| ==> FoundBy(registry, sid, sessions[sid], ids))
    && (forall sid :: sid in Targets(registry, ids) ==> sid < |sessions|)
  }

  ghost predicate FoundBy(registry: map<nat, nat>, sid: nat, x: Session, ids: Option<seq<nat>>) {
    && (Listed(x) <==> x.id in registry && registry[x.id] == sid)
    && (sid in Targets(registry, ids) <==> Listed(x) && (ids.None? || x.id in ids.value))
  }

  lemma RegistryAgrees(maxSessions: nat, threads: nat, acts: seq<Action>, ids: Option<seq<nat>>)
    ensures var m := Run(Init(maxSessions, threads), acts);
            RegistryTells(m.registry, m.sessions, ids)
  {
    InitKeepsInv(maxSessions, threads);
    RunKeepsInv(Init(maxSessions, threads), acts);
    var m := Run(Init(maxSessions, threads), acts);
    RegistryShows(m.registry, m.sessions, ids);
  }

  lemma RegistryShows(registry: map<nat, nat>, sessions: seq<Session>, ids: Option<seq<nat>>)
    requires Registry(registry, sessions)
    ensures RegistryTells(registry, sessions, ids)
  {
    forall sid | 0 <= sid < |sessions| ensures FoundBy(registry, sid, sessions[sid], ids) {
      var x := sessions[sid];
      if x.id in registry && (ids.None? || x.id in ids.value) {
        assert registry[x.id] in Targets(registry, ids);
      }
    }
  }

  // ----- one post for each target -----

  /** How far a caller's message has been posted: to none before the registry is copied; then once to each
      session copied and done with that was alive at its turn, and to nobody else. */
  ghost predicate PostedTo(c: Caller, posts: multiset<(nat, nat)>, sessions: seq<Session>) {
    && (c.Made? || c.Raised? ==> forall sid: nat :: posts[(c.mid, sid)] == 0)
    && (c.Posting? ==>
          && c.targets <= c.copied
          && (forall sid: nat :: sid !in c.copied || sid in c.targets ==> posts[(c.mid, sid)] == 0)
          && (forall sid: nat :: sid in c.copied && sid !in c.targets ==>
                posts[(c.mid, sid)] == 1 || IsDead(sessions, sid)))
  }

  predicate IsDead(sessions: seq<Session>, sid: nat) {
    sid < |sessions| && sessions[sid].status != Live
  }

  ghost predicate PostsOk(m: Manager) {
    && (forall p :: p in m.posts ==> p.0 < m.nextMid && m.posts[p] == 1)
    && (forall t :: 0 <= t < |m.callers| ==> PostedTo(m.callers[t], m.posts, m.sessions))
  }

  /** The dead stay dead, and are the only ones to lose a post. */
  ghost predicate DeadStay(sessions: seq<Session>, sessions': seq<Session>) {
    forall sid :: IsDead(sessions, sid) ==> IsDead(sessions', sid)
  }

  lemma PostsSurvive(m: Manager, m': Manager)
    requires PostsOk(m) && m'.posts == m.posts && m'.callers == m.callers && m.nextMid <= m'.nextMid
    requires DeadStay(m.sessions, m'.sessions)
    ensures PostsOk(m')
  {
    forall t | 0 <= t < |m.callers| ensures PostedTo(m'.callers[t], m'.posts, m'.sessions) {
      assert PostedTo(m.callers[t], m.posts, m.sessions);
    }
  }

  lemma PostsAfterCaller(m: Manager, m': Manager, t: nat)
    requires PostsOk(m) && t < |m.callers| && |m'.callers| == |m.callers|
    requires m'.callers == m.callers[t := m'.callers[t]]
    requires m'.posts == m.posts && m'.sessions == m.sessions && m.nextMid <= m'.nextMid
    requires PostedTo(m'.callers[t], m.posts, m.sessions)
    ensures PostsOk(m')
  {
  }

  /** The steps of a caller that post nothing. */
  lemma CallerStepPosts(m: Manager, a: Action)
    requires PostsOk(m) && Enabled(m, a)
    requires a.Check? || a.BeginCount? || a.EndCount? || a.BeginMake? || a.Raise? || a.Copy?
    ensures PostsOk(Step(m, a))
  {
    assert PostedTo(m.callers[a.t], m.posts, m.sessions);
    PostsAfterCaller(m, Step(m, a), a.t);
  }

  lemma MakePosts(m: Manager, t: nat)
    requires PostsOk(m) && t < |m.callers|
    ensures PostsOk(AfterMake(m, t))
  {
    forall sid: nat ensures m.posts[(m.nextMid, sid)] == 0 {
      assert (m.nextMid, sid) !in m.posts;
    }
    PostsAfterCaller(m, AfterMake(m, t), t);
  }

  lemma FinishPosts(m: Manager, t: nat)
    requires PostsOk(m) && t < |m.callers| && m.callers[t].Posting?
    ensures PostsOk(AfterFinish(m, t))
  {
    PostsAfterCaller(m, AfterFinish(m, t), t);
  }

  lemma PostPosts(m: Manager, t: nat, sid: nat)
    requires OwnMessages(m.callers, m.nextMid) && PostsOk(m)
    requires t < |m.callers| && m.callers[t].Posting? && sid in m.callers[t].targets && sid < |m.sessions|
    ensures PostsOk(AfterPosting(m, t, sid))
  {
    var m', c, x := AfterPosting(m, t, sid), m.callers[t], m.sessions[sid];
    var live := x.status == Live;
    assert PostedTo(c, m.posts, m.sessions);
    OwnPost(c, m.posts, m.sessions, sid, m'.sessions);
    forall u | 0 <= u < |m.callers| && u != t ensures PostedTo(m.callers[u], m'.posts, m'.sessions) {
      assert PostedTo(m.callers[u], m.posts, m.sessions);
      OwnMid(m.callers, m.nextMid, t, u);
      OthersPost(m.callers[u], m.posts, m.sessions, c.mid, sid, live, m'.sessions);
    }
    OwnMid(m.callers, m.nextMid, t, t);
    assert (c.mid, sid) !in m.posts;
  }

  lemma OwnMid(callers: seq<Caller>, nextMid: nat, t: nat, u: nat)
    requires OwnMessages(callers, nextMid) && t < |callers| && callers[t].Posting? && u < |callers|
    ensures callers[t].mid < nextMid
    ensures u != t ==> MidOf(callers[u]) != Some(callers[t].mid)
  {
    assert MidOf(callers[t]).value < nextMid;
  }

  lemma OwnPost(c: Caller, posts: multiset<(nat, nat)>, sessions: seq<Session>, sid: nat, sessions': seq<Session>)
    requires PostedTo(c, posts, sessions) && c.Posting? && sid in c.targets && sid < |sessions|
    requires DeadStay(sessions, sessions')
    ensures var live := sessions[sid].status == Live;
            PostedTo(Posting(c.mid, c.targets - {sid}, c.copied),
                     if live then posts + multiset{(c.mid, sid)} else posts, sessions')
  {
  }

  lemma OthersPost(c: Caller, posts: multiset<(nat, nat)>, sessions: seq<Session>, mid: nat, sid: nat, live: bool,
                   sessions': seq<Session>)
    requires PostedTo(c, posts, sessions) && MidOf(c) != Some(mid) && DeadStay(sessions, sessions')
    ensures PostedTo(c, if live then posts + multiset{(mid, sid)} else posts, sessions')
  {
  }

  lemma {:induction false} DropAllLeaves(m: Manager, items: seq<Item>)
    ensures var m' := DropAll(m, items);
            m' == m.(refs := m'.refs, msgQueued := m'.msgQueued, deleting := m'.deleting)
    decreases |items|
  {
    if items != [] {
      DropAllLeaves(if items[0].Message? then Drop(m, items[0].mid) else m, items[1..]);
    }
  }

  predicate OfCaller(a: Action) {
    a.Check? || a.BeginCount? || a.EndCount? || a.BeginMake? || a.Make? || a.Raise? || a.Copy? || a.Post? || a.Finish?
  }

  /** A step that is not a caller's leaves callers and posts alone, and nobody comes back to life. */
  lemma OtherStep(m: Manager, a: Action)
    requires Enabled(m, a) && !OfCaller(a) && !a.RunPost? && !a.WriteDone?
    ensures var m' := Step(m, a);
            && m'.callers == m.callers && m'.posts == m.posts && m'.nextMid == m.nextMid
            && DeadStay(m.sessions, m'.sessions)
  {
  }

  lemma ReleasingStep(m: Manager, a: Action)
    requires Enabled(m, a) && (a.RunPost? || a.WriteDone?)
    ensures var m' := Step(m, a);
            && m'.callers == m.callers && m'.posts == m.posts && m'.nextMid == m.nextMid
            && DeadStay(m.sessions, m'.sessions)
  {
    var x := m.sessions[a.sid];
    if a.RunPost? {
      DropAllLeaves(SetSession(m, a.sid, AfterPost(x, a.k)), if Accepts(x.pump) then [] else [Message(x.posted[a.k])]);
    } else {
      DropAllLeaves(SetSession(m, a.sid, x.(pump := OnWrite(x.pump, a.failed, a.closesNow))), LeavingItems(x.pump, a.failed));
    }
  }

  lemma StepKeepsPosts(m: Manager, a: Action)
    requires Inv(m) && PostsOk(m)
    ensures PostsOk(Step(m, a))
  {
    if Enabled(m, a) {
      if a.Make? {
        MakePosts(m, a.t);
      } else if a.Post? {
        PostPosts(m, a.t, a.sid);
      } else if a.Finish? {
        FinishPosts(m, a.t);
      } else if OfCaller(a) {
        CallerStepPosts(m, a);
      } else if a.RunPost? || a.WriteDone? {
        ReleasingStep(m, a);
        PostsSurvive(m, Step(m, a));
      } else {
        OtherStep(m, a);
        PostsSurvive(m, Step(m, a));
      }
    }
  }

  lemma {:induction false} RunKeepsPosts(m: Manager, acts: seq<Action>)
    requires Inv(m) && PostsOk(m)
    ensures PostsOk(Run(m, acts))
    decreases |acts|
  {
    if acts != [] {
      StepKeepsInv(m, acts[0]);
      StepKeepsPosts(m, acts[0]);
      RunKeepsPosts(Step(m, acts[0]), acts[1..]);
    }
  }

  /** When a broadcast is through with its copy of the registry, its message has been posted exactly once to
      each session copied, but for those no longer alive, and to no other session. */
  ghost predicate PostedOnce(m: Manager, t: nat)
    requires t < |m.callers|
  {
    m.callers[t].Posting? && m.callers[t].targets == {} ==>
      forall sid: nat ::
        && m.posts[(m.callers[t].mid, sid)] <= 1
        && (sid !in m.callers[t].copied ==> m.posts[(m.callers[t].mid, sid)] == 0)
        && (sid in m.callers[t].copied && !IsDead(m.sessions, sid) ==> m.posts[(m.callers[t].mid, sid)] == 1)
  }

  lemma InvGivesPostedOnce(m: Manager, t: nat)
    requires PostsOk(m) && t < |m.callers|
    ensures PostedOnce(m, t)
  {
    assert PostedTo(m.callers[t], m.posts, m.sessions);
    forall sid: nat | m.callers[t].Posting? ensures m.posts[(m.callers[t].mid, sid)] <= 1 {
      assert (m.callers[t].mid, sid) in m.posts ==> m.posts[(m.callers[t].mid, sid)] == 1;
    }
  }

  /** In every run, whatever sessions come and go meanwhile. */
  lemma EachTargetGetsOne(maxSessions: nat, threads: nat, acts: seq<Action>, t: nat)
    requires t < |Run(Init(maxSessions, threads), acts).callers|
    ensures PostedOnce(Run(Init(maxSessions, threads), acts), t)
  {
    InitKeepsInv(maxSessions, threads);
    RunKeepsPosts(Init(maxSessions, threads), acts);
    InvGivesPostedOnce(Run(Init(maxSessions, threads), acts), t);
  }

  // ----- who is admitted, and which broadcasts go out -----

  /** The listener that asks now will admit the connection, or turn it away. */
  ghost predicate AdmitsIfRoom(m: Manager, maxSessions: nat) {
    m.listener == Asking ==>
      var others := m.temps - {|m.callers|};
      var counted := |LiveSessions(m.sessions)| + |LiveMessages(m.refs)| + |others| + m.deleting;
      Step(m, Decide).listener == if counted < maxSessions then Admitted else Armed
  }

  /** In every run a connection is admitted exactly when the live sessions, live broadcasts, other temporary
      references and deleters on their way out are together fewer than the maximum. */
  lemma AdmittedIff(maxSessions: nat, threads: nat, acts: seq<Action>)
    ensures AdmitsIfRoom(Run(Init(maxSessions, threads), acts), maxSessions)
  {
    InitKeepsInv(maxSessions, threads);
    RunKeepsInv(Init(maxSessions, threads), acts);
    SizesFixed(Init(maxSessions, threads), acts);
    InvDecides(Run(Init(maxSessions, threads), acts));
  }

  lemma InvDecides(m: Manager)
    requires Use(m.useCount - m.deleting, m.sessions, m.refs, m.temps) && Temps(m.callers, m.listener, m.temps)
    ensures AdmitsIfRoom(m, m.maxSessions)
  {
    if m.listener == Asking {
      ConnectionsCounts(m);
      OneFewer(m.temps, |m.callers|);
    }
  }

  lemma OneFewer(temps: set<nat>, t: nat)
    requires t in temps
    ensures |temps| == |temps - {t}| + 1
  {
  }

  /** The sections of `broadcast` up to the copy of the registry. */
  function UpToCount(t: nat): seq<Action> {
    [Check(t)] + ([BeginCount(t)] + ([EndCount(t)] + []))
  }

  function UpToCopy(t: nat, ids: Option<seq<nat>>): seq<Action> {
    [BeginMake(t)] + ([Make(t)] + ([Raise(t)] + ([Copy(t, ids)] + [])))
  }

  /** Everything `connections()` counts. */
  function AllCounted(m: Manager): nat {
    |LiveSessions(m.sessions)| + |LiveMessages(m.refs)| + |m.temps| + m.deleting
  }

  lemma IdleHoldsNothing(callers: seq<Caller>, listener: Listener, temps: set<nat>, t: nat)
    requires Temps(callers, listener, temps) && t < |callers| && !HoldsManager(callers[t])
    ensures t !in temps && (temps + {t}) - {t} == temps
  {
  }

  /** The thread inside `connections()`. */
  function InCount(m: Manager, t: nat): Manager
    requires t < |m.callers|
  {
    SetCaller(m, t, Counting).(useCount := m.useCount + 1, temps := m.temps + {t})
  }

  lemma CountIsAll(m: Manager, t: nat)
    requires Use(m.useCount - m.deleting, m.sessions, m.refs, m.temps) && t < |m.callers|
    ensures Connections(InCount(m, t)) == AllCounted(m) >= 0
  {
  }

  lemma EndsCount(m: Manager, t: nat)
    requires t < |m.callers| && m.callers[t] == Idle && t !in m.temps
    ensures var n := Connections(InCount(m, t));
            Step(InCount(m, t), EndCount(t)) == if n == 0 then m else SetCaller(m, t, Counted(n))
  {
    var m2, n := InCount(m, t), Connections(InCount(m, t));
    assert m2.callers[t := Idle] == m.callers && m2.callers[t := Counted(n)] == m.callers[t := Counted(n)];
    assert m2.temps - {t} == m.temps;
  }

  lemma BeginsCount(m: Manager, t: nat)
    requires t < |m.callers| && m.callers[t] == Idle && m.msgQueued < QUEUE_SEND_MAX
    ensures Step(Step(m, Check(t)), BeginCount(t)) == InCount(m, t)
  {
    assert SetCaller(m, t, Checked).callers[t := Counting] == m.callers[t := Counting];
  }

  lemma CountSections(m: Manager, t: nat)
    requires Use(m.useCount - m.deleting, m.sessions, m.refs, m.temps) && t !in m.temps
    requires t < |m.callers| && m.callers[t] == Idle && m.msgQueued < QUEUE_SEND_MAX
    ensures Run(m, UpToCount(t)) == if AllCounted(m) == 0 then m else SetCaller(m, t, Counted(AllCounted(m)))
  {
    BeginsCount(m, t);
    CountIsAll(m, t);
    EndsCount(m, t);
    RunOf(m, Check(t), [BeginCount(t)] + ([EndCount(t)] + []));
    RunOf(Step(m, Check(t)), BeginCount(t), [EndCount(t)] + []);
    RunOf(InCount(m, t), EndCount(t), []);
  }

  lemma RefusedSections(m: Manager, t: nat)
    requires t < |m.callers| && m.callers[t] == Idle && m.msgQueued >= QUEUE_SEND_MAX
    ensures Run(m, UpToCount(t)) == m
  {
    RunOf(m, Check(t), [BeginCount(t)] + ([EndCount(t)] + []));
    RunOf(m, BeginCount(t), [EndCount(t)] + []);
    RunOf(m, EndCount(t), []);
  }

  lemma IdleGoesNowhere(m: Manager, t: nat, ids: Option<seq<nat>>)
    requires t < |m.callers| && m.callers[t] == Idle
    ensures Run(m, UpToCopy(t, ids)) == m
  {
    RunOf(m, BeginMake(t), [Make(t)] + ([Raise(t)] + ([Copy(t, ids)] + [])));
    RunOf(m, Make(t), [Raise(t)] + ([Copy(t, ids)] + []));
    RunOf(m, Raise(t), [Copy(t, ids)] + []);
    RunOf(m, Copy(t, ids), []);
  }

  /** The broadcast of thread `t` as it begins to post to `targets`. */
  function BeginsToPost(m: Manager, t: nat, targets: set<nat>): Manager
    requires t < |m.callers|
  {
    SetCaller(m, t, Posting(m.nextMid, targets, targets)).(
      refs := m.refs + multiset{m.nextMid}, nextMid := m.nextMid + 1, useCount := m.useCount + 1,
      msgQueued := m.msgQueued + 1)
  }

  lemma MakeSections(m: Manager, t: nat, ids: Option<seq<nat>>, n: int)
    requires t < |m.callers| && t !in m.temps
    ensures Run(SetCaller(m, t, Counted(n)), UpToCopy(t, ids)) == BeginsToPost(m, t, Targets(m.registry, ids))
  {
    var m0 := SetCaller(m, t, Counted(n));
    var m1 := SetCaller(m, t, Making).(useCount := m.useCount + 1, temps := m.temps + {t});
    var m2 := SetCaller(m, t, Made(m.nextMid)).(
      useCount := m.useCount + 1, refs := m.refs + multiset{m.nextMid}, nextMid := m.nextMid + 1);
    var m3 := m2.(callers := m.callers[t := Raised(m.nextMid)], msgQueued := m.msgQueued + 1);
    assert m0.callers[t := Making] == m1.callers && m1.callers[t := Made(m.nextMid)] == m2.callers;
    assert m2.callers[t := Raised(m.nextMid)] == m3.callers;
    assert (m.temps + {t}) - {t} == m.temps;
    RunOf(m0, BeginMake(t), [Make(t)] + ([Raise(t)] + ([Copy(t, ids)] + [])));
    RunOf(m1, Make(t), [Raise(t)] + ([Copy(t, ids)] + []));
    RunOf(m2, Raise(t), [Copy(t, ids)] + []);
    RunOf(m3, Copy(t, ids), []);
    var targets := Targets(m.registry, ids);
    assert m3.callers[t := Posting(m.nextMid, targets, targets)] == m.callers[t := Posting(m.nextMid, targets, targets)];
  }

  /** The broadcast goes out, to exactly the listed sessions it asks for, or nothing changes at all. */
  ghost predicate GoesOut(m: Manager, t: nat, ids: Option<seq<nat>>, r: Manager)
    requires t < |m.callers|
  {
    if m.msgQueued >= 500 || AllCounted(m) == 0 then r == m
    else
      exists targets: set<nat> ::
        && r == BeginsToPost(m, t, targets)
        && forall sid :: sid in targets
             <==> 0 <= sid < |m.sessions| && Listed(m.sessions[sid]) && (ids.None? || m.sessions[sid].id in ids.value)
  }

  lemma BroadcastStays(m: Manager, t: nat, ids: Option<seq<nat>>)
    requires t < |m.callers| && m.callers[t] == Idle && Run(m, UpToCount(t)) == m
    ensures Run(m, UpToCount(t) + UpToCopy(t, ids)) == m
  {
    RunAppend(m, UpToCount(t), UpToCopy(t, ids));
    IdleGoesNowhere(m, t, ids);
  }

  lemma BroadcastGoes(m: Manager, t: nat, ids: Option<seq<nat>>, n: int)
    requires t < |m.callers| && t !in m.temps && Run(m, UpToCount(t)) == SetCaller(m, t, Counted(n))
    ensures Run(m, UpToCount(t) + UpToCopy(t, ids)) == BeginsToPost(m, t, Targets(m.registry, ids))
  {
    RunAppend(m, UpToCount(t), UpToCopy(t, ids));
    MakeSections(m, t, ids, n);
  }

  lemma InvGoesOut(m: Manager, t: nat, ids: Option<seq<nat>>)
    requires Inv(m) && t < |m.callers| && m.callers[t] == Idle
    ensures GoesOut(m, t, ids, Run(m, UpToCount(t) + UpToCopy(t, ids)))
  {
    IdleHoldsNothing(m.callers, m.listener, m.temps, t);
    if m.msgQueued >= QUEUE_SEND_MAX {
      RefusedSections(m, t);
      BroadcastStays(m, t, ids);
    } else {
      CountSections(m, t);
      if AllCounted(m) == 0 {
        BroadcastStays(m, t, ids);
      } else {
        BroadcastGoes(m, t, ids, AllCounted(m));
        RegistryShows(m.registry, m.sessions, ids);
        AskedFor(m.registry, m.sessions, ids);
      }
    }
  }

  lemma AskedFor(registry: map<nat, nat>, sessions: seq<Session>, ids: Option<seq<nat>>)
    requires RegistryTells(registry, sessions, ids)
    ensures forall sid :: sid in Targets(registry, ids)
              <==> 0 <= sid < |sessions| && Listed(sessions[sid]) && (ids.None? || sessions[sid].id in ids.value)
  {
    forall sid ensures sid in Targets(registry, ids)
                  <==> 0 <= sid < |sessions| && Listed(sessions[sid]) && (ids.None? || sessions[sid].id in ids.value)
    {
      assert 0 <= sid < |sessions| ==> FoundBy(registry, sid, sessions[sid], ids);
    }
  }

  /** A broadcast goes out exactly when fewer than 500 are counted and `connections()` counts anything: from
      any state of any run, a thread that goes through the sections of `broadcast` while the others pause ends
      up posting a message of its own, counted and referenced once, to the listed sessions asked for; and
      changes nothing otherwise. */
  lemma BroadcastGoesOutIff(maxSessions: nat, threads: nat, acts: seq<Action>, t: nat, ids: Option<seq<nat>>)
    requires t < |Run(Init(maxSessions, threads), acts).callers| && Run(Init(maxSessions, threads), acts).callers[t] == Idle
    ensures var m := Run(Init(maxSessions, threads), acts);
            GoesOut(m, t, ids, Run(m, UpToCount(t) + UpToCopy(t, ids)))
  {
    InitKeepsInv(maxSessions, threads);
    RunKeepsInv(Init(maxSessions, threads), acts);
    InvGoesOut(Run(Init(maxSessions, threads), acts), t, ids);
  }

  // ----- a session's writes -----

  /** What action `a` is to the write pump of session `sid`. */
  function PumpActionOf(m: Manager, a: Action, sid: nat): Option<WritePump.Action<Item>>
    requires sid < |m.sessions|
  {
    var x := m.sessions[sid];
    match a
    case RunPost(i, k) => if i == sid && k < |x.posted| then Some(Send(Message(x.posted[k]))) else None
    case Respond(i) => if i == sid && x.pending && x.status == Live then Some(Send(Response)) else None
    case Deliver(i) => if i == sid then Some(WritePump.Action.Deliver) else None
    case WriteDone(i, failed, closesNow) =>
      if i == sid then Some(WritePump.Action.WriteDone(failed, closesNow)) else None
    case Stop(i, b) =>
      if i == sid && x.status == Live && (b.ReadError? || b.PeerClose? || b.Close?) then Some(b) else None
    case _ => None
  }

  ghost predicate PumpMoves(m: Manager, a: Action, sid: nat)
    requires sid < |m.sessions|
  {
    var b, xs := PumpActionOf(m, a, sid), Step(m, a).sessions;
    sid < |xs| && xs[sid].pump == if b.Some? then WritePump.Step(m.sessions[sid].pump, b.value) else m.sessions[sid].pump
  }

  lemma ReleasingMovesPump(m: Manager, a: Action, sid: nat)
    requires sid < |m.sessions| && Enabled(m, a) && (a.RunPost? || a.WriteDone?)
    ensures PumpMoves(m, a, sid)
  {
    var x := m.sessions[a.sid];
    if a.RunPost? {
      DropAllLeaves(SetSession(m, a.sid, AfterPost(x, a.k)), if Accepts(x.pump) then [] else [Message(x.posted[a.k])]);
    } else {
      DropAllLeaves(SetSession(m, a.sid, x.(pump := OnWrite(x.pump, a.failed, a.closesNow))),
                    LeavingItems(x.pump, a.failed));
    }
  }

  lemma CallerMovesNoPump(m: Manager, a: Action, sid: nat)
    requires sid < |m.sessions| && Enabled(m, a) && OfCaller(a)
    ensures PumpMoves(m, a, sid)
  {
  }

  lemma OtherMovesPump(m: Manager, a: Action, sid: nat)
    requires sid < |m.sessions| && Enabled(m, a) && !OfCaller(a) && !a.RunPost? && !a.WriteDone?
    ensures PumpMoves(m, a, sid)
  {
  }

  lemma IdleMovesNoPump(m: Manager, a: Action, sid: nat)
    requires sid < |m.sessions| && Pumps(m.sessions) && !Enabled(m, a)
    ensures PumpMoves(m, a, sid)
  {
  }

  lemma StepMovesPump(m: Manager, a: Action, sid: nat)
    requires sid < |m.sessions| && Pumps(m.sessions)
    ensures PumpMoves(m, a, sid)
  {
    if !Enabled(m, a) {
      IdleMovesNoPump(m, a, sid);
    } else if a.RunPost? || a.WriteDone? {
      ReleasingMovesPump(m, a, sid);
    } else if OfCaller(a) {
      CallerMovesNoPump(m, a, sid);
    } else {
      OtherMovesPump(m, a, sid);
    }
  }

  function PumpActionsOf(m: Manager, acts: seq<Action>, sid: nat): seq<WritePump.Action<Item>>
    decreases |acts|
  {
    if acts == [] || sid >= |m.sessions| then []
    else
      var later := PumpActionsOf(Step(m, acts[0]), acts[1..], sid);
      match PumpActionOf(m, acts[0], sid)
      case Some(b) => [b] + later
      case None => later
  }

  lemma PumpRunOn(p: Pump<Item>, b: WritePump.Action<Item>, later: seq<WritePump.Action<Item>>)
    ensures WritePump.Run(p, [b] + later) == WritePump.Run(WritePump.Step(p, b), later)
  {
    assert ([b] + later)[1..] == later;
  }

  lemma {:induction false} PumpRuns(m: Manager, acts: seq<Action>, sid: nat)
    requires Inv(m) && sid < |m.sessions|
    ensures sid < |Run(m, acts).sessions|
    ensures Run(m, acts).sessions[sid].pump == WritePump.Run(m.sessions[sid].pump, PumpActionsOf(m, acts, sid))
    decreases |acts|
  {
    if acts != [] {
      StepMovesPump(m, acts[0], sid);
      StepKeepsInv(m, acts[0]);
      PumpRuns(Step(m, acts[0]), acts[1..], sid);
      if PumpActionOf(m, acts[0], sid).Some? {
        PumpRunOn(m.sessions[sid].pump, PumpActionOf(m, acts[0], sid).value,
                  PumpActionsOf(Step(m, acts[0]), acts[1..], sid));
      }
    }
  }

  /** Each session of the server is a write pump on which broadcasts and responses meet: in any run, from any
      of its states on, what it accepts and delivers is what the pump does with the posted broadcasts that ran
      there, its responses, deliveries, completions, errors and closes, in this order. */
  lemma SessionIsPump(maxSessions: nat, threads: nat, before: seq<Action>, acts: seq<Action>, sid: nat)
    requires sid < |Run(Init(maxSessions, threads), before).sessions|
    ensures var m := Run(Init(maxSessions, threads), before);
            && sid < |Run(m, acts).sessions|
            && Run(m, acts).sessions[sid].pump == WritePump.Run(m.sessions[sid].pump, PumpActionsOf(m, acts, sid))
  {
    InitKeepsInv(maxSessions, threads);
    RunKeepsInv(Init(maxSessions, threads), before);
    PumpRuns(Run(Init(maxSessions, threads), before), acts, sid);
  }

  // ----- a run in which a broadcast is counted as a connection -----

  lemma RunOf(m: Manager, a: Action, rest: seq<Action>)
    ensures Run(m, [a] + rest) == Run(Step(m, a), rest)
  {
    assert ([a] + rest)[1..] == rest;
  }

  /** One session, and no thread is doing anything. */
  function OneSession(id: nat): Manager {
    Manager(2, 0, multiset{}, 0, BASE_REFS + 1, {}, 0, multiset{}, [NewSession(id)], map[], [Idle], Armed)
  }

  function Asked(): Manager {
    Manager(2, 0, multiset{}, 0, BASE_REFS, {}, 0, multiset{}, [], map[], [Idle], Admitted)
  }

  lemma ListenerAdmits()
    ensures Run(Init(2, 1), [Accept] + ([Decide] + [])) == Asked()
  {
    var m0 := Init(2, 1);
    var m1 := AfterAccept(m0);
    assert m0.callers == [Idle];
    assert m1.temps == {1} && m1.temps - {1} == {};
    RunOf(m0, Accept, [Decide] + []);
    RunOf(m1, Decide, []);
  }

  lemma SessionComes(id: nat)
    ensures Run(Asked(), [Create(id)] + []) == OneSession(id)
  {
    RunOf(Asked(), Create(id), []);
  }

  /** The thread has counted one connection. */
  function CountedOne(id: nat): Manager {
    OneSession(id).(callers := [Counted(1)])
  }

  lemma ThreadCounts(id: nat)
    ensures Run(OneSession(id), [Check(0)] + ([BeginCount(0)] + ([EndCount(0)] + []))) == CountedOne(id)
  {
    var m0 := OneSession(id);
    var m1 := SetCaller(m0, 0, Checked);
    var m2 := Step(m1, BeginCount(0));
    RunOf(m0, Check(0), [BeginCount(0)] + ([EndCount(0)] + []));
    RunOf(m1, BeginCount(0), [EndCount(0)] + []);
    RunOf(m2, EndCount(0), []);
    assert m1.callers == [Checked] && m2.callers == [Counting] && m2.temps == {0};
    assert {0} - {0} == {};
  }

  /** The thread has its message. */
  function MadeOne(id: nat): Manager {
    OneSession(id).(callers := [Made(0)], refs := multiset{0}, nextMid := 1, useCount := BASE_REFS + 2)
  }

  lemma ThreadMakes(id: nat)
    ensures Run(CountedOne(id), [BeginMake(0)] + ([Make(0)] + [])) == MadeOne(id)
  {
    var m0 := CountedOne(id);
    var m1 := Step(m0, BeginMake(0));
    RunOf(m0, BeginMake(0), [Make(0)] + []);
    RunOf(m1, Make(0), []);
    assert m1.callers == [Making] && m1.temps == {0} && {0} - {0} == {};
  }

  /** The message is counted, and the listener counts connections. */
  function Broadcasting(id: nat): Manager {
    Manager(2, 1, multiset{0}, 1, BASE_REFS + 3, {1}, 0, multiset{}, [NewSession(id)], map[], [Raised(0)], Asking)
  }

  lemma ThreadRaises(id: nat)
    ensures Run(MadeOne(id), [Raise(0)] + ([Accept] + [])) == Broadcasting(id)
  {
    var m0 := MadeOne(id);
    RunOf(m0, Raise(0), [Accept] + []);
    RunOf(AfterRaise(m0, 0), Accept, []);
    assert AfterRaise(m0, 0).callers == [Raised(0)];
  }

  lemma {:induction false} RunAppend(m: Manager, a: seq<Action>, b: seq<Action>)
    ensures Run(m, a + b) == Run(Run(m, a), b)
    decreases |a|
  {
    if a == [] {
      assert a + b == b;
    } else {
      assert (a + b)[1..] == a[1..] + b;
      RunAppend(Step(m, a[0]), a[1..], b);
    }
  }

  function AdmitActions(id: nat): seq<Action> {
    [Accept] + ([Decide] + []) + ([Create(id)] + [])
  }

  function BroadcastActions(): seq<Action> {
    [Check(0)] + ([BeginCount(0)] + ([EndCount(0)] + [])) + ([BeginMake(0)] + ([Make(0)] + []))
    + ([Raise(0)] + ([Accept] + []))
  }

  lemma AdmitsOne(id: nat)
    ensures Run(Init(2, 1), AdmitActions(id)) == OneSession(id)
  {
    ListenerAdmits();
    SessionComes(id);
    RunAppend(Init(2, 1), [Accept] + ([Decide] + []), [Create(id)] + []);
  }

  lemma BroadcastBegins(id: nat)
    ensures Run(OneSession(id), BroadcastActions()) == Broadcasting(id)
  {
    ThreadCounts(id);
    ThreadMakes(id);
    ThreadRaises(id);
    var first, second := [Check(0)] + ([BeginCount(0)] + ([EndCount(0)] + [])), [BeginMake(0)] + ([Make(0)] + []);
    RunAppend(OneSession(id), first, second);
    RunAppend(OneSession(id), first + second, [Raise(0)] + ([Accept] + []));
  }

  /** One session and one live broadcast, and no room for a second session. */
  predicate SeemsFull(m: Manager) {
    && LiveSessions(m.sessions) == {0} && m.refs == multiset{0}
    && m.maxSessions == 2 && Connections(m) == 2 && Step(m, Decide).listener == Armed
  }

  lemma BroadcastingSeemsFull(id: nat)
    ensures SeemsFull(Broadcasting(id))
  {
  }

  /** With one session and one live broadcast `connections()` says 2, and a listener with room for one more
      session turns the next one away. */
  lemma BroadcastCountsAsConnection(id: nat)
    ensures SeemsFull(Run(Init(2, 1), AdmitActions(id) + BroadcastActions()))
  {
    AdmitsOne(id);
    BroadcastBegins(id);
    BroadcastingSeemsFull(id);
    RunAppend(Init(2, 1), AdmitActions(id), BroadcastActions());
  }
}
