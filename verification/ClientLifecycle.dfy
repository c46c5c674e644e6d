/** The client around its sessions. Caller threads run `send`, `send_recv`, `connect` and `disconnect`
    on one client object; the IO worker completes asynchronous operations. The session lives by
    reference count: of the caller threads holding it and of the operations bound to it.

    An actor is one call of a public function; the step of an actor is the stretch of code between two
    points at which other threads may run. The question is when the bytes a caller lent to the IO thread
    are no longer referenced. */
module ClientLifecycle {
  import opened Wrappers
  import opened Wire
  import opened WritePump
  import opened ClientCore

  datatype Op =
    | Send(recv: bool, callId: U32, body: Bytes, attempts: nat)
    | Connect(attempts: nat)
    | Disconnect

  /** Where a call stands; `left` counts the attempts left, this one included. */
  datatype Pc =
    | Loop(left: nat)                            // about to take the read lock, or to return
    | Locked(left: nat)                          // read lock held
    | Posting(left: nat, sid: nat)               // and a session reference held
    | Await(left: nat, sid: nat, att: nat)       // `handle_send` posted, waiting on the promise
    | AwaitResponse(left: nat, sid: nat)         // written, waiting for the response
    | Leave(left: nat, sid: nat, failed: bool)   // about to give the session reference back
    | Unlock(left: nat, failed: bool)            // about to release the read lock
    | WantClose(left: nat)                       // `disconnect`: about to take the write lock
    | Closing(left: nat)                         // write lock held
    | Closed(left: nat, sid: nat)                // close posted, session reference held
    | WaitExpired(left: nat)                     // `wait_destruction`, write lock held
    | WantConnect(left: nat)                     // `connect`: about to take the write lock
    | Connecting(left: nat)                      // write lock held
    | Building(left: nat)                        // `m_expired` was true and is now false
    | Joined(left: nat)                          // the old worker is joined
    | Running(left: nat, sid: nat)               // `run` waits for its promise, reference held
    | Retry(left: nat)                           // `connect(attempts)`: `wait_destruction`, write lock held
    | Returned(ok: bool)
    | Threw

  datatype Actor = Actor(op: Op, pc: Pc)

  /** The handshake chain of `run`; NoOp once it ended. */
  datatype Chain = Resolve | Tcp | Handshake | NoOp

  /** `Deleted` is the moment between `delete p` and `m_expired = true`. */
  datatype Status = Live | Deleted | Gone

  /** `holders` are the actors with a shared pointer; every pending operation holds one too. `runResult`
      and `runSets`: the promise of `run`, and how often it was set. */
  datatype Session = Session(status: Status, holders: set<nat>, pump: Pump<Entry>, chain: Chain, reading: bool,
                             closePosted: bool, closePending: bool, runResult: Option<bool>, runSets: nat)

  /** One attempt of a send: the invocation that lent the bytes, and the session it went to. */
  datatype Attempt = Attempt(owner: nat, sid: nat)

  /** `posted` holds the attempts whose `handle_send` waits in the IO queue; `clobbered` records a
      `run` that assigned to a joinable thread. */
  datatype Client = Client(expired: bool, joinable: bool, clobbered: bool, readers: set<nat>, writer: Option<nat>,
                           sessions: seq<Session>, actors: seq<Actor>,
                           attempts: seq<Attempt>, promises: seq<Promise>, posted: set<nat>)

  function Init(): Client {
    Client(true, false, false, {}, None, [], [], [], [], {})
  }

  predicate HasRefs(s: Session) {
    s.holders != {} || s.chain != NoOp || s.reading || s.pump.writing || s.closePending
  }

  /** `weak_ptr::lock` succeeds. */
  predicate Lockable(s: Session) {
    s.status == Live && HasRefs(s)
  }

  function NewSession(builder: nat): Session {
    Session(Live, {builder}, NewPump(), Resolve, false, false, false, None, 0)
  }

  datatype Action =
    | Spawn(op: Op)
    | Go(i: nat)        // the actor proceeds
    | Fail(i: nat)      // its wait times out, its table is full, or its deadlock guard throws
    | RunSend(att: nat)
    | Deliver(sid: nat)
    | WriteDone(sid: nat, failed: bool)
    | ReadEnd(sid: nat)
    | PeerClose(sid: nat)
    | RunClose(sid: nat)
    | CloseDone(sid: nat)
    | ChainStep(sid: nat, ok: bool)
    | Destroy(sid: nat)
    | SetExpired(sid: nat)

  // ----- actors -----

  function SetPc(s: Client, i: nat, pc: Pc): Client
    requires i < |s.actors|
  {
    s.(actors := s.actors[i := s.actors[i].(pc := pc)])
  }

  function SetSession(s: Client, sid: nat, x: Session): Client
    requires sid < |s.sessions|
  {
    s.(sessions := s.sessions[sid := x])
  }

  function Hold(s: Client, i: nat, sid: nat): Client
    requires sid < |s.sessions|
  {
    SetSession(s, sid, s.sessions[sid].(holders := s.sessions[sid].holders + {i}))
  }

  function Release(s: Client, i: nat, sid: nat): Client
    requires sid < |s.sessions|
  {
    SetSession(s, sid, s.sessions[sid].(holders := s.sessions[sid].holders - {i}))
  }

  /** `m_session.lock()`: the weak pointer always names the session created last. */
  predicate CanLock(s: Client) {
    s.sessions != [] && Lockable(s.sessions[|s.sessions| - 1])
  }

  predicate LocksFree(s: Client) {
    s.readers == {} && s.writer == None
  }

  /** The call that `disconnect` or `connect` was made from goes on. */
  function AfterClose(op: Op, left: nat): Pc {
    if op.Send? && left > 0 then Loop(left - 1) else Returned(true)
  }

  function AfterConnect(op: Op, left: nat, ok: bool): Pc {
    match op
    case Send(_, _, _, _) => if left > 0 then Loop(left - 1) else Returned(false)
    case _ => Returned(ok)
  }

  predicate CanGo(s: Client, i: nat) {
    i < |s.actors| &&
    match s.actors[i].pc
    case Loop(left) => left > 0 ==> s.writer == None
    case Posting(_, sid) => sid < |s.sessions|
    case Await(_, sid, att) => att < |s.promises| && s.promises[att].value.Some?
    case Leave(_, sid, _) => sid < |s.sessions|
    case WantClose(_) => LocksFree(s)
    case Closed(_, sid) => sid < |s.sessions|
    case WaitExpired(_) => s.expired
    case WantConnect(_) => LocksFree(s)
    case Running(_, sid) => sid < |s.sessions| && s.sessions[sid].runResult.Some?
    case Retry(_) => s.expired
    case Returned(_) => false
    case Threw => false
    case _ => true
  }

  function Proceed(s: Client, i: nat): Client
    requires CanGo(s, i)
  {
    var op := s.actors[i].op;
    var last := |s.sessions| - 1;
    match s.actors[i].pc
    case Loop(left) =>
      if left == 0 then SetPc(s, i, Returned(false)) else SetPc(s, i, Locked(left)).(readers := s.readers + {i})
    case Locked(left) =>
      if CanLock(s) then SetPc(Hold(s, i, last), i, Posting(left, last))
      else SetPc(s, i, WantConnect(left)).(readers := s.readers - {i})
    case Posting(left, sid) =>
      var att := |s.attempts|;
      SetPc(s, i, Await(left, sid, att)).(
        attempts := s.attempts + [Attempt(i, sid)], promises := s.promises + [Promise(true, None)],
        posted := s.posted + {att})
    case Await(left, sid, att) =>
      SetPc(s, i, if op.Send? && op.recv then AwaitResponse(left, sid) else Leave(left, sid, false))
    case AwaitResponse(left, sid) => SetPc(s, i, Leave(left, sid, false))
    case Leave(left, sid, failed) => SetPc(Release(s, i, sid), i, Unlock(left, failed))
    case Unlock(left, failed) =>
      SetPc(s, i, if failed then WantClose(left) else Returned(true)).(readers := s.readers - {i})
    case WantClose(left) => SetPc(s, i, Closing(left)).(writer := Some(i))
    case Closing(left) =>
      if CanLock(s)
      then SetPc(SetSession(s, last, s.sessions[last].(holders := s.sessions[last].holders + {i}, closePosted := true)),
                 i, Closed(left, last))
      else SetPc(s, i, WaitExpired(left))
    case Closed(left, sid) => SetPc(Release(s, i, sid), i, WaitExpired(left))
    case WaitExpired(left) => SetPc(s, i, AfterClose(op, left)).(writer := None)
    case WantConnect(left) => SetPc(s, i, Connecting(left)).(writer := Some(i))
    case Connecting(left) =>
      if !s.expired then SetPc(s, i, AfterConnect(op, left, true)).(writer := None)
      else SetPc(s, i, Building(left)).(expired := false)
    case Building(left) => SetPc(s, i, Joined(left)).(joinable := false)
    case Joined(left) =>
      SetPc(s, i, Running(left, |s.sessions|)).(
        sessions := s.sessions + [NewSession(i)], clobbered := s.clobbered || s.joinable, joinable := true)
    case Running(left, sid) =>
      var released := Release(s, i, sid);
      if s.sessions[sid].runResult == Some(false) && op.Connect? && left > 1
      then SetPc(released, i, Retry(left - 1))
      else SetPc(released, i, AfterConnect(op, left, s.sessions[sid].runResult == Some(true))).(writer := None)
    case Retry(left) => SetPc(s, i, Connecting(left))
    case _ => s
  }

  predicate CanFail(s: Client, i: nat) {
    i < |s.actors| &&
    match s.actors[i].pc
    case Posting(_, _) => s.actors[i].op.Send? && s.actors[i].op.recv
    case Await(_, _, att) => att < |s.promises| && s.promises[att].value.None?
    case AwaitResponse(_, _) => true
    case WaitExpired(_) => true
    case Retry(_) => true
    case _ => false
  }

  function GiveUp(s: Client, i: nat): Client
    requires CanFail(s, i)
  {
    match s.actors[i].pc
    case Posting(left, sid) => SetPc(s, i, Leave(left, sid, true))
    case Await(left, sid, att) =>
      SetPc(s, i, Leave(left, sid, true)).(promises := s.promises[att := s.promises[att].(held := false)])
    case AwaitResponse(left, sid) => SetPc(s, i, Leave(left, sid, true))
    case _ => SetPc(s, i, Threw).(writer := None)
  }

  function FirstPc(op: Op): Pc {
    match op
    case Send(_, _, _, attempts) => Loop(attempts)
    case Connect(attempts) => if attempts == 0 then Returned(false) else WantConnect(attempts)
    case Disconnect => WantClose(0)
  }

  // ----- the IO thread -----

  function CloseSession(x: Session): Session {
    x.(pump := CloseNow(x.pump), closePending := x.closePending || (CloseNow(x.pump) != x.pump))
  }

  function EntryOf(s: Client, att: nat): Entry
    requires att < |s.attempts|
  {
    var owner := s.attempts[att].owner;
    if owner < |s.actors| && s.actors[owner].op.Send?
    then Entry(s.actors[owner].op.callId, 0, att, s.actors[owner].op.body)
    else Entry(0, 0, att, [])
  }

  /** The posted closure runs only if its weak pointer can still be locked. */
  function RunPosted(s: Client, att: nat): Client
    requires att < |s.attempts| && s.attempts[att].sid < |s.sessions|
  {
    var sid := s.attempts[att].sid;
    var x := s.sessions[sid];
    var rest := s.(posted := s.posted - {att});
    if Lockable(x) then SetSession(rest, sid, x.(pump := HandleSend(x.pump, EntryOf(s, att)))) else rest
  }

  /** One link of resolve, connect, handshake; a failure or the end of the chain sets the promise. */
  function AfterChainStep(x: Session, ok: bool): Session
    requires x.chain != NoOp
  {
    if !ok then x.(chain := NoOp, runResult := Some(false), runSets := x.runSets + 1)
    else if x.chain == Resolve then x.(chain := Tcp)
    else if x.chain == Tcp then x.(chain := Handshake)
    else x.(chain := NoOp, reading := true, runResult := Some(true), runSets := x.runSets + 1)
  }

  predicate Enabled(s: Client, a: Action) {
    match a
    case Spawn(_) => true
    case Go(i) => CanGo(s, i)
    case Fail(i) => CanFail(s, i)
    case RunSend(att) => att in s.posted && att < |s.attempts| && s.attempts[att].sid < |s.sessions|
    case Deliver(sid) => sid < |s.sessions| && s.sessions[sid].pump.writing && !s.sessions[sid].pump.onWire
    case WriteDone(sid, failed) =>
      sid < |s.sessions| && s.sessions[sid].pump.writing && (failed || s.sessions[sid].pump.onWire)
    case ReadEnd(sid) => sid < |s.sessions| && s.sessions[sid].reading
    case PeerClose(sid) => sid < |s.sessions| && s.sessions[sid].reading
    case RunClose(sid) => sid < |s.sessions| && s.sessions[sid].closePosted
    case CloseDone(sid) => sid < |s.sessions| && s.sessions[sid].closePending
    case ChainStep(sid, _) => sid < |s.sessions| && s.sessions[sid].chain != NoOp
    case Destroy(sid) => sid < |s.sessions| && s.sessions[sid].status == Live && !HasRefs(s.sessions[sid])
    case SetExpired(sid) => sid < |s.sessions| && s.sessions[sid].status == Deleted
  }

  /** The session after an IO step of its own. */
  function AfterIo(x: Session, a: Action): Session {
    match a
    case Deliver(_) => x.(pump := Transmit(x.pump))
    case WriteDone(_, failed) =>
      if WriteGivesUp(x.pump, failed) then CloseSession(x.(pump := OnWrite(x.pump, failed, false)))
      else x.(pump := OnWrite(x.pump, failed, false))
    case ReadEnd(_) => CloseSession(x.(pump := ReadFails(x.pump, false), reading := false))
    case PeerClose(_) => x.(pump := CloseFrame(x.pump))
    case RunClose(_) => if Lockable(x) then CloseSession(x.(closePosted := false)) else x.(closePosted := false)
    case CloseDone(_) => x.(closePending := false)
    case ChainStep(_, ok) => if x.chain == NoOp then x else AfterChainStep(x, ok)
    case Destroy(_) => x.(status := Deleted)
    case SetExpired(_) => x.(status := Gone)
    case _ => x
  }

  ghost function Step(s: Client, a: Action): Client {
    if !Enabled(s, a) then s else
    match a
    case Spawn(op) => s.(actors := s.actors + [Actor(op, FirstPc(op))])
    case Go(i) => Proceed(s, i)
    case Fail(i) => GiveUp(s, i)
    case RunSend(att) => RunPosted(s, att)
    case WriteDone(sid, failed) =>
      SetSession(s, sid, AfterIo(s.sessions[sid], a)).(
        promises := PromisesAfterWrite(s.sessions[sid].pump, s.promises, failed))
    case SetExpired(sid) => SetSession(s, sid, AfterIo(s.sessions[sid], a)).(expired := true)
    case _ => SetSession(s, a.sid, AfterIo(s.sessions[a.sid], a))
  }

  ghost function Run(s: Client, acts: seq<Action>): Client
    decreases |acts|
  {
    if acts == [] then s else Run(Step(s, acts[0]), acts[1..])
  }

  // ----- the invariant, part by part -----

  predicate HoldsRead(pc: Pc) {
    pc.Locked? || pc.Posting? || pc.Await? || pc.AwaitResponse? || pc.Leave? || pc.Unlock?
  }

  predicate HoldsWrite(pc: Pc) {
    pc.Closing? || pc.Closed? || pc.WaitExpired? || pc.Connecting? || pc.Building? || pc.Joined? || pc.Running? || pc.Retry?
  }

  /** Readers and writer are the actors that stand inside the lock, and never both. */
  ghost predicate Locks(actors: seq<Actor>, readers: set<nat>, writer: Option<nat>) {
    && (forall i :: 0 <= i < |actors| ==> (HoldsRead(actors[i].pc) <==> i in readers))
    && (forall i :: 0 <= i < |actors| ==> (HoldsWrite(actors[i].pc) <==> writer == Some(i)))
    && (forall i :: i in readers ==> i < |actors|)
    && (writer.Some? ==> writer.value < |actors| && readers == {})
  }

  function HeldBy(pc: Pc): Option<nat> {
    match pc
    case Posting(_, sid) => Some(sid)
    case Await(_, sid, _) => Some(sid)
    case AwaitResponse(_, sid) => Some(sid)
    case Leave(_, sid, _) => Some(sid)
    case Closed(_, sid) => Some(sid)
    case Running(_, sid) => Some(sid)
    case _ => None
  }

  /** The session an actor works on is alive, and the actor is among its holders. */
  ghost predicate Held(actors: seq<Actor>, sessions: seq<Session>) {
    forall i :: 0 <= i < |actors| && HeldBy(actors[i].pc).Some? ==> HeldOk(i, HeldBy(actors[i].pc).value, sessions)
  }

  ghost predicate HeldOk(i: nat, sid: nat, sessions: seq<Session>) {
    sid < |sessions| && sessions[sid].status == Live && i in sessions[sid].holders
  }

  ghost predicate SessionOk(x: Session) {
    && WritePump.Inv(x.pump)
    && x.runSets == (if x.chain == NoOp then 1 else 0)
    && (x.runResult.Some? <==> x.chain == NoOp)
    && (x.status != Live ==> !HasRefs(x))
  }

  predicate Midway(pc: Pc) {
    pc.Building? || pc.Joined?
  }

  ghost predicate AllGone(sessions: seq<Session>) {
    forall sid :: 0 <= sid < |sessions| ==> sessions[sid].status == Gone
  }

  ghost predicate SomeoneMidway(actors: seq<Actor>) {
    exists i :: 0 <= i < |actors| && Midway(actors[i].pc)
  }

  /** `m_expired` is false exactly while a session is being built or has not been destroyed; all
      sessions but the last are gone. */
  ghost predicate Life(expired: bool, sessions: seq<Session>, actors: seq<Actor>) {
    && (forall sid :: 0 <= sid < |sessions| ==> SessionOk(sessions[sid]))
    && (forall sid :: 0 <= sid < |sessions| - 1 ==> sessions[sid].status == Gone)
    && (expired <==> AllGone(sessions) && !SomeoneMidway(actors))
    && (SomeoneMidway(actors) ==> AllGone(sessions))
  }

  ghost predicate Worker(actors: seq<Actor>, joinable: bool, clobbered: bool) {
    !clobbered && forall i :: 0 <= i < |actors| && actors[i].pc.Joined? ==> !joinable
  }

  predicate Queued(queue: seq<Entry>, att: nat) {
    exists k :: 0 <= k < |queue| && queue[k].caller == att
  }

  /** An unresolved promise behind every posted or queued attempt, and one place for each attempt. */
  ghost predicate Refs(attempts: seq<Attempt>, promises: seq<Promise>, posted: set<nat>, sessions: seq<Session>) {
    && |attempts| == |promises|
    && (forall att :: 0 <= att < |attempts| ==> attempts[att].sid < |sessions|)
    && (forall att :: att in posted ==> att < |attempts| && promises[att].value == None)
    && (forall sid :: 0 <= sid < |sessions| ==> QueueOk(sid, sessions[sid].pump.queue, attempts, promises, posted))
  }

  ghost predicate QueueOk(sid: nat, queue: seq<Entry>, attempts: seq<Attempt>, promises: seq<Promise>, posted: set<nat>)
    requires |attempts| == |promises|
  {
    && (forall k :: 0 <= k < |queue| ==>
          && queue[k].caller < |attempts| && queue[k].caller !in posted
          && attempts[queue[k].caller].sid == sid && promises[queue[k].caller].value == None)
    && (forall j, k :: 0 <= j < k < |queue| ==> queue[j].caller != queue[k].caller)
  }

  /** The IO thread may still touch the bytes lent for this attempt: a posted closure for a live session,
      or an entry of a live session's queue, the write in flight included. */
  ghost predicate Dirty(att: nat, attempts: seq<Attempt>, posted: set<nat>, sessions: seq<Session>)
    requires att < |attempts|
  {
    var sid := attempts[att].sid;
    sid < |sessions| && sessions[sid].status == Live && (att in posted || Queued(sessions[sid].pump.queue, att))
  }

  /** An invocation may have dirty bytes only while it waits for this very attempt, or once it failed
      and before it has seen the session destroyed. */
  predicate MayLend(pc: Pc, att: nat) {
    match pc
    case Await(_, _, a) => a == att
    case Leave(_, _, failed) => failed
    case Unlock(_, failed) => failed
    case WantClose(_) => true
    case Closing(_) => true
    case Closed(_, _) => true
    case WaitExpired(_) => true
    case Threw => true
    case _ => false
  }

  ghost predicate Borrow(actors: seq<Actor>, attempts: seq<Attempt>, posted: set<nat>, sessions: seq<Session>) {
    forall att :: 0 <= att < |attempts| ==>
      && attempts[att].owner < |actors|
      && (Dirty(att, attempts, posted, sessions) ==> MayLend(actors[attempts[att].owner].pc, att))
  }

  ghost predicate Inv(s: Client) {
    && Locks(s.actors, s.readers, s.writer)
    && Held(s.actors, s.sessions)
    && Life(s.expired, s.sessions, s.actors)
    && Worker(s.actors, s.joinable, s.clobbered)
    && Refs(s.attempts, s.promises, s.posted, s.sessions)
    && Borrow(s.actors, s.attempts, s.posted, s.sessions)
  }

  // ----- what each part needs of a step -----

  lemma LocksAfter(actors: seq<Actor>, readers: set<nat>, writer: Option<nat>,
                   i: nat, pc: Pc, readers': set<nat>, writer': Option<nat>)
    requires Locks(actors, readers, writer) && i < |actors|
    requires readers' == if HoldsRead(pc) then readers + {i} else readers - {i}
    requires writer' == if HoldsWrite(pc) then Some(i) else if HoldsWrite(actors[i].pc) then None else writer
    requires HoldsRead(pc) && !HoldsRead(actors[i].pc) ==> writer == None
    requires HoldsWrite(pc) && !HoldsWrite(actors[i].pc) ==> readers == {} && writer == None
    ensures Locks(actors[i := actors[i].(pc := pc)], readers', writer')
  {
  }

  lemma HeldAfter(actors: seq<Actor>, sessions: seq<Session>, i: nat, pc: Pc)
    requires Held(actors, sessions) && i < |actors|
    requires HeldBy(pc).Some? ==> HeldOk(i, HeldBy(pc).value, sessions)
    ensures Held(actors[i := actors[i].(pc := pc)], sessions)
  {
  }

  /** A session may change as long as the actors that hold it stay holders of a live session. */
  lemma HeldAfterSession(actors: seq<Actor>, sessions: seq<Session>, sid: nat, x: Session)
    requires Held(actors, sessions) && sid < |sessions|
    requires forall i :: 0 <= i < |actors| && HeldBy(actors[i].pc) == Some(sid) ==> i in x.holders
    requires x.status == Live || sessions[sid].status != Live || sessions[sid].holders == {}
    ensures Held(actors, sessions[sid := x])
  {
    forall i | 0 <= i < |actors| && HeldBy(actors[i].pc).Some?
      ensures HeldOk(i, HeldBy(actors[i].pc).value, sessions[sid := x])
    {
      assert HeldOk(i, HeldBy(actors[i].pc).value, sessions);
    }
  }

  lemma LifeAfter(expired: bool, sessions: seq<Session>, actors: seq<Actor>, i: nat, pc: Pc)
    requires Life(expired, sessions, actors) && i < |actors| && Midway(pc) == Midway(actors[i].pc)
    ensures Life(expired, sessions, actors[i := actors[i].(pc := pc)])
  {
    var actors' := actors[i := actors[i].(pc := pc)];
    assert forall j :: 0 <= j < |actors| ==> Midway(actors'[j].pc) == Midway(actors[j].pc);
    if SomeoneMidway(actors) {
      var j :| 0 <= j < |actors| && Midway(actors[j].pc);
      assert Midway(actors'[j].pc);
    }
  }

  /** A session changes without dying. */
  lemma LifeAfterSession(expired: bool, sessions: seq<Session>, actors: seq<Actor>, sid: nat, x: Session)
    requires Life(expired, sessions, actors) && sid < |sessions|
    requires SessionOk(x) && (x.status == Gone <==> sessions[sid].status == Gone)
    ensures Life(expired, sessions[sid := x], actors)
  {
    var sessions' := sessions[sid := x];
    assert forall k :: 0 <= k < |sessions| ==> (sessions'[k].status == Gone <==> sessions[k].status == Gone);
  }

  lemma RefsAfterSession(attempts: seq<Attempt>, promises: seq<Promise>, posted: set<nat>, sessions: seq<Session>,
                         sid: nat, x: Session)
    requires Refs(attempts, promises, posted, sessions) && sid < |sessions|
    requires x.pump.queue == sessions[sid].pump.queue || x.pump.queue == []
    ensures Refs(attempts, promises, posted, sessions[sid := x])
  {
    var sessions' := sessions[sid := x];
    forall k | 0 <= k < |sessions| ensures QueueOk(k, sessions'[k].pump.queue, attempts, promises, posted) {
      assert QueueOk(k, sessions[k].pump.queue, attempts, promises, posted);
    }
  }

  lemma BorrowAfter(actors: seq<Actor>, attempts: seq<Attempt>, posted: set<nat>, sessions: seq<Session>,
                    i: nat, pc: Pc)
    requires Borrow(actors, attempts, posted, sessions) && i < |actors|
    requires forall att :: 0 <= att < |attempts| && attempts[att].owner == i ==>
               (Dirty(att, attempts, posted, sessions) ==> MayLend(pc, att))
    ensures Borrow(actors[i := actors[i].(pc := pc)], attempts, posted, sessions)
  {
  }

  /** Nothing becomes dirty when a session's queue does not grow and the session does not come alive. */
  lemma BorrowAfterSession(actors: seq<Actor>, attempts: seq<Attempt>, posted: set<nat>, sessions: seq<Session>,
                           sid: nat, x: Session)
    requires Borrow(actors, attempts, posted, sessions) && sid < |sessions|
    requires x.status == Live ==> sessions[sid].status == Live
    requires forall att :: Queued(x.pump.queue, att) ==> Queued(sessions[sid].pump.queue, att)
    ensures Borrow(actors, attempts, posted, sessions[sid := x])
  {
    var sessions' := sessions[sid := x];
    forall att | 0 <= att < |attempts| && Dirty(att, attempts, posted, sessions')
      ensures MayLend(actors[attempts[att].owner].pc, att)
    {
      assert Dirty(att, attempts, posted, sessions);
    }
  }

  lemma CloseSessionOk(x: Session)
    requires SessionOk(x)
    requires x.status == Live
    ensures SessionOk(CloseSession(x)) && CloseSession(x).pump.queue == x.pump.queue
  {
    QuietStep(x.pump, WritePump.Action.Close);
    ClosingKeepsQueue(x.pump);
  }

  lemma ClosingKeepsQueue(p: Pump<Entry>)
    ensures CloseNow(p).queue == p.queue
  {
  }

  lemma DeliverOk(x: Session)
    requires SessionOk(x) && x.status == Live && x.pump.writing && !x.pump.onWire
    ensures SessionOk(x.(pump := Transmit(x.pump)))
  {
    QuietStep(x.pump, WritePump.Action.Deliver);
  }

  lemma OnWriteOk(x: Session, failed: bool)
    requires SessionOk(x) && x.status == Live && x.pump.writing && (failed || x.pump.onWire)
    ensures SessionOk(x.(pump := OnWrite(x.pump, failed, false)))
  {
    QuietStep(x.pump, WritePump.Action.WriteDone(failed, false));
  }

  lemma ReadFailsOk(x: Session)
    requires SessionOk(x) && x.status == Live
    ensures SessionOk(x.(pump := ReadFails(x.pump, false), reading := false))
    ensures ReadFails(x.pump, false).queue == x.pump.queue
  {
    QuietStep(x.pump, WritePump.Action.ReadError(false));
  }

  lemma PeerCloseOk(x: Session)
    requires SessionOk(x) && x.status == Live
    ensures SessionOk(x.(pump := CloseFrame(x.pump)))
  {
    QuietStep(x.pump, WritePump.Action.PeerClose);
  }

  lemma SessionAfterIo(x: Session, a: Action)
    requires SessionOk(x) && x.status == Live
    requires a.Deliver? || a.WriteDone? || a.ReadEnd? || a.PeerClose? || a.RunClose? || a.CloseDone? || a.ChainStep?
    requires a.Deliver? ==> x.pump.writing && !x.pump.onWire
    requires a.WriteDone? ==> x.pump.writing && (a.failed || x.pump.onWire)
    ensures var y := AfterIo(x, a);
            && SessionOk(y) && y.status == Live && y.holders == x.holders
            && (!a.WriteDone? ==> y.pump.queue == x.pump.queue)
  {
    if a.WriteDone? {
      SessionAfterWrite(x, a);
    } else if a.ReadEnd? || a.RunClose? {
      SessionCloses(x, a);
    } else if a.Deliver? {
      DeliverOk(x);
    } else if a.PeerClose? {
      PeerCloseOk(x);
    } else {
      ChainStepOk(x, a);
    }
  }

  lemma SessionAfterWrite(x: Session, a: Action)
    requires SessionOk(x) && x.status == Live && a.WriteDone? && x.pump.writing && (a.failed || x.pump.onWire)
    ensures var y := AfterIo(x, a);
            SessionOk(y) && y.status == Live && y.holders == x.holders
  {
    OnWriteOk(x, a.failed);
    CloseSessionOk(x.(pump := OnWrite(x.pump, a.failed, false)));
  }

  lemma SessionCloses(x: Session, a: Action)
    requires SessionOk(x) && x.status == Live && (a.ReadEnd? || a.RunClose?)
    ensures var y := AfterIo(x, a);
            SessionOk(y) && y.status == Live && y.holders == x.holders && y.pump.queue == x.pump.queue
  {
    if a.ReadEnd? {
      ReadFailsOk(x);
      CloseSessionOk(x.(pump := ReadFails(x.pump, false), reading := false));
    } else {
      CloseSessionOk(x.(closePosted := false));
    }
  }

  lemma ChainStepOk(x: Session, a: Action)
    requires SessionOk(x) && x.status == Live && (a.CloseDone? || a.ChainStep?)
    ensures var y := AfterIo(x, a);
            SessionOk(y) && y.status == Live && y.holders == x.holders && y.pump == x.pump
  {
  }

  // ----- the steps of the IO thread -----

  lemma IoKeepsInv(s: Client, a: Action)
    requires Inv(s) && Enabled(s, a)
    requires a.Deliver? || a.ReadEnd? || a.PeerClose? || a.RunClose? || a.CloseDone? || a.ChainStep?
    ensures Inv(Step(s, a))
  {
    var sid := a.sid;
    var x := s.sessions[sid];
    var y := AfterIo(x, a);
    assert SessionOk(x);
    if x.status == Live {
      SessionAfterIo(x, a);
    }
    HeldAfterSession(s.actors, s.sessions, sid, y);
    LifeAfterSession(s.expired, s.sessions, s.actors, sid, y);
    RefsAfterSession(s.attempts, s.promises, s.posted, s.sessions, sid, y);
    BorrowAfterSession(s.actors, s.attempts, s.posted, s.sessions, sid, y);
  }

  /** A completion fulfils only promises of attempts that thereby leave the queue. */
  lemma RefsAfterWrite(s: Client, sid: nat, failed: bool)
    requires Refs(s.attempts, s.promises, s.posted, s.sessions) && sid < |s.sessions|
    ensures Refs(s.attempts, PromisesAfterWrite(s.sessions[sid].pump, s.promises, failed), s.posted,
                 s.sessions[sid := AfterIo(s.sessions[sid], Action.WriteDone(sid, failed))])
  {
    var p := s.sessions[sid].pump;
    var q := p.queue;
    var promises' := PromisesAfterWrite(p, s.promises, failed);
    var sessions' := s.sessions[sid := AfterIo(s.sessions[sid], Action.WriteDone(sid, failed))];
    assert QueueOk(sid, q, s.attempts, s.promises, s.posted);
    assert forall att :: 0 <= att < |s.promises| && promises'[att] != s.promises[att] ==> Queued(q, att);
    forall k | 0 <= k < |s.sessions| ensures QueueOk(k, sessions'[k].pump.queue, s.attempts, promises', s.posted) {
      assert QueueOk(k, s.sessions[k].pump.queue, s.attempts, s.promises, s.posted);
      if k == sid {
        QueueAfterWrite(sid, p, s.attempts, s.promises, s.posted, failed);
      }
    }
  }

  lemma QueueAfterWrite(sid: nat, p: Pump<Entry>, attempts: seq<Attempt>, promises: seq<Promise>, posted: set<nat>,
                        failed: bool)
    requires |attempts| == |promises| && QueueOk(sid, p.queue, attempts, promises, posted)
    ensures QueueOk(sid, OnWrite(p, failed, false).queue, attempts, PromisesAfterWrite(p, promises, failed), posted)
    ensures forall att :: Queued(OnWrite(p, failed, false).queue, att) ==> Queued(p.queue, att)
  {
    if !WriteGivesUp(p, failed) && p.queue != [] {
      var rest := p.queue[1..];
      assert OnWrite(p, failed, false).queue == rest;
      assert forall k :: 0 <= k < |rest| ==> rest[k] == p.queue[k + 1];
    }
  }

  lemma ClosingAfterWriteKeepsQueue(x: Session, sid: nat, failed: bool)
    ensures AfterIo(x, Action.WriteDone(sid, failed)).pump.queue == OnWrite(x.pump, failed, false).queue
  {
  }

  lemma WriteDoneKeepsInv(s: Client, sid: nat, failed: bool)
    requires Inv(s) && Enabled(s, Action.WriteDone(sid, failed))
    ensures Inv(Step(s, Action.WriteDone(sid, failed)))
  {
    var x := s.sessions[sid];
    var y := AfterIo(x, Action.WriteDone(sid, failed));
    assert SessionOk(x) && QueueOk(sid, x.pump.queue, s.attempts, s.promises, s.posted);
    SessionAfterIo(x, Action.WriteDone(sid, failed));
    ClosingAfterWriteKeepsQueue(x, sid, failed);
    QueueAfterWrite(sid, x.pump, s.attempts, s.promises, s.posted, failed);
    HeldAfterSession(s.actors, s.sessions, sid, y);
    LifeAfterSession(s.expired, s.sessions, s.actors, sid, y);
    RefsAfterWrite(s, sid, failed);
    BorrowAfterSession(s.actors, s.attempts, s.posted, s.sessions, sid, y);
  }

  lemma QueueAfterSend(p: Pump<Entry>, e: Entry)
    requires WritePump.Inv(p)
    ensures WritePump.Inv(HandleSend(p, e))
    ensures HandleSend(p, e).queue == p.queue || HandleSend(p, e).queue == p.queue + [e]
  {
    WritePump.StepKeepsInv(p, WritePump.Action.Send(e));
  }

  lemma QueuedAfterAppend(queue: seq<Entry>, e: Entry, att: nat)
    ensures Queued(queue + [e], att) <==> Queued(queue, att) || e.caller == att
  {
    var q := queue + [e];
    assert q[|queue|] == e;
    assert forall k :: 0 <= k < |queue| ==> q[k] == queue[k];
  }

  lemma RefsAfterSend(s: Client, att: nat, y: Session)
    requires Refs(s.attempts, s.promises, s.posted, s.sessions) && att in s.posted
    requires var q := s.sessions[s.attempts[att].sid].pump.queue;
             y.pump.queue == q || y.pump.queue == q + [EntryOf(s, att)]
    ensures Refs(s.attempts, s.promises, s.posted - {att}, s.sessions[s.attempts[att].sid := y])
  {
    var sid := s.attempts[att].sid;
    var sessions' := s.sessions[sid := y];
    forall k | 0 <= k < |s.sessions|
      ensures QueueOk(k, sessions'[k].pump.queue, s.attempts, s.promises, s.posted - {att})
    {
      assert QueueOk(k, s.sessions[k].pump.queue, s.attempts, s.promises, s.posted);
    }
  }

  lemma BorrowAfterSend(s: Client, att: nat, y: Session)
    requires Borrow(s.actors, s.attempts, s.posted, s.sessions)
    requires att in s.posted && att < |s.attempts| && s.attempts[att].sid < |s.sessions|
    requires var x := s.sessions[s.attempts[att].sid];
             && y.status == x.status
             && (y.pump.queue == x.pump.queue || y.pump.queue == x.pump.queue + [EntryOf(s, att)])
    ensures Borrow(s.actors, s.attempts, s.posted - {att}, s.sessions[s.attempts[att].sid := y])
  {
    var x := s.sessions[s.attempts[att].sid];
    var sessions' := s.sessions[s.attempts[att].sid := y];
    forall b | 0 <= b < |s.attempts| && Dirty(b, s.attempts, s.posted - {att}, sessions')
      ensures Dirty(b, s.attempts, s.posted, s.sessions)
    {
      QueuedAfterAppend(x.pump.queue, EntryOf(s, att), b);
    }
  }

  lemma RunSendKeepsInv(s: Client, att: nat)
    requires Inv(s) && Enabled(s, Action.RunSend(att))
    ensures Inv(RunPosted(s, att))
  {
    var sid := s.attempts[att].sid;
    var x := s.sessions[sid];
    assert SessionOk(x);
    QueueAfterSend(x.pump, EntryOf(s, att));
    var y := if Lockable(x) then x.(pump := HandleSend(x.pump, EntryOf(s, att))) else x;
    assert s.sessions[sid := x] == s.sessions;
    HeldAfterSession(s.actors, s.sessions, sid, y);
    LifeAfterSession(s.expired, s.sessions, s.actors, sid, y);
    RefsAfterSend(s, att, y);
    BorrowAfterSend(s, att, y);
  }

  lemma DestroyKeepsInv(s: Client, sid: nat)
    requires Inv(s) && Enabled(s, Destroy(sid))
    ensures Inv(Step(s, Destroy(sid)))
  {
    var x := s.sessions[sid];
    var y := x.(status := Deleted);
    assert SessionOk(x);
    HeldNobody(s.actors, s.sessions, sid);
    HeldAfterSession(s.actors, s.sessions, sid, y);
    LifeAfterSession(s.expired, s.sessions, s.actors, sid, y);
    RefsAfterSession(s.attempts, s.promises, s.posted, s.sessions, sid, y);
    BorrowAfterSession(s.actors, s.attempts, s.posted, s.sessions, sid, y);
  }

  lemma HeldNobody(actors: seq<Actor>, sessions: seq<Session>, sid: nat)
    requires Held(actors, sessions) && sid < |sessions|
    requires sessions[sid].holders == {} || sessions[sid].status != Live
    ensures forall i :: 0 <= i < |actors| ==> HeldBy(actors[i].pc) != Some(sid)
  {
    forall i | 0 <= i < |actors| ensures HeldBy(actors[i].pc) != Some(sid) {
      assert HeldBy(actors[i].pc).Some? ==> HeldOk(i, HeldBy(actors[i].pc).value, sessions);
    }
  }

  lemma SetExpiredKeepsInv(s: Client, sid: nat)
    requires Inv(s) && Enabled(s, SetExpired(sid))
    ensures Inv(Step(s, SetExpired(sid)))
  {
    var x := s.sessions[sid];
    var y := x.(status := Gone);
    assert SessionOk(x);
    HeldNobody(s.actors, s.sessions, sid);
    HeldAfterSession(s.actors, s.sessions, sid, y);
    LifeAfterExpiry(s.sessions, s.actors, s.expired, sid);
    RefsAfterSession(s.attempts, s.promises, s.posted, s.sessions, sid, y);
    BorrowAfterSession(s.actors, s.attempts, s.posted, s.sessions, sid, y);
  }

  lemma LifeAfterExpiry(sessions: seq<Session>, actors: seq<Actor>, expired: bool, sid: nat)
    requires Life(expired, sessions, actors) && sid < |sessions| && sessions[sid].status == Deleted
    ensures Life(true, sessions[sid := sessions[sid].(status := Gone)], actors)
  {
    assert SessionOk(sessions[sid]);
    assert !AllGone(sessions);
    assert sid == |sessions| - 1;
    var sessions' := sessions[sid := sessions[sid].(status := Gone)];
    assert forall k :: 0 <= k < |sessions| && k != sid ==> sessions'[k] == sessions[k];
    assert AllGone(sessions');
  }

  // ----- the steps of the actors -----

  /** An unresolved promise is behind every dirty attempt. */
  lemma DirtyIsUnresolved(s: Client, att: nat)
    requires Refs(s.attempts, s.promises, s.posted, s.sessions)
    requires att < |s.attempts| && Dirty(att, s.attempts, s.posted, s.sessions)
    ensures s.promises[att].value == None
  {
    var sid := s.attempts[att].sid;
    assert QueueOk(sid, s.sessions[sid].pump.queue, s.attempts, s.promises, s.posted);
  }

  /** Once `m_expired` is true nothing lent is referenced any more. */
  lemma ExpiredIsClean(s: Client, att: nat)
    requires Life(s.expired, s.sessions, s.actors) && s.expired && att < |s.attempts|
    ensures !Dirty(att, s.attempts, s.posted, s.sessions)
  {
  }

  /** A step of actor `i` that changes its place, the locks, and nothing else. */
  lemma PcKeepsInv(s: Client, s': Client, i: nat, pc: Pc)
    requires Inv(s) && i < |s.actors|
    requires s' == SetPc(s, i, pc).(readers := s'.readers, writer := s'.writer)
    requires Locks(s'.actors, s'.readers, s'.writer)
    requires HeldBy(pc).Some? ==> HeldBy(pc) == HeldBy(s.actors[i].pc)
    requires Midway(pc) == Midway(s.actors[i].pc) && !pc.Joined?
    requires forall att :: 0 <= att < |s.attempts| && s.attempts[att].owner == i ==>
               (Dirty(att, s.attempts, s.posted, s.sessions) ==> MayLend(pc, att))
    ensures Inv(s')
  {
    HeldAfter(s.actors, s.sessions, i, pc);
    LifeAfter(s.expired, s.sessions, s.actors, i, pc);
    BorrowAfter(s.actors, s.attempts, s.posted, s.sessions, i, pc);
  }

  /** Places from which an actor moves without touching a session or the attempts. */
  predicate MovesOnly(s: Client, i: nat)
    requires i < |s.actors|
  {
    match s.actors[i].pc
    case Loop(_) => true
    case Locked(_) => !CanLock(s)
    case Await(_, _, _) => true
    case AwaitResponse(_, _) => true
    case Unlock(_, _) => true
    case WantClose(_) => true
    case Closing(_) => !CanLock(s)
    case WaitExpired(_) => true
    case WantConnect(_) => true
    case Connecting(_) => !s.expired
    case Retry(_) => true
    case _ => false
  }

  lemma WhoMayLend(s: Client, i: nat, pc: Pc)
    requires Inv(s) && CanGo(s, i) && MovesOnly(s, i) && pc == Proceed(s, i).actors[i].pc
    ensures forall att :: 0 <= att < |s.attempts| && s.attempts[att].owner == i ==>
              (Dirty(att, s.attempts, s.posted, s.sessions) ==> MayLend(pc, att))
  {
    forall att | 0 <= att < |s.attempts| && s.attempts[att].owner == i
                 && Dirty(att, s.attempts, s.posted, s.sessions)
      ensures MayLend(pc, att)
    {
      assert MayLend(s.actors[i].pc, att);
      DirtyIsUnresolved(s, att);
      if s.expired {
        ExpiredIsClean(s, att);
      }
    }
  }

  lemma MoveKeepsLocks(s: Client, i: nat)
    requires Locks(s.actors, s.readers, s.writer) && CanGo(s, i) && MovesOnly(s, i)
    ensures Locks(Proceed(s, i).actors, Proceed(s, i).readers, Proceed(s, i).writer)
  {
    var s' := Proceed(s, i);
    assert i in s.readers <==> HoldsRead(s.actors[i].pc);
    assert s.writer == Some(i) <==> HoldsWrite(s.actors[i].pc);
    LocksAfter(s.actors, s.readers, s.writer, i, s'.actors[i].pc, s'.readers, s'.writer);
  }

  predicate SendMoves(pc: Pc) {
    pc.Loop? || pc.Locked? || pc.Await? || pc.AwaitResponse? || pc.Unlock?
  }

  lemma SendMoveShape(s: Client, i: nat)
    requires CanGo(s, i) && MovesOnly(s, i) && SendMoves(s.actors[i].pc)
    ensures var s' := Proceed(s, i);
            s' == SetPc(s, i, s'.actors[i].pc).(readers := s'.readers, writer := s'.writer)
  {
  }

  lemma WriteMoveShape(s: Client, i: nat)
    requires CanGo(s, i) && MovesOnly(s, i) && !SendMoves(s.actors[i].pc)
    ensures var s' := Proceed(s, i);
            s' == SetPc(s, i, s'.actors[i].pc).(readers := s'.readers, writer := s'.writer)
  {
  }

  lemma MovePlaces(s: Client, i: nat)
    requires CanGo(s, i) && MovesOnly(s, i)
    ensures var pc := Proceed(s, i).actors[i].pc;
            && (HeldBy(pc).Some? ==> HeldBy(pc) == HeldBy(s.actors[i].pc))
            && !Midway(pc) && !Midway(s.actors[i].pc)
  {
  }

  lemma MoveKeepsInv(s: Client, i: nat)
    requires Inv(s) && CanGo(s, i) && MovesOnly(s, i)
    ensures Inv(Proceed(s, i))
  {
    MoveKeepsLocks(s, i);
    if SendMoves(s.actors[i].pc) {
      SendMoveShape(s, i);
    } else {
      WriteMoveShape(s, i);
    }
    MovePlaces(s, i);
    WhoMayLend(s, i, Proceed(s, i).actors[i].pc);
    PcKeepsInv(s, Proceed(s, i), i, Proceed(s, i).actors[i].pc);
  }

  lemma GiveUpKeepsLocks(s: Client, i: nat)
    requires Locks(s.actors, s.readers, s.writer) && CanFail(s, i)
    ensures Locks(GiveUp(s, i).actors, GiveUp(s, i).readers, GiveUp(s, i).writer)
  {
    var s' := GiveUp(s, i);
    var pc := s'.actors[i].pc;
    assert s.writer == Some(i) <==> HoldsWrite(s.actors[i].pc);
    assert i in s.readers <==> HoldsRead(s.actors[i].pc);
    assert HoldsRead(pc) ==> s.readers + {i} == s.readers;
    LocksAfter(s.actors, s.readers, s.writer, i, pc, s'.readers, s'.writer);
  }

  lemma FailKeepsInv(s: Client, i: nat)
    requires Inv(s) && CanFail(s, i)
    ensures Inv(GiveUp(s, i))
  {
    var s' := GiveUp(s, i);
    var pc := s'.actors[i].pc;
    GiveUpKeepsLocks(s, i);
    PcKeepsInv(s, s'.(promises := s.promises), i, pc);
    RefsAfterDrop(s.attempts, s.promises, s'.promises, s.posted, s.sessions);
  }

  lemma RefsAfterDrop(attempts: seq<Attempt>, promises: seq<Promise>, promises': seq<Promise>, posted: set<nat>,
                      sessions: seq<Session>)
    requires Refs(attempts, promises, posted, sessions) && |promises'| == |promises|
    requires forall k :: 0 <= k < |promises| ==> promises'[k].value == promises[k].value
    ensures Refs(attempts, promises', posted, sessions)
  {
    forall k | 0 <= k < |sessions| ensures QueueOk(k, sessions[k].pump.queue, attempts, promises', posted) {
      assert QueueOk(k, sessions[k].pump.queue, attempts, promises, posted);
    }
  }

  /** An actor takes or gives back a session reference. */
  lemma RefKeepsInv(s: Client, s': Client, i: nat, pc: Pc, sid: nat, y: Session)
    requires Inv(s) && i < |s.actors| && sid < |s.sessions|
    requires s' == SetPc(SetSession(s, sid, y), i, pc).(writer := s'.writer)
    requires Locks(s'.actors, s.readers, s'.writer)
    requires s.sessions[sid].status == Live
    requires y == s.sessions[sid].(holders := y.holders, closePosted := y.closePosted)
    requires HeldBy(pc) == Some(sid) || HeldBy(pc) == None
    requires y.holders == if HeldBy(pc) == Some(sid) then s.sessions[sid].holders + {i} else s.sessions[sid].holders - {i}
    requires Midway(pc) == Midway(s.actors[i].pc) && !pc.Joined?
    requires forall att :: 0 <= att < |s.attempts| && s.attempts[att].owner == i ==>
               (Dirty(att, s.attempts, s.posted, s.sessions) ==> MayLend(pc, att))
    ensures Inv(s')
  {
    assert SessionOk(s.sessions[sid]);
    HeldAfterRef(s.actors, s.sessions, i, pc, sid, y);
    LifeAfterSession(s.expired, s.sessions, s.actors, sid, y);
    LifeAfter(s.expired, s'.sessions, s.actors, i, pc);
    RefsAfterSession(s.attempts, s.promises, s.posted, s.sessions, sid, y);
    BorrowAfter(s.actors, s.attempts, s.posted, s.sessions, i, pc);
    BorrowAfterSession(s'.actors, s.attempts, s.posted, s.sessions, sid, y);
  }

  lemma HeldAfterRef(actors: seq<Actor>, sessions: seq<Session>, i: nat, pc: Pc, sid: nat, y: Session)
    requires Held(actors, sessions) && i < |actors| && sid < |sessions| && y.status == Live
    requires HeldBy(pc) == Some(sid) || HeldBy(pc) == None
    requires y.holders == if HeldBy(pc) == Some(sid) then sessions[sid].holders + {i} else sessions[sid].holders - {i}
    ensures Held(actors[i := actors[i].(pc := pc)], sessions[sid := y])
  {
    var actors' := actors[i := actors[i].(pc := pc)];
    forall j | 0 <= j < |actors| && HeldBy(actors'[j].pc).Some?
      ensures HeldOk(j, HeldBy(actors'[j].pc).value, sessions[sid := y])
    {
      if j != i {
        assert HeldOk(j, HeldBy(actors[j].pc).value, sessions);
      }
    }
  }

  lemma TakeRefKeepsLocks(s: Client, i: nat)
    requires Locks(s.actors, s.readers, s.writer) && CanGo(s, i)
    requires CanLock(s) && (s.actors[i].pc.Locked? || s.actors[i].pc.Closing?)
    ensures Locks(Proceed(s, i).actors, s.readers, s.writer)
  {
    var pc := Proceed(s, i).actors[i].pc;
    assert s.writer == Some(i) <==> HoldsWrite(s.actors[i].pc);
    assert i in s.readers <==> HoldsRead(s.actors[i].pc);
    assert HoldsRead(pc) ==> s.readers + {i} == s.readers;
    LocksAfter(s.actors, s.readers, s.writer, i, pc, s.readers, s.writer);
  }

  lemma TakeRefShape(s: Client, i: nat)
    requires CanGo(s, i) && CanLock(s) && (s.actors[i].pc.Locked? || s.actors[i].pc.Closing?)
    ensures var s', last := Proceed(s, i), |s.sessions| - 1;
            var pc, y := s'.actors[i].pc, s'.sessions[last];
            && s' == SetPc(SetSession(s, last, y), i, pc)
            && y == s.sessions[last].(holders := s.sessions[last].holders + {i}, closePosted := y.closePosted)
            && HeldBy(pc) == Some(last) && !Midway(pc) && !Midway(s.actors[i].pc)
            && (forall att :: MayLend(s.actors[i].pc, att) ==> MayLend(pc, att))
  {
  }

  lemma TakeRefKeepsInv(s: Client, i: nat)
    requires Inv(s) && CanGo(s, i) && CanLock(s) && (s.actors[i].pc.Locked? || s.actors[i].pc.Closing?)
    ensures Inv(Proceed(s, i))
  {
    var s' := Proceed(s, i);
    var pc, last := s'.actors[i].pc, |s.sessions| - 1;
    TakeRefKeepsLocks(s, i);
    TakeRefShape(s, i);
    assert forall att :: 0 <= att < |s.attempts| && s.attempts[att].owner == i ==>
      (Dirty(att, s.attempts, s.posted, s.sessions) ==> MayLend(s.actors[i].pc, att));
    RefKeepsInv(s, s', i, pc, last, s'.sessions[last]);
  }

  predicate GivesBack(pc: Pc) {
    pc.Leave? || pc.Closed? || pc.Running?
  }

  lemma GiveRefKeepsLocks(s: Client, i: nat)
    requires Locks(s.actors, s.readers, s.writer) && CanGo(s, i) && GivesBack(s.actors[i].pc)
    ensures Locks(Proceed(s, i).actors, s.readers, Proceed(s, i).writer)
  {
    var s' := Proceed(s, i);
    assert s.writer == Some(i) <==> HoldsWrite(s.actors[i].pc);
    assert i in s.readers <==> HoldsRead(s.actors[i].pc);
    assert HoldsRead(s'.actors[i].pc) ==> s.readers + {i} == s.readers;
    assert !HoldsRead(s'.actors[i].pc) ==> s.readers - {i} == s.readers;
    LocksAfter(s.actors, s.readers, s.writer, i, s'.actors[i].pc, s.readers, s'.writer);
  }

  lemma GiveRefShape(s: Client, i: nat)
    requires CanGo(s, i) && GivesBack(s.actors[i].pc)
    ensures var s' := Proceed(s, i);
            var pc, sid := s'.actors[i].pc, HeldBy(s.actors[i].pc).value;
            && sid < |s.sessions|
            && s' == SetPc(SetSession(s, sid, s.sessions[sid].(holders := s.sessions[sid].holders - {i})), i, pc).(writer := s'.writer)
            && HeldBy(pc) == None && !Midway(pc) && !Midway(s.actors[i].pc)
            && forall att :: MayLend(s.actors[i].pc, att) ==> MayLend(pc, att)
  {
  }

  lemma GiveRefKeepsInv(s: Client, i: nat)
    requires Inv(s) && CanGo(s, i) && GivesBack(s.actors[i].pc)
    ensures Inv(Proceed(s, i))
  {
    var s' := Proceed(s, i);
    var sid := HeldBy(s.actors[i].pc).value;
    assert HeldOk(i, sid, s.sessions);
    GiveRefKeepsLocks(s, i);
    GiveRefShape(s, i);
    assert forall att :: 0 <= att < |s.attempts| && s.attempts[att].owner == i ==>
      (Dirty(att, s.attempts, s.posted, s.sessions) ==> MayLend(s.actors[i].pc, att));
    RefKeepsInv(s, s', i, s'.actors[i].pc, sid, s.sessions[sid].(holders := s.sessions[sid].holders - {i}));
  }

  lemma PostKeepsInv(s: Client, i: nat)
    requires Inv(s) && CanGo(s, i) && s.actors[i].pc.Posting?
    ensures Inv(Proceed(s, i))
  {
    var s' := Proceed(s, i);
    var pc, sid := s'.actors[i].pc, s.actors[i].pc.sid;
    assert HeldOk(i, HeldBy(s.actors[i].pc).value, s.sessions);
    assert i in s.readers;
    assert s.readers + {i} == s.readers;
    assert s.writer == Some(i) <==> HoldsWrite(s.actors[i].pc);
    LocksAfter(s.actors, s.readers, s.writer, i, pc, s.readers, s.writer);
    HeldAfter(s.actors, s.sessions, i, pc);
    LifeAfter(s.expired, s.sessions, s.actors, i, pc);
    RefsAfterPost(s, i, sid);
    BorrowAfterPost(s, i, sid, pc);
  }

  lemma RefsAfterPost(s: Client, i: nat, sid: nat)
    requires Refs(s.attempts, s.promises, s.posted, s.sessions) && sid < |s.sessions|
    ensures Refs(s.attempts + [Attempt(i, sid)], s.promises + [Promise(true, None)], s.posted + {|s.attempts|}, s.sessions)
  {
    forall k | 0 <= k < |s.sessions|
      ensures QueueOk(k, s.sessions[k].pump.queue, s.attempts + [Attempt(i, sid)], s.promises + [Promise(true, None)],
                      s.posted + {|s.attempts|})
    {
      assert QueueOk(k, s.sessions[k].pump.queue, s.attempts, s.promises, s.posted);
    }
  }

  lemma BorrowAfterPost(s: Client, i: nat, sid: nat, pc: Pc)
    requires Borrow(s.actors, s.attempts, s.posted, s.sessions) && i < |s.actors|
    requires s.actors[i].pc.Posting? && pc.Await? && pc.att == |s.attempts|
    ensures Borrow(s.actors[i := s.actors[i].(pc := pc)], s.attempts + [Attempt(i, sid)],
                   s.posted + {|s.attempts|}, s.sessions)
  {
    var attempts' := s.attempts + [Attempt(i, sid)];
    forall att | 0 <= att < |s.attempts| && Dirty(att, attempts', s.posted + {|s.attempts|}, s.sessions)
      ensures s.attempts[att].owner != i && MayLend(s.actors[s.attempts[att].owner].pc, att)
    {
      assert attempts'[att] == s.attempts[att];
      assert Dirty(att, s.attempts, s.posted, s.sessions);
    }
  }

  /** `construct_session`, up to the call of `run`. */
  lemma BuildKeepsInv(s: Client, i: nat)
    requires Inv(s) && CanGo(s, i)
    requires (s.actors[i].pc.Connecting? && s.expired) || s.actors[i].pc.Building? || s.actors[i].pc.Joined?
    ensures Inv(Proceed(s, i))
  {
    var s' := Proceed(s, i);
    var pc := s'.actors[i].pc;
    assert s.writer == Some(i) <==> HoldsWrite(s.actors[i].pc);
    assert i in s.readers <==> HoldsRead(s.actors[i].pc);
    LocksAfter(s.actors, s.readers, s.writer, i, pc, s.readers, s.writer);
    assert forall att :: 0 <= att < |s.attempts| && s.attempts[att].owner == i ==>
      !Dirty(att, s.attempts, s.posted, s.sessions);
    OneMidway(s, i);
    LifeWhileBuilding(s, i);
    BorrowAfter(s.actors, s.attempts, s.posted, s.sessions, i, pc);
    if pc.Running? {
      HeldAfterNew(s.actors, s.sessions, i, pc);
      RefsAfterNew(s.attempts, s.promises, s.posted, s.sessions, i);
      BorrowAfterNew(s'.actors, s.attempts, s.posted, s.sessions, i);
    } else {
      HeldAfter(s.actors, s.sessions, i, pc);
    }
  }

  lemma OneMidway(s: Client, i: nat)
    requires Locks(s.actors, s.readers, s.writer) && i < |s.actors| && HoldsWrite(s.actors[i].pc)
    ensures forall j :: 0 <= j < |s.actors| && j != i ==> !Midway(s.actors[j].pc)
  {
    forall j | 0 <= j < |s.actors| && j != i ensures !Midway(s.actors[j].pc) {
      assert s.writer == Some(i) && (HoldsWrite(s.actors[j].pc) <==> s.writer == Some(j));
    }
  }

  lemma LifeAtStart(sessions: seq<Session>, actors: seq<Actor>, i: nat, pc: Pc)
    requires Life(true, sessions, actors) && i < |actors| && Midway(pc)
    ensures Life(false, sessions, actors[i := actors[i].(pc := pc)])
  {
    assert Midway(actors[i := actors[i].(pc := pc)][i].pc);
  }

  lemma LifeAtRun(expired: bool, sessions: seq<Session>, actors: seq<Actor>, i: nat, pc: Pc)
    requires Life(expired, sessions, actors) && i < |actors| && Midway(actors[i].pc) && !Midway(pc)
    requires forall j :: 0 <= j < |actors| && j != i ==> !Midway(actors[j].pc)
    ensures Life(expired, sessions + [NewSession(i)], actors[i := actors[i].(pc := pc)])
  {
    var sessions', actors' := sessions + [NewSession(i)], actors[i := actors[i].(pc := pc)];
    NewPumpOk();
    assert SomeoneMidway(actors);
    assert SessionOk(NewSession(i));
    assert forall sid :: 0 <= sid < |sessions| ==> sessions'[sid] == sessions[sid];
    assert sessions'[|sessions|].status != Gone;
    assert forall j :: 0 <= j < |actors'| ==> !Midway(actors'[j].pc);
  }

  lemma BuildShape(s: Client, i: nat)
    requires CanGo(s, i)
    ensures s.actors[i].pc.Connecting? && s.expired ==>
      && Midway(Proceed(s, i).actors[i].pc)
      && Proceed(s, i) == s.(expired := false, actors := Proceed(s, i).actors)
    ensures s.actors[i].pc.Building? ==>
      && Midway(Proceed(s, i).actors[i].pc)
      && Proceed(s, i) == s.(joinable := false, actors := Proceed(s, i).actors)
    ensures s.actors[i].pc.Joined? ==>
      && !Midway(Proceed(s, i).actors[i].pc)
      && Proceed(s, i).expired == s.expired && Proceed(s, i).sessions == s.sessions + [NewSession(i)]
    ensures s.actors[i].pc.Connecting? || s.actors[i].pc.Building? || s.actors[i].pc.Joined? ==>
      Proceed(s, i).actors == s.actors[i := s.actors[i].(pc := Proceed(s, i).actors[i].pc)]
  {
  }

  lemma LifeWhileBuilding(s: Client, i: nat)
    requires Life(s.expired, s.sessions, s.actors) && CanGo(s, i)
    requires (s.actors[i].pc.Connecting? && s.expired) || s.actors[i].pc.Building? || s.actors[i].pc.Joined?
    requires forall j :: 0 <= j < |s.actors| && j != i ==> !Midway(s.actors[j].pc)
    ensures Life(Proceed(s, i).expired, Proceed(s, i).sessions, Proceed(s, i).actors)
  {
    BuildShape(s, i);
    var pc := Proceed(s, i).actors[i].pc;
    if s.actors[i].pc.Connecting? {
      LifeAtStart(s.sessions, s.actors, i, pc);
    } else if s.actors[i].pc.Building? {
      LifeAfter(s.expired, s.sessions, s.actors, i, pc);
    } else {
      LifeAtRun(s.expired, s.sessions, s.actors, i, pc);
    }
  }

  lemma NewPumpOk()
    ensures WritePump.Inv(NewPump<Entry>())
  {
  }

  lemma HeldAfterNew(actors: seq<Actor>, sessions: seq<Session>, i: nat, pc: Pc)
    requires Held(actors, sessions) && i < |actors| && pc.Running? && pc.sid == |sessions|
    ensures Held(actors[i := actors[i].(pc := pc)], sessions + [NewSession(i)])
  {
    var actors' := actors[i := actors[i].(pc := pc)];
    forall j | 0 <= j < |actors| && HeldBy(actors'[j].pc).Some?
      ensures HeldOk(j, HeldBy(actors'[j].pc).value, sessions + [NewSession(i)])
    {
      if j != i {
        assert HeldOk(j, HeldBy(actors[j].pc).value, sessions);
      }
    }
  }

  lemma RefsAfterNew(attempts: seq<Attempt>, promises: seq<Promise>, posted: set<nat>, sessions: seq<Session>, i: nat)
    requires Refs(attempts, promises, posted, sessions)
    ensures Refs(attempts, promises, posted, sessions + [NewSession(i)])
  {
    var sessions' := sessions + [NewSession(i)];
    forall k | 0 <= k < |sessions'| ensures QueueOk(k, sessions'[k].pump.queue, attempts, promises, posted) {
      if k < |sessions| {
        assert QueueOk(k, sessions[k].pump.queue, attempts, promises, posted);
      }
    }
  }

  lemma BorrowAfterNew(actors: seq<Actor>, attempts: seq<Attempt>, posted: set<nat>, sessions: seq<Session>, i: nat)
    requires Borrow(actors, attempts, posted, sessions)
    requires forall att :: 0 <= att < |attempts| ==> attempts[att].sid < |sessions|
    ensures Borrow(actors, attempts, posted, sessions + [NewSession(i)])
  {
    var sessions' := sessions + [NewSession(i)];
    forall att | 0 <= att < |attempts| && Dirty(att, attempts, posted, sessions')
      ensures Dirty(att, attempts, posted, sessions)
    {
      assert sessions'[attempts[att].sid] == sessions[attempts[att].sid];
    }
  }

  lemma SpawnKeepsInv(s: Client, op: Op)
    requires Inv(s)
    ensures Inv(Step(s, Spawn(op)))
  {
    var s' := Step(s, Spawn(op));
    var n := |s.actors|;
    assert s'.actors[n].pc == FirstPc(op) && forall j :: 0 <= j < n ==> s'.actors[j] == s.actors[j];
    if SomeoneMidway(s.actors) {
      var j :| 0 <= j < n && Midway(s.actors[j].pc);
      assert Midway(s'.actors[j].pc);
    }
  }

  lemma GoKeepsInv(s: Client, i: nat)
    requires Inv(s) && CanGo(s, i)
    ensures Inv(Proceed(s, i))
  {
    var pc := s.actors[i].pc;
    if MovesOnly(s, i) {
      MoveKeepsInv(s, i);
    } else if pc.Locked? || pc.Closing? {
      TakeRefKeepsInv(s, i);
    } else if pc.Posting? {
      PostKeepsInv(s, i);
    } else if GivesBack(pc) {
      GiveRefKeepsInv(s, i);
    } else {
      BuildKeepsInv(s, i);
    }
  }

  lemma StepKeepsInv(s: Client, a: Action)
    requires Inv(s)
    ensures Inv(Step(s, a))
  {
    if Enabled(s, a) {
      match a
      case Spawn(op) => SpawnKeepsInv(s, op);
      case Go(i) => GoKeepsInv(s, i);
      case Fail(i) => FailKeepsInv(s, i);
      case RunSend(att) => RunSendKeepsInv(s, att);
      case WriteDone(sid, failed) => WriteDoneKeepsInv(s, sid, failed);
      case Destroy(sid) => DestroyKeepsInv(s, sid);
      case SetExpired(sid) => SetExpiredKeepsInv(s, sid);
      case _ => IoKeepsInv(s, a);
    }
  }

  lemma {:induction false} RunKeepsInv(s: Client, acts: seq<Action>)
    requires Inv(s)
    ensures Inv(Run(s, acts))
    decreases |acts|
  {
    if acts != [] {
      StepKeepsInv(s, acts[0]);
      RunKeepsInv(Step(s, acts[0]), acts[1..]);
    }
  }

  // ----- main results -----

  lemma InitKeepsInv()
    ensures Inv(Init())
  {
  }

  /** Borrowed buffers, in every run and whatever other threads connect, disconnect or send meanwhile:
      once `send` or `send_recv` has returned normally, no posted closure that could still run, no entry
      of an existing session's queue, and so no write in flight, refers to the bytes of any of its attempts. */
  lemma BorrowedBufferSafety(acts: seq<Action>, att: nat)
    requires var s := Run(Init(), acts);
             && att < |s.attempts|
             && s.attempts[att].owner < |s.actors| && s.actors[s.attempts[att].owner].pc.Returned?
    ensures var s := Run(Init(), acts);
            && s.attempts[att].sid < |s.sessions|
            && var x := s.sessions[s.attempts[att].sid];
            && !(att in s.posted && Lockable(x))
            && (x.status != Gone ==> !Queued(x.pump.queue, att))
            && (x.pump.writing ==> x.pump.queue != [] && x.pump.queue[0].caller != att)
  {
    InitKeepsInv();
    RunKeepsInv(Init(), acts);
    ReturnedIsClean(Run(Init(), acts), att);
  }

  lemma ReturnedIsClean(s: Client, att: nat)
    requires Inv(s) && att < |s.attempts| && s.actors[s.attempts[att].owner].pc.Returned?
    ensures !Dirty(att, s.attempts, s.posted, s.sessions)
    ensures var x := s.sessions[s.attempts[att].sid];
            && (x.status != Gone ==> !Queued(x.pump.queue, att))
            && (x.pump.writing ==> x.pump.queue != [] && x.pump.queue[0].caller != att)
  {
    var x := s.sessions[s.attempts[att].sid];
    assert SessionOk(x);
    if x.pump.writing {
      assert x.status == Live;
      assert x.pump.queue[0].caller == att ==> Queued(x.pump.queue, att);
    }
  }

  /** One session at a time: in every run all sessions but the newest are destroyed, `m_expired` is false
      exactly while one is being built or not yet destroyed, `run` never assigns to a joinable thread,
      and the promise of a `run` is set once, when its chain of handlers ends, and never again. */
  lemma SingleLiveSession(acts: seq<Action>, sid: nat)
    requires sid < |Run(Init(), acts).sessions|
    ensures var s := Run(Init(), acts);
            && (sid < |s.sessions| - 1 ==> s.sessions[sid].status == Gone)
            && (s.expired <==> AllGone(s.sessions) && !SomeoneMidway(s.actors))
            && !s.clobbered
            && s.sessions[sid].runSets == (if s.sessions[sid].chain == NoOp then 1 else 0)
            && (s.sessions[sid].runResult.Some? <==> s.sessions[sid].chain == NoOp)
  {
    InitKeepsInv();
    RunKeepsInv(Init(), acts);
    assert SessionOk(Run(Init(), acts).sessions[sid]);
  }

  /** A session is alive as long as some call works on it, and at most one call is inside the write lock. */
  lemma NoUseAfterDestruction(acts: seq<Action>, i: nat, j: nat)
    requires i < |Run(Init(), acts).actors| && j < |Run(Init(), acts).actors|
    ensures var s := Run(Init(), acts);
            && (HeldBy(s.actors[i].pc).Some? ==>
                  && HeldBy(s.actors[i].pc).value < |s.sessions|
                  && s.sessions[HeldBy(s.actors[i].pc).value].status == Live)
            && (i != j && HoldsWrite(s.actors[i].pc) ==> !HoldsWrite(s.actors[j].pc) && !HoldsRead(s.actors[j].pc))
  {
    InitKeepsInv();
    RunKeepsInv(Init(), acts);
    var s := Run(Init(), acts);
    if HeldBy(s.actors[i].pc).Some? {
      assert HeldOk(i, HeldBy(s.actors[i].pc).value, s.sessions);
    }
    assert HoldsWrite(s.actors[i].pc) <==> s.writer == Some(i);
    assert HoldsWrite(s.actors[j].pc) <==> s.writer == Some(j);
    assert HoldsRead(s.actors[j].pc) <==> j in s.readers;
  }

  // ----- what a call reports -----

  /** How the last attempt of a call stands: under way, or ended well, without a session, or in an error. */
  datatype Try = Going | Succeeded | NoSession | Errored

  /** A call's attempts, told from what it met: how many of them failed, and the last one. */
  datatype Story = Story(failures: nat, last: Try)

  predicate SessionLives(s: Client) {
    s.sessions != [] && var x := s.sessions[|s.sessions| - 1]; x.status == Live && HasRefs(x)
  }

  /** An attempt of `send` begins when the read lock is taken and ends at once if there is no session, and
      well when the promise is ready or, with a response, when the wait for it ends in time. */
  function SendGoes(s: Client, i: nat, h: Story): Story
    requires i < |s.actors| && s.actors[i].op.Send?
  {
    match s.actors[i].pc
    case Loop(left) => if left > 0 && s.writer == None then h.(last := Going) else h
    case Locked(_) => if SessionLives(s) then h else Story(h.failures + 1, NoSession)
    case Await(_, _, att) =>
      if !s.actors[i].op.recv && att < |s.promises| && s.promises[att].value.Some? then h.(last := Succeeded) else h
    case AwaitResponse(_, _) => h.(last := Succeeded)
    case _ => h
  }

  /** An attempt to connect ends well if a session exists or the one built for it is established. */
  function ConnectGoes(s: Client, i: nat, h: Story): Story
    requires i < |s.actors|
  {
    match s.actors[i].pc
    case Connecting(_) => if s.expired then h.(last := Going) else h.(last := Succeeded)
    case Running(_, sid) =>
      if sid >= |s.sessions| || s.sessions[sid].runResult == None then h
      else if s.sessions[sid].runResult == Some(true) then h.(last := Succeeded)
      else Story(h.failures + 1, Errored)
    case _ => h
  }

  /** A `send` times out or its table is full. */
  function SendFails(s: Client, i: nat, h: Story): Story
    requires i < |s.actors| && s.actors[i].op.Send?
  {
    match s.actors[i].pc
    case Posting(_, _) => if s.actors[i].op.recv then Story(h.failures + 1, Errored) else h
    case Await(_, _, att) =>
      if att < |s.promises| && s.promises[att].value == None then Story(h.failures + 1, Errored) else h
    case AwaitResponse(_, _) => Story(h.failures + 1, Errored)
    case _ => h
  }

  function AfterAction(s: Client, a: Action, i: nat, h: Story): Story
    requires i < |s.actors|
  {
    match s.actors[i].op
    case Send(_, _, _, _) => if a == Go(i) then SendGoes(s, i, h) else if a == Fail(i) then SendFails(s, i, h) else h
    case Connect(_) => if a == Go(i) then ConnectGoes(s, i, h) else h
    case Disconnect => h
  }

  ghost function StoryOf(s: Client, acts: seq<Action>, i: nat, h: Story): Story
    decreases |acts|
  {
    if acts == [] || i >= |s.actors| then h
    else StoryOf(Step(s, acts[0]), acts[1..], i, AfterAction(s, acts[0], i, h))
  }

  /** A `send` that met no session connects before it tries again, and one that met an error disconnects. */
  predicate SendTells(pc: Pc, attempts: nat, h: Story) {
    match pc
    case Loop(left) => left + h.failures == attempts && h.last != Succeeded
    case Locked(left) => left > 0 && left + h.failures == attempts && h.last == Going
    case Posting(left, _) => left > 0 && left + h.failures == attempts && h.last == Going
    case Await(left, _, _) => left > 0 && left + h.failures == attempts && h.last == Going
    case AwaitResponse(left, _) => left > 0 && left + h.failures == attempts && h.last == Going
    case Leave(left, _, failed) => EndsAttempt(left, failed, attempts, h)
    case Unlock(left, failed) => EndsAttempt(left, failed, attempts, h)
    case WantClose(left) => EndsAttempt(left, true, attempts, h)
    case Closing(left) => EndsAttempt(left, true, attempts, h)
    case Closed(left, _) => EndsAttempt(left, true, attempts, h)
    case WaitExpired(left) => EndsAttempt(left, true, attempts, h)
    case WantConnect(left) => FoundNone(left, attempts, h)
    case Connecting(left) => FoundNone(left, attempts, h)
    case Building(left) => FoundNone(left, attempts, h)
    case Joined(left) => FoundNone(left, attempts, h)
    case Running(left, _) => FoundNone(left, attempts, h)
    case Retry(_) => false
    case Returned(ok) => Reports(ok, attempts, h)
    case Threw => true
  }

  predicate EndsAttempt(left: nat, failed: bool, attempts: nat, h: Story) {
    left > 0 && left + h.failures == (if failed then attempts + 1 else attempts)
    && h.last == (if failed then Errored else Succeeded)
  }

  predicate FoundNone(left: nat, attempts: nat, h: Story) {
    left > 0 && left + h.failures == attempts + 1 && h.last == NoSession
  }

  /** True after an attempt that succeeded; false once all attempts have failed. */
  predicate Reports(ok: bool, attempts: nat, h: Story) {
    if ok then h.last == Succeeded && h.failures < attempts else h.last != Succeeded && h.failures == attempts
  }

  predicate ConnectTells(pc: Pc, attempts: nat, h: Story) {
    match pc
    case WantConnect(left) => left > 0 && left + h.failures == attempts && h.last != Succeeded
    case Connecting(left) => left > 0 && left + h.failures == attempts && h.last != Succeeded
    case Building(left) => left > 0 && left + h.failures == attempts && h.last == Going
    case Joined(left) => left > 0 && left + h.failures == attempts && h.last == Going
    case Running(left, _) => left > 0 && left + h.failures == attempts && h.last == Going
    case Retry(left) => left > 0 && left + h.failures == attempts && h.last == Errored
    case Returned(ok) => Reports(ok, attempts, h)
    case Threw => true
    case _ => false
  }

  /** `disconnect` only returns, or throws, out of its wait for the destruction of the session. */
  predicate DisconnectTells(pc: Pc) {
    pc.WantClose? || pc.Closing? || pc.Closed? || pc.WaitExpired? || pc == Returned(true) || pc.Threw?
  }

  predicate Tells(actor: Actor, h: Story) {
    match actor.op
    case Send(_, _, _, attempts) => SendTells(actor.pc, attempts, h)
    case Connect(attempts) => ConnectTells(actor.pc, attempts, h)
    case Disconnect => DisconnectTells(actor.pc)
  }

  /** A step of call `j` moves no other call. */
  predicate MovesAlone(s: Client, s': Client, j: nat) {
    |s'.actors| == |s.actors| && forall i :: 0 <= i < |s.actors| && i != j ==> s'.actors[i] == s.actors[i]
  }

  predicate InSend(pc: Pc) {
    pc.Loop? || pc.Locked? || pc.Posting? || pc.Await? || pc.AwaitResponse? || pc.Leave? || pc.Unlock?
  }

  predicate InDisconnect(pc: Pc) {
    pc.WantClose? || pc.Closing? || pc.Closed? || pc.WaitExpired?
  }

  lemma SendMovesAlone(s: Client, j: nat)
    requires CanGo(s, j) && InSend(s.actors[j].pc)
    ensures MovesAlone(s, Proceed(s, j), j)
  {
  }

  lemma DisconnectMovesAlone(s: Client, j: nat)
    requires CanGo(s, j) && InDisconnect(s.actors[j].pc)
    ensures MovesAlone(s, Proceed(s, j), j)
  {
  }

  lemma ConnectMovesAlone(s: Client, j: nat)
    requires CanGo(s, j) && !InSend(s.actors[j].pc) && !InDisconnect(s.actors[j].pc)
    ensures MovesAlone(s, Proceed(s, j), j)
  {
  }

  lemma GiveUpMovesAlone(s: Client, j: nat)
    requires CanFail(s, j)
    ensures MovesAlone(s, GiveUp(s, j), j)
  {
  }

  lemma IoMovesNobody(s: Client, a: Action)
    requires Enabled(s, a) && !a.Spawn? && !a.Go? && !a.Fail?
    ensures Step(s, a).actors == s.actors
  {
  }

  lemma OthersLeaveCall(s: Client, a: Action, i: nat)
    requires i < |s.actors| && a != Go(i) && a != Fail(i)
    ensures i < |Step(s, a).actors| && Step(s, a).actors[i] == s.actors[i]
  {
    if Enabled(s, a) {
      match a
      case Spawn(_) =>
      case Go(j) =>
        if InSend(s.actors[j].pc) {
          SendMovesAlone(s, j);
        } else if InDisconnect(s.actors[j].pc) {
          DisconnectMovesAlone(s, j);
        } else {
          ConnectMovesAlone(s, j);
        }
      case Fail(j) => GiveUpMovesAlone(s, j);
      case _ => IoMovesNobody(s, a);
    }
  }

  lemma AttemptGoes(s: Client, i: nat, h: Story)
    requires CanGo(s, i) && s.actors[i].op.Send? && InSend(s.actors[i].pc)
    requires SendTells(s.actors[i].pc, s.actors[i].op.attempts, h)
    ensures SendTells(Proceed(s, i).actors[i].pc, s.actors[i].op.attempts, SendGoes(s, i, h))
  {
  }

  lemma DisconnectGoes(s: Client, i: nat, h: Story)
    requires CanGo(s, i) && s.actors[i].op.Send? && InDisconnect(s.actors[i].pc)
    requires SendTells(s.actors[i].pc, s.actors[i].op.attempts, h)
    ensures SendTells(Proceed(s, i).actors[i].pc, s.actors[i].op.attempts, SendGoes(s, i, h))
  {
  }

  lemma ReconnectGoes(s: Client, i: nat, h: Story)
    requires CanGo(s, i) && s.actors[i].op.Send? && !InSend(s.actors[i].pc) && !InDisconnect(s.actors[i].pc)
    requires SendTells(s.actors[i].pc, s.actors[i].op.attempts, h)
    ensures SendTells(Proceed(s, i).actors[i].pc, s.actors[i].op.attempts, SendGoes(s, i, h))
  {
  }

  lemma SendTellsGo(s: Client, i: nat, h: Story)
    requires CanGo(s, i) && s.actors[i].op.Send? && SendTells(s.actors[i].pc, s.actors[i].op.attempts, h)
    ensures SendTells(Proceed(s, i).actors[i].pc, s.actors[i].op.attempts, SendGoes(s, i, h))
  {
    if InSend(s.actors[i].pc) {
      AttemptGoes(s, i, h);
    } else if InDisconnect(s.actors[i].pc) {
      DisconnectGoes(s, i, h);
    } else {
      ReconnectGoes(s, i, h);
    }
  }

  lemma RunEnds(s: Client, i: nat, h: Story)
    requires CanGo(s, i) && s.actors[i].op.Connect? && s.actors[i].pc.Running?
    requires ConnectTells(s.actors[i].pc, s.actors[i].op.attempts, h)
    ensures ConnectTells(Proceed(s, i).actors[i].pc, s.actors[i].op.attempts, ConnectGoes(s, i, h))
  {
    var Running(left, sid) := s.actors[i].pc;
    var ok := s.sessions[sid].runResult.value;
    assert s.sessions[sid].runResult == Some(ok);
    assert Proceed(s, i).actors[i].pc == if !ok && left > 1 then Retry(left - 1) else Returned(ok);
  }

  lemma ConnectTellsGo(s: Client, i: nat, h: Story)
    requires CanGo(s, i) && s.actors[i].op.Connect? && ConnectTells(s.actors[i].pc, s.actors[i].op.attempts, h)
    ensures ConnectTells(Proceed(s, i).actors[i].pc, s.actors[i].op.attempts, ConnectGoes(s, i, h))
  {
    if s.actors[i].pc.Running? {
      RunEnds(s, i, h);
    } else {
      BuildGoes(s, i, h);
    }
  }

  lemma BuildGoes(s: Client, i: nat, h: Story)
    requires CanGo(s, i) && s.actors[i].op.Connect? && !s.actors[i].pc.Running?
    requires ConnectTells(s.actors[i].pc, s.actors[i].op.attempts, h)
    ensures ConnectTells(Proceed(s, i).actors[i].pc, s.actors[i].op.attempts, ConnectGoes(s, i, h))
  {
  }

  lemma DisconnectTellsGo(s: Client, i: nat)
    requires CanGo(s, i) && s.actors[i].op.Disconnect? && DisconnectTells(s.actors[i].pc)
    ensures DisconnectTells(Proceed(s, i).actors[i].pc)
  {
  }

  lemma OpStays(s: Client, i: nat)
    requires CanGo(s, i)
    ensures |Proceed(s, i).actors| == |s.actors| && Proceed(s, i).actors[i].op == s.actors[i].op
  {
    var pc := s.actors[i].pc;
    if InSend(pc) {
      SendOpStays(s, i);
    } else if !InDisconnect(pc) {
      ConnectOpStays(s, i);
    }
  }

  lemma SendOpStays(s: Client, i: nat)
    requires CanGo(s, i) && InSend(s.actors[i].pc)
    ensures |Proceed(s, i).actors| == |s.actors| && Proceed(s, i).actors[i].op == s.actors[i].op
  {
  }

  lemma ConnectOpStays(s: Client, i: nat)
    requires CanGo(s, i) && !InSend(s.actors[i].pc) && !InDisconnect(s.actors[i].pc)
    ensures |Proceed(s, i).actors| == |s.actors| && Proceed(s, i).actors[i].op == s.actors[i].op
  {
  }

  lemma TellsFail(s: Client, i: nat, h: Story)
    requires CanFail(s, i) && Tells(s.actors[i], h)
    ensures GiveUp(s, i).actors[i].op == s.actors[i].op && Tells(GiveUp(s, i).actors[i], AfterAction(s, Fail(i), i, h))
  {
  }

  lemma StoppedGoesNot(s: Client, i: nat, h: Story)
    requires i < |s.actors| && Tells(s.actors[i], h)
    ensures !CanGo(s, i) && s.actors[i].op.Send? ==> SendGoes(s, i, h) == h
    ensures !CanGo(s, i) && s.actors[i].op.Connect? ==> ConnectGoes(s, i, h) == h
    ensures !CanFail(s, i) && s.actors[i].op.Send? ==> SendFails(s, i, h) == h
  {
  }

  lemma TellsAtStep(s: Client, a: Action, i: nat, h: Story)
    requires i < |s.actors| && Tells(s.actors[i], h)
    ensures i < |Step(s, a).actors| && Tells(Step(s, a).actors[i], AfterAction(s, a, i, h))
  {
    StoppedGoesNot(s, i, h);
    if a == Go(i) {
      if CanGo(s, i) {
        OpStays(s, i);
        match s.actors[i].op
        case Send(_, _, _, _) => SendTellsGo(s, i, h);
        case Connect(_) => ConnectTellsGo(s, i, h);
        case Disconnect => DisconnectTellsGo(s, i);
      }
    } else if a == Fail(i) {
      if CanFail(s, i) {
        TellsFail(s, i, h);
      }
    } else {
      OthersLeaveCall(s, a, i);
    }
  }

  lemma {:induction false} TellsOverRun(s: Client, acts: seq<Action>, i: nat, h: Story)
    requires i < |s.actors| && Tells(s.actors[i], h)
    ensures i < |Run(s, acts).actors| && Tells(Run(s, acts).actors[i], StoryOf(s, acts, i, h))
    decreases |acts|
  {
    if acts != [] {
      TellsAtStep(s, acts[0], i, h);
      TellsOverRun(Step(s, acts[0]), acts[1..], i, AfterAction(s, acts[0], i, h));
    }
  }

  /** What a call reports, in every run: `send` and `connect` return true exactly after an attempt that
      succeeded, and false once all their attempts have failed, one by one; after an attempt without a
      session `send` connects, and after an error it disconnects, before it goes on. */
  lemma CallsReportTheirAttempts(s: Client, op: Op, acts: seq<Action>)
    ensures var i, s' := |s.actors|, Step(s, Spawn(op));
            i < |Run(s', acts).actors| && Tells(Run(s', acts).actors[i], StoryOf(s', acts, i, Story(0, Going)))
  {
    TellsOverRun(Step(s, Spawn(op)), acts, |s.actors|, Story(0, Going));
  }

  // ----- what establishes a session -----

  /** What the promise of `run` holds after `links` good links of its chain and then `acts`. */
  function RunPromise(acts: seq<Action>, sid: nat, links: nat): Option<bool>
    decreases |acts|
  {
    if links == 3 then Some(true)
    else if acts == [] then None
    else if !acts[0].ChainStep? || acts[0].sid != sid then RunPromise(acts[1..], sid, links)
    else if acts[0].ok then RunPromise(acts[1..], sid, links + 1)
    else Some(false)
  }

  predicate AtLink(x: Session, links: nat) {
    match links
    case 0 => x.chain == Resolve
    case 1 => x.chain == Tcp
    case 2 => x.chain == Handshake
    case _ => false
  }

  lemma ActorsLeaveChain(s: Client, i: nat, sid: nat)
    requires CanGo(s, i) && sid < |s.sessions|
    ensures SameChain(s, Proceed(s, i), sid)
  {
    if InSend(s.actors[i].pc) {
      SendLeavesChain(s, i, sid);
    } else if InDisconnect(s.actors[i].pc) {
      DisconnectLeavesChain(s, i, sid);
    } else {
      ConnectLeavesChain(s, i, sid);
    }
  }

  predicate SameChain(s: Client, s': Client, sid: nat)
    requires sid < |s.sessions|
  {
    && sid < |s'.sessions|
    && s'.sessions[sid].chain == s.sessions[sid].chain && s'.sessions[sid].runResult == s.sessions[sid].runResult
  }

  lemma SendLeavesChain(s: Client, i: nat, sid: nat)
    requires CanGo(s, i) && sid < |s.sessions| && InSend(s.actors[i].pc)
    ensures SameChain(s, Proceed(s, i), sid)
  {
  }

  lemma DisconnectLeavesChain(s: Client, i: nat, sid: nat)
    requires CanGo(s, i) && sid < |s.sessions| && InDisconnect(s.actors[i].pc)
    ensures SameChain(s, Proceed(s, i), sid)
  {
  }

  lemma ConnectLeavesChain(s: Client, i: nat, sid: nat)
    requires CanGo(s, i) && sid < |s.sessions| && !InSend(s.actors[i].pc) && !InDisconnect(s.actors[i].pc)
    ensures SameChain(s, Proceed(s, i), sid)
  {
  }

  lemma SessionIoLeavesChain(x: Session, a: Action)
    requires !a.ChainStep?
    ensures AfterIo(x, a).chain == x.chain && AfterIo(x, a).runResult == x.runResult
  {
  }

  lemma IoLeavesChain(s: Client, a: Action, sid: nat)
    requires sid < |s.sessions| && Enabled(s, a) && !(a.ChainStep? && a.sid == sid)
    requires !a.Go? && !a.Spawn? && !a.Fail? && !a.RunSend?
    ensures SameChain(s, Step(s, a), sid)
  {
    if a.sid == sid {
      SessionIoLeavesChain(s.sessions[sid], a);
    }
  }

  lemma RunSendLeavesChain(s: Client, att: nat, sid: nat)
    requires sid < |s.sessions| && Enabled(s, Action.RunSend(att))
    ensures SameChain(s, Step(s, Action.RunSend(att)), sid)
  {
  }

  lemma FailLeavesChain(s: Client, i: nat, sid: nat)
    requires sid < |s.sessions| && CanFail(s, i)
    ensures SameChain(s, GiveUp(s, i), sid)
  {
  }

  lemma OthersLeaveChain(s: Client, a: Action, sid: nat)
    requires sid < |s.sessions| && !(a.ChainStep? && a.sid == sid)
    ensures SameChain(s, Step(s, a), sid)
  {
    if Enabled(s, a) {
      match a
      case Spawn(_) =>
      case Go(i) => ActorsLeaveChain(s, i, sid);
      case Fail(i) => FailLeavesChain(s, i, sid);
      case RunSend(att) => RunSendLeavesChain(s, att, sid);
      case _ => IoLeavesChain(s, a, sid);
    }
  }

  lemma {:induction false} ResolvedRunStays(s: Client, acts: seq<Action>, sid: nat)
    requires sid < |s.sessions| && s.sessions[sid].chain == NoOp
    ensures sid < |Run(s, acts).sessions| && Run(s, acts).sessions[sid].runResult == s.sessions[sid].runResult
    decreases |acts|
  {
    if acts != [] {
      var a := acts[0];
      if !(a.ChainStep? && a.sid == sid) {
        OthersLeaveChain(s, a, sid);
      }
      ResolvedRunStays(Step(s, a), acts[1..], sid);
    }
  }

  lemma LinkGoes(s: Client, sid: nat, ok: bool, links: nat)
    requires sid < |s.sessions| && links < 3 && AtLink(s.sessions[sid], links) && s.sessions[sid].runResult == None
    ensures var xs := Step(s, ChainStep(sid, ok)).sessions;
            && sid < |xs|
            && (if !ok then xs[sid].chain == NoOp && xs[sid].runResult == Some(false)
                else if links == 2 then xs[sid].chain == NoOp && xs[sid].runResult == Some(true)
                else AtLink(xs[sid], links + 1) && xs[sid].runResult == None)
  {
  }

  lemma {:induction false} ChainFrom(s: Client, acts: seq<Action>, sid: nat, links: nat)
    requires sid < |s.sessions| && links < 3 && AtLink(s.sessions[sid], links) && s.sessions[sid].runResult == None
    ensures sid < |Run(s, acts).sessions| && Run(s, acts).sessions[sid].runResult == RunPromise(acts, sid, links)
    decreases |acts|
  {
    if acts != [] {
      var a, s' := acts[0], Step(s, acts[0]);
      if a.ChainStep? && a.sid == sid {
        LinkGoes(s, sid, a.ok, links);
        if a.ok && links < 2 {
          ChainFrom(s', acts[1..], sid, links + 1);
        } else {
          ResolvedRunStays(s', acts[1..], sid);
        }
      } else {
        OthersLeaveChain(s, a, sid);
        ChainFrom(s', acts[1..], sid, links);
      }
    }
  }

  /** `run` says established exactly when resolve, connect and handshake of this session succeeded, all
      three, and not established as soon as one failed, whatever else happens. */
  lemma EstablishedIff(s: Client, i: nat, left: nat, acts: seq<Action>)
    requires i < |s.actors| && s.actors[i].pc == Joined(left)
    ensures var sid, s' := |s.sessions|, Run(Step(s, Go(i)), acts);
            sid < |s'.sessions| && s'.sessions[sid].runResult == RunPromise(acts, sid, 0)
  {
    ChainFrom(Step(s, Go(i)), acts, |s.sessions|, 0);
  }

  // ----- a session's writes -----

  /** What action `a` is to the write pump of session `sid`; a posted `handle_send` or close only runs if
      the session's weak pointer can still be locked. */
  function PumpActionOf(s: Client, a: Action, sid: nat): Option<WritePump.Action<Entry>>
    requires sid < |s.sessions|
  {
    var x := s.sessions[sid];
    match a
    case RunSend(att) =>
      if att in s.posted && att < |s.attempts| && s.attempts[att].sid == sid && x.status == Live && HasRefs(x)
      then Some(WritePump.Send(LentBy(s, att))) else None
    case Deliver(k) => if k == sid then Some(WritePump.Action.Deliver) else None
    case WriteDone(k, failed) => if k == sid then Some(WritePump.Action.WriteDone(failed, true)) else None
    case ReadEnd(k) => if k == sid && x.reading then Some(WritePump.Action.ReadError(true)) else None
    case PeerClose(k) => if k == sid && x.reading then Some(WritePump.Action.PeerClose) else None
    case RunClose(k) =>
      if k == sid && x.closePosted && x.status == Live && HasRefs(x) then Some(WritePump.Action.Close) else None
    case _ => None
  }

  /** The entry of an attempt: the call id and bytes of the `send` that made it. */
  function LentBy(s: Client, att: nat): Entry
    requires att < |s.attempts|
  {
    var i := s.attempts[att].owner;
    if i < |s.actors| && s.actors[i].op.Send? then Entry(s.actors[i].op.callId, 0, att, s.actors[i].op.body)
    else Entry(0, 0, att, [])
  }

  ghost function PumpActionsOf(s: Client, acts: seq<Action>, sid: nat): seq<WritePump.Action<Entry>>
    decreases |acts|
  {
    if acts == [] || sid >= |s.sessions| then []
    else
      var later := PumpActionsOf(Step(s, acts[0]), acts[1..], sid);
      match PumpActionOf(s, acts[0], sid)
      case Some(b) => [b] + later
      case None => later
  }

  function PumpAfter(p: Pump<Entry>, b: Option<WritePump.Action<Entry>>): Pump<Entry> {
    if b.Some? then WritePump.Step(p, b.value) else p
  }

  ghost predicate PumpMoves(s: Client, a: Action, sid: nat)
    requires sid < |s.sessions|
  {
    && sid < |Step(s, a).sessions|
    && Step(s, a).sessions[sid].pump == PumpAfter(s.sessions[sid].pump, PumpActionOf(s, a, sid))
  }

  lemma SendLeavesPump(s: Client, i: nat, sid: nat)
    requires CanGo(s, i) && sid < |s.sessions| && InSend(s.actors[i].pc)
    ensures sid < |Proceed(s, i).sessions| && Proceed(s, i).sessions[sid].pump == s.sessions[sid].pump
  {
  }

  lemma DisconnectLeavesPump(s: Client, i: nat, sid: nat)
    requires CanGo(s, i) && sid < |s.sessions| && InDisconnect(s.actors[i].pc)
    ensures sid < |Proceed(s, i).sessions| && Proceed(s, i).sessions[sid].pump == s.sessions[sid].pump
  {
  }

  lemma ConnectLeavesPump(s: Client, i: nat, sid: nat)
    requires CanGo(s, i) && sid < |s.sessions| && !InSend(s.actors[i].pc) && !InDisconnect(s.actors[i].pc)
    ensures sid < |Proceed(s, i).sessions| && Proceed(s, i).sessions[sid].pump == s.sessions[sid].pump
  {
  }

  lemma SessionIoIsPump(x: Session, a: Action, sid: nat)
    requires !a.Spawn? && !a.Go? && !a.Fail? && !a.RunSend?
    requires a.Deliver? ==> x.pump.writing && !x.pump.onWire
    requires a.WriteDone? ==> x.pump.writing && (a.failed || x.pump.onWire)
    ensures AfterIo(x, a).pump
         == match a
            case Deliver(_) => WritePump.Step(x.pump, WritePump.Action.Deliver)
            case WriteDone(_, failed) => WritePump.Step(x.pump, WritePump.Action.WriteDone(failed, true))
            case ReadEnd(_) => WritePump.Step(x.pump, WritePump.Action.ReadError(true))
            case PeerClose(_) => WritePump.Step(x.pump, WritePump.Action.PeerClose)
            case RunClose(_) =>
              if x.status == Live && HasRefs(x) then WritePump.Step(x.pump, WritePump.Action.Close) else x.pump
            case _ => x.pump
  {
  }

  lemma IoMovesPump(s: Client, a: Action, sid: nat)
    requires sid < |s.sessions| && Enabled(s, a) && !a.Spawn? && !a.Go? && !a.Fail? && !a.RunSend?
    ensures PumpMoves(s, a, sid)
  {
    if a.sid == sid {
      SessionIoIsPump(s.sessions[sid], a, sid);
    }
  }

  lemma RunSendMovesPump(s: Client, att: nat, sid: nat)
    requires sid < |s.sessions| && Enabled(s, Action.RunSend(att))
    ensures PumpMoves(s, Action.RunSend(att), sid)
  {
    assert EntryOf(s, att) == LentBy(s, att);
  }

  lemma IdleLeavesPump(s: Client, a: Action, sid: nat)
    requires sid < |s.sessions| && !Enabled(s, a)
    ensures PumpMoves(s, a, sid)
  {
  }

  lemma StepMovesPump(s: Client, a: Action, sid: nat)
    requires sid < |s.sessions|
    ensures PumpMoves(s, a, sid)
  {
    if !Enabled(s, a) {
      IdleLeavesPump(s, a, sid);
    } else if a.Go? {
      if InSend(s.actors[a.i].pc) {
        SendLeavesPump(s, a.i, sid);
      } else if InDisconnect(s.actors[a.i].pc) {
        DisconnectLeavesPump(s, a.i, sid);
      } else {
        ConnectLeavesPump(s, a.i, sid);
      }
    } else if a.RunSend? {
      RunSendMovesPump(s, a.att, sid);
    } else if !a.Spawn? && !a.Fail? {
      IoMovesPump(s, a, sid);
    }
  }

  lemma PumpRunOn(p: Pump<Entry>, b: WritePump.Action<Entry>, later: seq<WritePump.Action<Entry>>)
    ensures WritePump.Run(p, [b] + later) == WritePump.Run(WritePump.Step(p, b), later)
  {
    assert ([b] + later)[1..] == later;
  }

  lemma {:induction false} PumpRuns(s: Client, acts: seq<Action>, sid: nat)
    requires sid < |s.sessions|
    ensures sid < |Run(s, acts).sessions|
    ensures Run(s, acts).sessions[sid].pump == WritePump.Run(s.sessions[sid].pump, PumpActionsOf(s, acts, sid))
    decreases |acts|
  {
    if acts != [] {
      var later := PumpActionsOf(Step(s, acts[0]), acts[1..], sid);
      StepMovesPump(s, acts[0], sid);
      PumpRuns(Step(s, acts[0]), acts[1..], sid);
      if PumpActionOf(s, acts[0], sid).Some? {
        PumpRunOn(s.sessions[sid].pump, PumpActionOf(s, acts[0], sid).value, later);
      }
    }
  }

  /** Each session of a client is a write pump: over any run from its making on, what it accepts and delivers
      is what a fresh pump does with the sends of this session that still found it alive, its deliveries and
      completions, read errors, close frames and closes; so all that is proved of the pump holds of it. */
  lemma SessionIsPump(s: Client, i: nat, left: nat, acts: seq<Action>)
    requires i < |s.actors| && s.actors[i].pc == Joined(left)
    ensures var sid, s' := |s.sessions|, Step(s, Go(i));
            && sid < |Run(s', acts).sessions|
            && Run(s', acts).sessions[sid].pump == WritePump.Run(NewPump<Entry>(), PumpActionsOf(s', acts, sid))
  {
    PumpRuns(Step(s, Go(i)), acts, |s.sessions|);
  }

  // ----- a run in which connect, send and disconnect succeed -----

  function Dialer(pc: Pc): Actor { Actor(Connect(1), pc) }

  function Sender(callId: U32, body: Bytes, pc: Pc): Actor { Actor(Op.Send(false, callId, body, 1), pc) }

  function Leaver(pc: Pc): Actor { Actor(Disconnect, pc) }

  /** While `connect` is inside the write lock. */
  function Dialing(pc: Pc, sessions: seq<Session>): Client {
    Client(pc.Connecting?, sessions != [], false, {}, Some(0), sessions, [Dialer(pc)], [], [], {})
  }

  function Dialed(chain: Chain, holders: set<nat>): Session {
    var up := chain == NoOp;
    Session(Live, holders, NewPump(), chain, up, false, false, if up then Some(true) else None, if up then 1 else 0)
  }

  /** While `send` is under way on the established session. */
  function Sending(callId: U32, body: Bytes, pc: Pc, holders: set<nat>, pump: Pump<Entry>, promises: seq<Promise>,
                   posted: set<nat>): Client
  {
    Client(false, true, false, if HoldsRead(pc) then {1} else {}, None, [Dialed(NoOp, holders).(pump := pump)],
           [Dialer(Returned(true)), Sender(callId, body, pc)],
           if promises == [] then [] else [Attempt(1, 0)], promises, posted)
  }

  function Written(callId: U32, body: Bytes): Pump<Entry> {
    Pump(Flags(false, false, false, false), [], false, false, [Entry(callId, 0, 0, body)], 1, 0, 1, 1, 0)
  }

  function Writing(callId: U32, body: Bytes, onWire: bool): Pump<Entry> {
    var e := Entry(callId, 0, 0, body);
    Pump(Flags(false, false, false, false), [e], true, onWire, [e], 0, 0, if onWire then 1 else 0, 1, 0)
  }

  /** While `disconnect` is under way, the message written. */
  function Leaving(callId: U32, body: Bytes, pc: Pc, x: Session): Client {
    Client(x.status == Gone, true, false, {}, if HoldsWrite(pc) then Some(2) else None, [x],
           [Dialer(Returned(true)), Sender(callId, body, Returned(true)), Leaver(pc)],
           [Attempt(1, 0)], [Promise(true, Some(true))], {})
  }

  /** The session as it goes down. */
  function Left(callId: U32, body: Bytes, status: Status, close: bool, readError: bool, posted: bool,
                pending: bool): Session
  {
    var pump := Written(callId, body).(flags := Flags(close, false, false, readError), closes := if close then 1 else 0);
    Session(status, {}, pump, NoOp, !readError, posted, pending, Some(true), 1)
  }

  function ConnectScene(k: nat): Client
    requires k <= 9
  {
    match k
    case 0 => Init()
    case 1 => Init().(actors := [Dialer(WantConnect(1))])
    case 2 => Dialing(Connecting(1), [])
    case 3 => Dialing(Building(1), [])
    case 4 => Dialing(Joined(1), [])
    case 5 => Dialing(Running(1, 0), [Dialed(Resolve, {0})])
    case 6 => Dialing(Running(1, 0), [Dialed(Tcp, {0})])
    case 7 => Dialing(Running(1, 0), [Dialed(Handshake, {0})])
    case 8 => Dialing(Running(1, 0), [Dialed(NoOp, {0})])
    case _ => Dialing(Returned(true), [Dialed(NoOp, {})]).(writer := None)
  }

  function SendScene(callId: U32, body: Bytes, k: nat): Client
    requires 10 <= k <= 19
  {
    var unset, ready := [Promise(true, None)], [Promise(true, Some(true))];
    match k
    case 10 => Sending(callId, body, Loop(1), {}, NewPump(), [], {})
    case 11 => Sending(callId, body, Locked(1), {}, NewPump(), [], {})
    case 12 => Sending(callId, body, Posting(1, 0), {1}, NewPump(), [], {})
    case 13 => Sending(callId, body, Await(1, 0, 0), {1}, NewPump(), unset, {0})
    case 14 => Sending(callId, body, Await(1, 0, 0), {1}, Writing(callId, body, false), unset, {})
    case 15 => Sending(callId, body, Await(1, 0, 0), {1}, Writing(callId, body, true), unset, {})
    case 16 => Sending(callId, body, Await(1, 0, 0), {1}, Written(callId, body), ready, {})
    case 17 => Sending(callId, body, Leave(1, 0, false), {1}, Written(callId, body), ready, {})
    case 18 => Sending(callId, body, Unlock(1, false), {}, Written(callId, body), ready, {})
    case _ => Sending(callId, body, Returned(true), {}, Written(callId, body), ready, {})
  }

  function LeaveScene(callId: U32, body: Bytes, k: nat): Client
    requires 20 <= k <= 29
  {
    match k
    case 20 => Leaving(callId, body, WantClose(0), Left(callId, body, Live, false, false, false, false))
    case 21 => Leaving(callId, body, Closing(0), Left(callId, body, Live, false, false, false, false))
    case 22 => Leaving(callId, body, Closed(0, 0), Left(callId, body, Live, false, false, true, false).(holders := {2}))
    case 23 => Leaving(callId, body, WaitExpired(0), Left(callId, body, Live, false, false, true, false))
    case 24 => Leaving(callId, body, WaitExpired(0), Left(callId, body, Live, true, false, false, true))
    case 25 => Leaving(callId, body, WaitExpired(0), Left(callId, body, Live, true, false, false, false))
    case 26 => Leaving(callId, body, WaitExpired(0), Left(callId, body, Live, true, true, false, false))
    case 27 => Leaving(callId, body, WaitExpired(0), Left(callId, body, Deleted, true, true, false, false))
    case 28 => Leaving(callId, body, WaitExpired(0), Left(callId, body, Gone, true, true, false, false))
    case _ => Leaving(callId, body, Returned(true), Left(callId, body, Gone, true, true, false, false))
  }

  lemma RunOne(s: Client, a: Action, t: Client)
    requires Step(s, a) == t
    ensures Run(s, [a]) == t
  {
    assert [a][1..] == [];
    assert Run(s, [a]) == Run(Step(s, a), []);
  }

  lemma RunTwo(s: Client, a: Action, m: Client, b: Action, t: Client)
    requires Step(s, a) == m && Step(m, b) == t
    ensures Run(s, [a, b]) == t
  {
    assert [a, b][1..] == [b];
    RunOne(m, b, t);
  }

  lemma {:induction false} RunOn(s: Client, a: seq<Action>, m: Client, b: seq<Action>, t: Client)
    requires Run(s, a) == m && Run(m, b) == t
    ensures Run(s, a + b) == t
    decreases |a|
  {
    if a == [] {
      assert a + b == b;
    } else {
      assert (a + b)[1..] == a[1..] + b;
      RunOn(Step(s, a[0]), a[1..], m, b, t);
    }
  }

  lemma ConnectLocks()
    ensures Run(ConnectScene(0), [Spawn(Connect(1)), Go(0)]) == ConnectScene(2)
  {
    RunTwo(ConnectScene(0), Spawn(Connect(1)), ConnectScene(1), Go(0), ConnectScene(2));
  }

  lemma ConnectBuilds()
    ensures Run(ConnectScene(2), [Go(0), Go(0)]) == ConnectScene(4)
  {
    RunTwo(ConnectScene(2), Go(0), ConnectScene(3), Go(0), ConnectScene(4));
  }

  lemma ConnectRuns()
    ensures Run(ConnectScene(4), [Go(0), ChainStep(0, true)]) == ConnectScene(6)
  {
    RunTwo(ConnectScene(4), Go(0), ConnectScene(5), ChainStep(0, true), ConnectScene(6));
  }

  lemma ChainEnds()
    ensures Run(ConnectScene(6), [ChainStep(0, true), ChainStep(0, true)]) == ConnectScene(8)
  {
    RunTwo(ConnectScene(6), ChainStep(0, true), ConnectScene(7), ChainStep(0, true), ConnectScene(8));
  }

  lemma ConnectReturns()
    ensures Run(ConnectScene(8), [Go(0)]) == ConnectScene(9)
  {
    assert {0} - {0} == {};
    RunOne(ConnectScene(8), Go(0), ConnectScene(9));
  }

  function ConnectActions(): seq<Action> {
    [Spawn(Connect(1)), Go(0)] + [Go(0), Go(0)] + [Go(0), ChainStep(0, true)]
    + [ChainStep(0, true), ChainStep(0, true)] + [Go(0)]
  }

  lemma ConnectSucceeds()
    ensures Run(ConnectScene(0), ConnectActions()) == ConnectScene(9)
  {
    var a := [Spawn(Connect(1)), Go(0)];
    var b := [Go(0), Go(0)];
    var c := [Go(0), ChainStep(0, true)];
    var d := [ChainStep(0, true), ChainStep(0, true)];
    var e := [Go(0)];
    ConnectLocks();
    ConnectBuilds();
    ConnectRuns();
    ChainEnds();
    ConnectReturns();
    RunOn(ConnectScene(0), a, ConnectScene(2), b, ConnectScene(4));
    RunOn(ConnectScene(0), a + b, ConnectScene(4), c, ConnectScene(6));
    RunOn(ConnectScene(0), a + b + c, ConnectScene(6), d, ConnectScene(8));
    RunOn(ConnectScene(0), a + b + c + d, ConnectScene(8), e, ConnectScene(9));
  }

  lemma SendLocks(callId: U32, body: Bytes)
    ensures Run(ConnectScene(9), [Spawn(Op.Send(false, callId, body, 1)), Go(1)]) == SendScene(callId, body, 11)
  {
    assert {} + {1} == {1};
    RunTwo(ConnectScene(9), Spawn(Op.Send(false, callId, body, 1)), SendScene(callId, body, 10),
           Go(1), SendScene(callId, body, 11));
  }

  lemma SendHolds(callId: U32, body: Bytes)
    ensures Run(SendScene(callId, body, 11), [Go(1), Go(1)]) == SendScene(callId, body, 13)
  {
    assert {} + {1} == {1};
    assert {} + {0} == {0};
    RunTwo(SendScene(callId, body, 11), Go(1), SendScene(callId, body, 12), Go(1), SendScene(callId, body, 13));
  }

  lemma SendPosts(callId: U32, body: Bytes)
    ensures Run(SendScene(callId, body, 13), [Action.RunSend(0), Action.Deliver(0)]) == SendScene(callId, body, 15)
  {
    assert {0} - {0} == {};
    assert HandleSend(NewPump(), Entry(callId, 0, 0, body)) == Writing(callId, body, false);
    RunTwo(SendScene(callId, body, 13), Action.RunSend(0), SendScene(callId, body, 14),
           Action.Deliver(0), SendScene(callId, body, 15));
  }

  lemma SendIsWritten(callId: U32, body: Bytes)
    ensures Run(SendScene(callId, body, 15), [Action.WriteDone(0, false), Go(1)]) == SendScene(callId, body, 17)
  {
    assert [Entry(callId, 0, 0, body)][1..] == [];
    RunTwo(SendScene(callId, body, 15), Action.WriteDone(0, false), SendScene(callId, body, 16),
           Go(1), SendScene(callId, body, 17));
  }

  lemma SendReturns(callId: U32, body: Bytes)
    ensures Run(SendScene(callId, body, 17), [Go(1), Go(1)]) == SendScene(callId, body, 19)
  {
    assert {1} - {1} == {};
    RunTwo(SendScene(callId, body, 17), Go(1), SendScene(callId, body, 18), Go(1), SendScene(callId, body, 19));
  }

  function SendActions(callId: U32, body: Bytes): seq<Action> {
    [Spawn(Op.Send(false, callId, body, 1)), Go(1)] + [Go(1), Go(1)] + [Action.RunSend(0), Action.Deliver(0)]
    + [Action.WriteDone(0, false), Go(1)] + [Go(1), Go(1)]
  }

  lemma SendSucceeds(callId: U32, body: Bytes)
    ensures Run(ConnectScene(9), SendActions(callId, body)) == SendScene(callId, body, 19)
  {
    var a := [Spawn(Op.Send(false, callId, body, 1)), Go(1)];
    var b := [Go(1), Go(1)];
    var c := [Action.RunSend(0), Action.Deliver(0)];
    var d := [Action.WriteDone(0, false), Go(1)];
    var e := [Go(1), Go(1)];
    SendLocks(callId, body);
    SendHolds(callId, body);
    SendPosts(callId, body);
    SendIsWritten(callId, body);
    SendReturns(callId, body);
    RunOn(ConnectScene(9), a, SendScene(callId, body, 11), b, SendScene(callId, body, 13));
    RunOn(ConnectScene(9), a + b, SendScene(callId, body, 13), c, SendScene(callId, body, 15));
    RunOn(ConnectScene(9), a + b + c, SendScene(callId, body, 15), d, SendScene(callId, body, 17));
    RunOn(ConnectScene(9), a + b + c + d, SendScene(callId, body, 17), e, SendScene(callId, body, 19));
  }

  lemma LeaveLocks(callId: U32, body: Bytes)
    ensures Run(SendScene(callId, body, 19), [Spawn(Disconnect), Go(2)]) == LeaveScene(callId, body, 21)
  {
    RunTwo(SendScene(callId, body, 19), Spawn(Disconnect), LeaveScene(callId, body, 20),
           Go(2), LeaveScene(callId, body, 21));
  }

  lemma LeaveCloses(callId: U32, body: Bytes)
    ensures Run(LeaveScene(callId, body, 21), [Go(2), Go(2)]) == LeaveScene(callId, body, 23)
  {
    assert {} + {2} == {2};
    assert {2} - {2} == {};
    RunTwo(LeaveScene(callId, body, 21), Go(2), LeaveScene(callId, body, 22), Go(2), LeaveScene(callId, body, 23));
  }

  lemma SessionIsClosed(callId: U32, body: Bytes)
    ensures Run(LeaveScene(callId, body, 23), [RunClose(0), CloseDone(0)]) == LeaveScene(callId, body, 25)
  {
    RunTwo(LeaveScene(callId, body, 23), RunClose(0), LeaveScene(callId, body, 24),
           CloseDone(0), LeaveScene(callId, body, 25));
  }

  lemma SessionEnds(callId: U32, body: Bytes)
    ensures Run(LeaveScene(callId, body, 25), [ReadEnd(0), Destroy(0)]) == LeaveScene(callId, body, 27)
  {
    RunTwo(LeaveScene(callId, body, 25), ReadEnd(0), LeaveScene(callId, body, 26),
           Destroy(0), LeaveScene(callId, body, 27));
  }

  lemma LeaveReturns(callId: U32, body: Bytes)
    ensures Run(LeaveScene(callId, body, 27), [SetExpired(0), Go(2)]) == LeaveScene(callId, body, 29)
  {
    RunTwo(LeaveScene(callId, body, 27), SetExpired(0), LeaveScene(callId, body, 28),
           Go(2), LeaveScene(callId, body, 29));
  }

  function LeaveActions(): seq<Action> {
    [Spawn(Disconnect), Go(2)] + [Go(2), Go(2)] + [RunClose(0), CloseDone(0)] + [ReadEnd(0), Destroy(0)]
    + [SetExpired(0), Go(2)]
  }

  lemma LeaveSucceeds(callId: U32, body: Bytes)
    ensures Run(SendScene(callId, body, 19), LeaveActions()) == LeaveScene(callId, body, 29)
  {
    var a := [Spawn(Disconnect), Go(2)];
    var b := [Go(2), Go(2)];
    var c := [RunClose(0), CloseDone(0)];
    var d := [ReadEnd(0), Destroy(0)];
    var e := [SetExpired(0), Go(2)];
    LeaveLocks(callId, body);
    LeaveCloses(callId, body);
    SessionIsClosed(callId, body);
    SessionEnds(callId, body);
    LeaveReturns(callId, body);
    RunOn(SendScene(callId, body, 19), a, LeaveScene(callId, body, 21), b, LeaveScene(callId, body, 23));
    RunOn(SendScene(callId, body, 19), a + b, LeaveScene(callId, body, 23), c, LeaveScene(callId, body, 25));
    RunOn(SendScene(callId, body, 19), a + b + c, LeaveScene(callId, body, 25), d, LeaveScene(callId, body, 27));
    RunOn(SendScene(callId, body, 19), a + b + c + d, LeaveScene(callId, body, 27), e, LeaveScene(callId, body, 29));
  }

  lemma InTurn(s: Client, a: seq<Action>, m: Client, b: seq<Action>, n: Client, c: seq<Action>, t: Client)
    requires Run(s, a) == m && Run(m, b) == n && Run(n, c) == t
    ensures Run(s, a + b + c) == t
  {
    RunOn(s, a, m, b, n);
    RunOn(s, a + b, n, c, t);
  }

  /** All calls have returned true, the message was sent, and the session is gone. */
  predicate AllSucceeded(s: Client, callId: U32, body: Bytes) {
    && s.actors == [Dialer(Returned(true)), Sender(callId, body, Returned(true)), Leaver(Returned(true))]
    && |s.sessions| == 1 && s.sessions[0].status == Gone && s.expired
    && s.sessions[0].pump.sent == 1 && s.sessions[0].pump.accepted == [Entry(callId, 0, 0, body)]
  }

  lemma LastScene(callId: U32, body: Bytes)
    ensures AllSucceeded(LeaveScene(callId, body, 29), callId, body)
  {
  }

  /** The calls can succeed: a concrete run in which `connect` establishes a session, `send` writes its message
      on it, and `disconnect` returns with the session gone; all three report success. */
  lemma ConnectSendDisconnect(callId: U32, body: Bytes)
    ensures AllSucceeded(Run(ConnectScene(0), ConnectActions() + SendActions(callId, body) + LeaveActions()), callId, body)
    ensures ConnectScene(0) == Init()
  {
    ConnectSucceeds();
    SendSucceeds(callId, body);
    LeaveSucceeds(callId, body);
    InTurn(ConnectScene(0), ConnectActions(), ConnectScene(9), SendActions(callId, body), SendScene(callId, body, 19),
           LeaveActions(), LeaveScene(callId, body, 29));
    LastScene(callId, body);
  }
}
