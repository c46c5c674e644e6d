/** One client session composed with one server session over two FIFO channels of whole messages, with
    any number of concurrent callers. Every handler, and every stretch of a caller between two waits,
    is one step; the run may take them in any order. */
module Rpc {
  import opened Wrappers
  import opened Wire
  import opened WritePump
  import opened ResponseCache
  import opened ClientCore
  import opened ServerCore

  /** Where a call of `client_session::send` or `send_recv` stands. */
  datatype Phase =
    | Prepared                // it has its id, nothing posted yet
    | AwaitWritten            // `handle_send` posted; waiting on the promise
    | AwaitResponse           // written; about to enter `wait`
    | InWait                  // registered on its row
    | Taking(received: bool)  // `wait` on the row returned; about to swap the buffers
    | Done(ok: bool)

  /** `id` is 0 for a plain send, and for a receive refused by a full table. `got` is what `wait`
      handed out, if it got as far as the swap. */
  datatype Call = Call(callId: U32, body: Bytes, recv: bool, id: U64, buffer: Bytes,
                       phase: Phase, got: Option<Bytes>)

  /** Client session, callers, channels and server session. `posted` holds the calls whose `handle_send`
      has not run; `cliRead` counts the messages the client has read. */
  datatype Sys = Sys(
    listens: set<U32>, funcs: Bindings,
    cache: Cache, cli: Pump<Entry>, cliReading: bool, cliRead: nat,
    promises: seq<Promise>, calls: seq<Call>, posted: set<nat>,
    c2s: seq<Bytes>, s2c: seq<Bytes>, srv: Server)

  function Init(listens: set<U32>, funcs: Bindings, pings: bool): Sys {
    Sys(listens, funcs, NewCache(QUEUE_RECV_MAX), NewPump(), true, 0, [], [], {}, [], [], NewServer(pings))
  }

  datatype Action =
    | Invoke(callId: U32, body: Bytes, recv: bool, buffer: Bytes, now: int, valid: int)
    | PostSend(t: nat)
    | RunSend(t: nat)
    | SeeWritten(t: nat)
    | SendTimeout(t: nat)
    | StartWait(t: nat)
    | EndWait(t: nat)
    | TakeBuffer(t: nat)
    | CliDeliver
    | CliWriteDone(failed: bool)
    | CliRead(now: int)
    | CliReadEnd
    | CliPeerClose
    | CliClose
    | SrvRead(reply: Reply)
    | SrvDeliver
    | SrvOther(a: ServerCore.Action)

  predicate InPhase(s: Sys, t: nat, p: Phase) {
    t < |s.calls| && s.calls[t].phase == p
  }

  predicate Enabled(s: Sys, a: Action) {
    match a
    case Invoke(_, _, _, _, _, _) => s.cache.idCounter + 1 < U64_LIMIT
    case PostSend(t) => InPhase(s, t, Prepared)
    case RunSend(t) => t in s.posted && t < |s.calls|
    case SeeWritten(t) => InPhase(s, t, AwaitWritten) && t < |s.promises| && s.promises[t].value.Some?
    case SendTimeout(t) => InPhase(s, t, AwaitWritten) && t < |s.promises| && s.promises[t].value.None?
    case StartWait(t) => InPhase(s, t, AwaitResponse)
    case EndWait(t) => InPhase(s, t, InWait) && s.calls[t].id in s.cache.rows
    case TakeBuffer(t) => t < |s.calls| && s.calls[t].phase.Taking?
    case CliDeliver => s.cli.writing && !s.cli.onWire && s.cli.queue != []
    case CliWriteDone(failed) => s.cli.writing && (failed || s.cli.onWire)
    case CliRead(_) => s.cliReading && s.s2c != []
    case CliReadEnd => s.cliReading
    case SrvRead(_) => s.srv.reading && s.c2s != []
    case SrvDeliver => s.srv.pump.writing && !s.srv.pump.onWire && s.srv.pump.queue != []
    case SrvOther(b) => !b.ReadMessage? && !b.Deliver?
    case _ => true
  }

  function SetPhase(s: Sys, t: nat, p: Phase): Sys
    requires t < |s.calls|
  {
    s.(calls := s.calls[t := s.calls[t].(phase := p)])
  }

  function CallEntry(s: Sys, t: nat): Entry
    requires t < |s.calls|
  {
    Entry(s.calls[t].callId, s.calls[t].id, t, s.calls[t].body)
  }

  /** `client_session::on_read` with a message: a bound id goes to its broadcast handler, any other to
      the cache; obsolete rows are removed either way. */
  function CacheAfterRead(c: Cache, listens: set<U32>, msg: Bytes, now: int): Cache {
    RemoveObsolete(AfterMessage(c, listens, msg), now)
  }

  function AfterMessage(c: Cache, listens: set<U32>, msg: Bytes): Cache {
    match Split(msg)
    case Malformed => c
    case Message(h, body) => if h.callId in listens then c else SwapNotify(c, h.resultId, body).0
  }

  function AfterCliRead(s: Sys, now: int): Sys
    requires s.s2c != []
  {
    var rest := s.(s2c := s.s2c[1..], cliRead := s.cliRead + 1);
    if s.cli.flags.closeReceived then AfterCliReadEnd(rest)
    else rest.(cache := CacheAfterRead(s.cache, s.listens, s.s2c[0], now))
  }

  function AfterCliReadEnd(s: Sys): Sys {
    s.(cache := Clear(s.cache), cli := ReadFails(s.cli, true), cliReading := false)
  }

  function AfterInvoke(s: Sys, callId: U32, body: Bytes, recv: bool, buffer: Bytes, now: int, valid: int): Sys {
    var queued := if recv then Queue(s.cache, now, valid) else (s.cache, 0);
    var phase := if recv && queued.1 == 0 then Done(false) else Prepared;
    s.(cache := queued.0, promises := s.promises + [Promise(true, None)],
       calls := s.calls + [Call(callId, body, recv, queued.1, buffer, phase, None)])
  }

  function AfterStartWait(s: Sys, t: nat): Sys
    requires t < |s.calls|
  {
    var found := Lookup(s.cache, s.calls[t].id);
    SetPhase(s.(cache := found.0), t,
             match found.1
             case Absent => Done(false)
             case Ready => Taking(true)
             case Registered => InWait)
  }

  function AfterTake(s: Sys, t: nat): Sys
    requires t < |s.calls| && s.calls[t].phase.Taking?
  {
    var c := s.calls[t];
    var taken := Take(s.cache, c.id, c.buffer);
    s.(cache := taken.0, calls := s.calls[t := c.(phase := Done(c.phase.received), got := Some(taken.1))])
  }

  /** The channel takes the message of the write in flight, the front of the queue. */
  function AfterCliDeliver(s: Sys): Sys
    requires s.cli.queue != []
  {
    s.(cli := Transmit(s.cli), c2s := s.c2s + [EntryFrame(s.cli.queue[0])])
  }

  function AfterSrvDeliver(s: Sys): Sys
    requires s.srv.pump.queue != []
  {
    s.(srv := s.srv.(pump := Transmit(s.srv.pump)), s2c := s.s2c + [PushFrame(s.srv.pump.queue[0])])
  }

  ghost function Step(s: Sys, a: Action): Sys {
    if !Enabled(s, a) then s else
    match a
    case Invoke(callId, body, recv, buffer, now, valid) => AfterInvoke(s, callId, body, recv, buffer, now, valid)
    case PostSend(t) => SetPhase(s, t, AwaitWritten).(posted := s.posted + {t})
    case RunSend(t) => s.(cli := HandleSend(s.cli, CallEntry(s, t)), posted := s.posted - {t})
    case SeeWritten(t) => SetPhase(s, t, if s.calls[t].recv then AwaitResponse else Done(true))
    case SendTimeout(t) =>
      SetPhase(s, t, Done(false)).(promises := s.promises[t := s.promises[t].(held := false)])
    case StartWait(t) => AfterStartWait(s, t)
    case EndWait(t) => SetPhase(s, t, Taking(s.cache.rows[s.calls[t].id].state == Swapped))
    case TakeBuffer(t) => AfterTake(s, t)
    case CliDeliver => AfterCliDeliver(s)
    case CliWriteDone(failed) =>
      s.(cli := OnWrite(s.cli, failed, true), promises := PromisesAfterWrite(s.cli, s.promises, failed))
    case CliRead(now) => AfterCliRead(s, now)
    case CliReadEnd => AfterCliReadEnd(s)
    case CliPeerClose => s.(cli := CloseFrame(s.cli))
    case CliClose => s.(cli := CloseNow(s.cli))
    case SrvRead(reply) =>
      s.(srv := ServerCore.Step(s.srv, s.funcs, ReadMessage(s.c2s[0], reply)), c2s := s.c2s[1..])
    case SrvDeliver => AfterSrvDeliver(s)
    case SrvOther(b) => s.(srv := ServerCore.Step(s.srv, s.funcs, b))
  }

  ghost function Run(s: Sys, acts: seq<Action>): Sys
    decreases |acts|
  {
    if acts == [] then s else Run(Step(s, acts[0]), acts[1..])
  }

  // ----- the invariant -----

  /** The server has read, and the channel holds, exactly the frames the client delivered, in order. */
  ghost predicate Requests(acc: seq<Entry>, sent: nat, requests: seq<Bytes>, reading: bool, c2s: seq<Bytes>) {
    && |requests| <= sent <= |acc|
    && (forall k :: 0 <= k < |requests| ==> requests[k] == EntryFrame(acc[k]))
    && (reading ==>
          && |requests| + |c2s| == sent
          && forall j :: |requests| <= j < sent ==> c2s[j - |requests|] == EntryFrame(acc[j]))
  }

  /** Likewise for what the server delivered and the client read. */
  ghost predicate Responses(pushes: seq<Push>, sent: nat, cliRead: nat, s2c: seq<Bytes>) {
    && cliRead + |s2c| == sent <= |pushes|
    && forall j :: cliRead <= j < sent ==> s2c[j - cliRead] == PushFrame(pushes[j])
  }

  predicate IsRequestOf(e: Entry, c: Call) {
    e.callId == c.callId && e.resultId == c.id && e.body == c.body
  }

  /** Every accepted entry is one call's request, no two of them the same call's. */
  ghost predicate Owned(acc: seq<Entry>, calls: seq<Call>, posted: set<nat>) {
    && (forall t :: t in posted ==> t < |calls| && calls[t].phase != Prepared)
    && (forall k :: 0 <= k < |acc| ==>
          && acc[k].caller < |calls| && acc[k].caller !in posted
          && IsRequestOf(acc[k], calls[acc[k].caller])
          && calls[acc[k].caller].phase != Prepared)
    && (forall j, k :: 0 <= j < k < |acc| ==> acc[j].caller != acc[k].caller)
  }

  /** A pending id belongs to one call only; a call without one never gets to a row. */
  ghost predicate Ids(calls: seq<Call>, idCounter: U64) {
    && (forall t :: 0 <= t < |calls| ==> calls[t].id <= idCounter && (calls[t].id == 0 ==> PlainCall(calls[t])))
    && (forall t, u :: 0 <= t < u < |calls| && calls[t].id != 0 ==> calls[t].id != calls[u].id)
  }

  predicate PlainCall(c: Call) {
    c.got == None && (c.phase == Done(false) || (!c.recv && (c.phase.Prepared? || c.phase.AwaitWritten? || c.phase.Done?)))
  }

  /** `payload` is what the handler left for the request the server read under `id`. */
  ghost predicate Answered(acc: seq<Entry>, served: seq<Served>, id: U64, payload: Bytes) {
    exists k :: AnsweredBy(acc, served, k, id, payload)
  }

  ghost predicate AnsweredBy(acc: seq<Entry>, served: seq<Served>, k: nat, id: U64, payload: Bytes) {
    k < |served| && k < |acc| && acc[k].resultId == id && served[k] == Called(Reply(payload, false))
  }

  /** Until its owner has taken it, a row is empty or holds the answer to its id; and what an owner took
      is empty or the answer. */
  ghost predicate Payloads(calls: seq<Call>, rows: map<U64, Row>, acc: seq<Entry>, served: seq<Served>) {
    forall t :: 0 <= t < |calls| && calls[t].id != 0 ==> Delivered(calls[t], rows, acc, served)
  }

  ghost predicate Delivered(c: Call, rows: map<U64, Row>, acc: seq<Entry>, served: seq<Served>) {
    && (c.phase.Done? || (c.id in rows && (rows[c.id].buffer == [] || Answered(acc, served, c.id, rows[c.id].buffer))))
    && (c.got.Some? && c.got.value != [] ==> Answered(acc, served, c.id, c.got.value))
  }

  ghost predicate Inv(s: Sys) {
    && WellFormed(s.cache)
    && WritePump.Inv(s.cli)
    && ServerCore.Inv(s.srv)
    && |s.promises| == |s.calls|
    && Requests(s.cli.accepted, s.cli.sent, s.srv.requests, s.srv.reading, s.c2s)
    && Responses(s.srv.pump.accepted, s.srv.pump.sent, s.cliRead, s.s2c)
    && Owned(s.cli.accepted, s.calls, s.posted)
    && Ids(s.calls, s.cache.idCounter)
    && Payloads(s.calls, s.cache.rows, s.cli.accepted, s.srv.served)
  }

  // ----- what each part needs of a step -----

  lemma AnsweredGrows(acc: seq<Entry>, served: seq<Served>, acc': seq<Entry>, served': seq<Served>, id: U64, payload: Bytes)
    requires Answered(acc, served, id, payload) && acc <= acc' && served <= served'
    ensures Answered(acc', served', id, payload)
  {
    var k :| AnsweredBy(acc, served, k, id, payload);
    assert AnsweredBy(acc', served', k, id, payload);
  }

  /** A call keeps its guarantee when the histories grow and its own row keeps its buffer. */
  lemma DeliveredGrows(c: Call, c': Call, rows: map<U64, Row>, rows': map<U64, Row>,
                       acc: seq<Entry>, acc': seq<Entry>, served: seq<Served>, served': seq<Served>)
    requires Delivered(c, rows, acc, served) && acc <= acc' && served <= served'
    requires c'.id == c.id && c'.got == c.got && (c.phase.Done? ==> c'.phase.Done?)
    requires c'.phase.Done? || (c.id in rows ==> c.id in rows' && rows'[c.id].buffer == rows[c.id].buffer)
    ensures Delivered(c', rows', acc', served')
  {
    if !c'.phase.Done? && rows[c.id].buffer != [] {
      AnsweredGrows(acc, served, acc', served', c.id, rows[c.id].buffer);
    }
    if c.got.Some? && c.got.value != [] {
      AnsweredGrows(acc, served, acc', served', c.id, c.got.value);
    }
  }

  predicate SameBuffers(rows: map<U64, Row>, rows': map<U64, Row>) {
    forall id :: id in rows ==> id in rows' && rows'[id].buffer == rows[id].buffer
  }

  /** Calls that only move their phases, rows that keep their buffers, histories that only grow. */
  lemma PayloadsGrow(calls: seq<Call>, calls': seq<Call>, rows: map<U64, Row>, rows': map<U64, Row>,
                     acc: seq<Entry>, acc': seq<Entry>, served: seq<Served>, served': seq<Served>)
    requires Payloads(calls, rows, acc, served) && acc <= acc' && served <= served' && SameBuffers(rows, rows')
    requires |calls'| == |calls|
    requires forall t :: 0 <= t < |calls| ==> calls'[t] == calls[t].(phase := calls'[t].phase)
                                              && (calls[t].phase.Done? ==> calls'[t].phase.Done?)
    ensures Payloads(calls', rows', acc', served')
  {
    forall t | 0 <= t < |calls'| && calls'[t].id != 0 ensures Delivered(calls'[t], rows', acc', served') {
      DeliveredGrows(calls[t], calls'[t], rows, rows', acc, acc', served, served');
    }
  }

  lemma OwnedAfterPhase(acc: seq<Entry>, calls: seq<Call>, posted: set<nat>, t: nat, phase: Phase)
    requires Owned(acc, calls, posted) && t < |calls| && phase != Prepared
    ensures Owned(acc, calls[t := calls[t].(phase := phase)], posted)
    ensures calls[t].phase == Prepared ==> Owned(acc, calls[t := calls[t].(phase := phase)], posted + {t})
  {
  }

  lemma IdsAfterPhase(calls: seq<Call>, idCounter: U64, t: nat, phase: Phase)
    requires Ids(calls, idCounter) && t < |calls|
    requires calls[t].id == 0 ==> PlainCall(calls[t].(phase := phase))
    ensures Ids(calls[t := calls[t].(phase := phase)], idCounter)
  {
  }

  /** One caller moves on: only its phase, and perhaps its promise and the states of rows, change. */
  lemma PhaseKeepsInv(s: Sys, s': Sys, t: nat, phase: Phase)
    requires Inv(s) && t < |s.calls| && phase != Prepared
    requires s' == s.(calls := s.calls[t := s.calls[t].(phase := phase)],
                      cache := s'.cache, promises := s'.promises, posted := s'.posted)
    requires |s'.promises| == |s.promises| && WellFormed(s'.cache) && s'.cache.idCounter == s.cache.idCounter
    requires SameBuffers(s.cache.rows, s'.cache.rows)
    requires s'.posted == s.posted || (s'.posted == s.posted + {t} && s.calls[t].phase == Prepared)
    requires s.calls[t].phase.Done? ==> phase.Done?
    requires s.calls[t].id == 0 ==> PlainCall(s.calls[t].(phase := phase))
    ensures Inv(s')
  {
    OwnedAfterPhase(s.cli.accepted, s.calls, s.posted, t, phase);
    IdsAfterPhase(s.calls, s.cache.idCounter, t, phase);
    PayloadsGrow(s.calls, s'.calls, s.cache.rows, s'.cache.rows, s.cli.accepted, s.cli.accepted,
                 s.srv.served, s.srv.served);
  }

  lemma CallerKeepsInv(s: Sys, a: Action)
    requires Inv(s) && Enabled(s, a)
    requires a.PostSend? || a.SeeWritten? || a.SendTimeout? || a.EndWait?
    ensures Inv(Step(s, a))
  {
    var s' := Step(s, a);
    PlainStays(s, a);
    PhaseKeepsInv(s, s', a.t, s'.calls[a.t].phase);
  }

  lemma LookupLeaves(c: Cache, id: U64)
    requires WellFormed(c)
    ensures var c' := Lookup(c, id).0;
            WellFormed(c') && c'.idCounter == c.idCounter && SameBuffers(c.rows, c'.rows)
  {
    StepKeepsWellFormed(c, id, [], 0);
  }

  lemma PlainNeverWaits(calls: seq<Call>, idCounter: U64, t: nat)
    requires Ids(calls, idCounter) && t < |calls| && calls[t].phase == AwaitResponse
    ensures calls[t].id != 0
  {
    assert calls[t].id != 0 || PlainCall(calls[t]);
  }

  lemma StartWaitKeepsInv(s: Sys, t: nat)
    requires Inv(s) && InPhase(s, t, AwaitResponse)
    ensures Inv(AfterStartWait(s, t))
  {
    var s' := AfterStartWait(s, t);
    LookupLeaves(s.cache, s.calls[t].id);
    PlainNeverWaits(s.calls, s.cache.idCounter, t);
    PhaseKeepsInv(s, s', t, s'.calls[t].phase);
  }

  lemma PlainStays(s: Sys, a: Action)
    requires Ids(s.calls, s.cache.idCounter) && Enabled(s, a)
    requires a.PostSend? || a.SeeWritten? || a.SendTimeout? || a.EndWait?
    ensures s.calls[a.t].id == 0 ==> PlainCall(s.calls[a.t].(phase := Step(s, a).calls[a.t].phase))
  {
    assert s.calls[a.t].id == 0 ==> PlainCall(s.calls[a.t]);
  }

  lemma InvokeKeepsInv(s: Sys, callId: U32, body: Bytes, recv: bool, buffer: Bytes, now: int, valid: int)
    requires Inv(s) && s.cache.idCounter + 1 < U64_LIMIT
    ensures Inv(AfterInvoke(s, callId, body, recv, buffer, now, valid))
  {
    var s' := AfterInvoke(s, callId, body, recv, buffer, now, valid);
    QueueKeepsWellFormed(s.cache, now, valid);
    QueueIsFresh(s.cache, now, valid);
    var c := s'.calls[|s.calls|];
    OwnedAfterInvoke(s.cli.accepted, s.calls, s.posted, c);
    IdsAfterInvoke(s.calls, s.cache.idCounter, c, s'.cache.idCounter);
    PayloadsAfterInvoke(s.calls, c, s.cache.rows, s'.cache.rows, s.cli.accepted, s.srv.served);
  }

  lemma OwnedAfterInvoke(acc: seq<Entry>, calls: seq<Call>, posted: set<nat>, c: Call)
    requires Owned(acc, calls, posted)
    ensures Owned(acc, calls + [c], posted)
  {
  }

  lemma IdsAfterInvoke(calls: seq<Call>, idCounter: U64, c: Call, idCounter': U64)
    requires Ids(calls, idCounter) && idCounter <= idCounter'
    requires c.id == 0 || (c.id == idCounter' && idCounter < idCounter')
    requires c.id == 0 ==> PlainCall(c)
    ensures Ids(calls + [c], idCounter')
  {
  }

  lemma PayloadsAfterInvoke(calls: seq<Call>, c: Call, rows: map<U64, Row>, rows': map<U64, Row>,
                            acc: seq<Entry>, served: seq<Served>)
    requires Payloads(calls, rows, acc, served)
    requires SameBuffers(rows, rows') && c.got == None
    requires c.id != 0 ==> c.id in rows' && rows'[c.id].buffer == []
    ensures Payloads(calls + [c], rows', acc, served)
  {
    var calls' := calls + [c];
    forall t | 0 <= t < |calls'| && calls'[t].id != 0 ensures Delivered(calls'[t], rows', acc, served) {
      if t < |calls| {
        DeliveredGrows(calls[t], calls[t], rows, rows', acc, acc, served, served);
      }
    }
  }

  lemma RunSendKeepsInv(s: Sys, t: nat)
    requires Inv(s) && t in s.posted && t < |s.calls|
    ensures Inv(Step(s, Action.RunSend(t)))
  {
    var e := CallEntry(s, t);
    var cli := HandleSend(s.cli, e);
    WritePump.StepKeepsInv(s.cli, Send(e));
    ClientCore.AcceptedAfterSend(s.cli, e);
    OwnedAfterSend(s.cli.accepted, cli.accepted, s.calls, s.posted, e);
    assert cli.sent == s.cli.sent;
    RequestsGrow(s.cli.accepted, cli.accepted, s.cli.sent, s.srv.requests, s.srv.reading, s.c2s);
    PayloadsGrow(s.calls, s.calls, s.cache.rows, s.cache.rows, s.cli.accepted, cli.accepted,
                 s.srv.served, s.srv.served);
  }

  lemma OwnedAfterSend(acc: seq<Entry>, acc': seq<Entry>, calls: seq<Call>, posted: set<nat>, e: Entry)
    requires Owned(acc, calls, posted) && e.caller in posted && IsRequestOf(e, calls[e.caller])
    requires acc' == acc || acc' == acc + [e]
    ensures Owned(acc', calls, posted - {e.caller})
  {
  }

  lemma RequestsGrow(acc: seq<Entry>, acc': seq<Entry>, sent: nat, requests: seq<Bytes>, reading: bool, c2s: seq<Bytes>)
    requires Requests(acc, sent, requests, reading, c2s) && acc <= acc'
    ensures Requests(acc', sent, requests, reading, c2s)
  {
  }

  lemma TakeKeepsInv(s: Sys, t: nat)
    requires Inv(s) && t < |s.calls| && s.calls[t].phase.Taking?
    ensures Inv(AfterTake(s, t))
  {
    var s' := AfterTake(s, t);
    var c := s.calls[t];
    assert c.id != 0 by { assert c.id == 0 ==> PlainCall(c); }
    StepKeepsWellFormed(s.cache, c.id, c.buffer, 0);
    OwnedAfterTake(s.cli.accepted, s.calls, s.posted, t, s'.calls[t]);
    IdsAfterTake(s.calls, s.cache.idCounter, t, s'.calls[t]);
    PayloadsAfterTake(s, t);
  }

  lemma OwnedAfterTake(acc: seq<Entry>, calls: seq<Call>, posted: set<nat>, t: nat, c': Call)
    requires Owned(acc, calls, posted) && t < |calls|
    requires c' == calls[t].(phase := c'.phase, got := c'.got) && c'.phase != Prepared
    ensures Owned(acc, calls[t := c'], posted)
  {
  }

  lemma IdsAfterTake(calls: seq<Call>, idCounter: U64, t: nat, c': Call)
    requires Ids(calls, idCounter) && t < |calls| && calls[t].id == c'.id != 0
    ensures Ids(calls[t := c'], idCounter)
  {
  }

  lemma PayloadsAfterTake(s: Sys, t: nat)
    requires Payloads(s.calls, s.cache.rows, s.cli.accepted, s.srv.served)
    requires Ids(s.calls, s.cache.idCounter)
    requires t < |s.calls| && s.calls[t].phase.Taking? && s.calls[t].id != 0
    ensures Payloads(AfterTake(s, t).calls, AfterTake(s, t).cache.rows, s.cli.accepted, s.srv.served)
  {
    var s' := AfterTake(s, t);
    var acc, served := s.cli.accepted, s.srv.served;
    assert Delivered(s.calls[t], s.cache.rows, acc, served);
    forall u | 0 <= u < |s.calls| && s'.calls[u].id != 0
      ensures Delivered(s'.calls[u], s'.cache.rows, acc, served)
    {
      if u != t {
        assert s.calls[u].id != s.calls[t].id;
        DeliveredGrows(s.calls[u], s.calls[u], s.cache.rows, s'.cache.rows, acc, acc, served, served);
      }
    }
  }

  lemma ClientDeliverKeepsInv(s: Sys)
    requires Inv(s) && Enabled(s, CliDeliver)
    ensures Inv(AfterCliDeliver(s))
  {
    QuietStep(s.cli, WritePump.Action.Deliver);
    RequestsAfterDeliver(s.cli.accepted, s.cli.sent, s.srv.requests, s.srv.reading, s.c2s);
  }

  lemma RequestsAfterDeliver(acc: seq<Entry>, sent: nat, requests: seq<Bytes>, reading: bool, c2s: seq<Bytes>)
    requires Requests(acc, sent, requests, reading, c2s) && sent < |acc|
    ensures Requests(acc, sent + 1, requests, reading, c2s + [EntryFrame(acc[sent])])
  {
  }

  lemma ClientFlagsKeepInv(s: Sys, a: Action)
    requires Inv(s) && Enabled(s, a) && (a.CliWriteDone? || a.CliPeerClose? || a.CliClose?)
    ensures Inv(Step(s, a))
  {
    QuietStep(s.cli, match a
                          case CliWriteDone(failed) => WritePump.Action.WriteDone(failed, true)
                          case CliPeerClose => WritePump.Action.PeerClose
                          case _ => WritePump.Action.Close);
  }

  lemma ReadEndKeepsInv(s: Sys)
    requires Inv(s)
    ensures Inv(AfterCliReadEnd(s))
  {
    var s' := AfterCliReadEnd(s);
    QuietStep(s.cli, WritePump.Action.ReadError(true));
    StepKeepsWellFormed(s.cache, 0, [], 0);
    PayloadsGrow(s.calls, s.calls, s.cache.rows, s'.cache.rows, s.cli.accepted, s.cli.accepted,
                 s.srv.served, s.srv.served);
  }

  /** The message the client reads next, when it carries an id, is the answer to the request that the
      server read under this id. */
  lemma ReadIsAnswer(s: Sys)
    requires Inv(s) && s.s2c != []
    ensures Split(s.s2c[0]).Message?
    ensures Split(s.s2c[0]).header.resultId != 0 ==>
              Answered(s.cli.accepted, s.srv.served, Split(s.s2c[0]).header.resultId, Split(s.s2c[0]).body)
  {
    var push := s.srv.pump.accepted[s.cliRead];
    assert s.s2c[s.cliRead - s.cliRead] == PushFrame(push);
    SplitFrame(push.header, push.body);
    assert Answers(s.srv, push);
    if push.header.resultId != 0 {
      var k := push.origin.value;
      var e := s.cli.accepted[k];
      assert s.srv.requests[k] == EntryFrame(e);
      SplitFrame(EntryHeader(e), e.body);
      assert AnsweredBy(s.cli.accepted, s.srv.served, k, push.header.resultId, push.body);
    }
  }

  /** What one read does to the rows: at most the row under the message's id changes, to the body. */
  lemma RowsAfterRead(c: Cache, listens: set<U32>, msg: Bytes, now: int)
    requires WellFormed(c)
    ensures var c' := CacheAfterRead(c, listens, msg, now);
            && WellFormed(c') && c'.idCounter == c.idCounter
            && forall id :: id in c.rows ==>
                 && id in c'.rows
                 && (c'.rows[id].buffer == c.rows[id].buffer
                     || (Split(msg).Message? && Split(msg).header.resultId == id
                         && c'.rows[id].buffer == Split(msg).body))
  {
    if Split(msg).Message? {
      var h, body := Split(msg).header, Split(msg).body;
      StepKeepsWellFormed(c, h.resultId, body, now);
      StepKeepsWellFormed(SwapNotify(c, h.resultId, body).0, 0, [], now);
    }
    StepKeepsWellFormed(c, 0, [], now);
  }

  lemma ReadKeepsInv(s: Sys, now: int)
    requires Inv(s) && s.s2c != [] && !s.cli.flags.closeReceived
    ensures Inv(AfterCliRead(s, now))
  {
    var s' := AfterCliRead(s, now);
    ReadIsAnswer(s);
    RowsAfterRead(s.cache, s.listens, s.s2c[0], now);
    ResponsesAfterRead(s.srv.pump.accepted, s.srv.pump.sent, s.cliRead, s.s2c);
    PayloadsAfterRead(s.calls, s.cache.rows, s'.cache.rows, s.cli.accepted, s.srv.served,
                      Split(s.s2c[0]).header.resultId, Split(s.s2c[0]).body);
  }

  lemma ResponsesAfterRead(pushes: seq<Push>, sent: nat, cliRead: nat, s2c: seq<Bytes>)
    requires Responses(pushes, sent, cliRead, s2c) && s2c != []
    ensures Responses(pushes, sent, cliRead + 1, s2c[1..])
  {
  }

  lemma PayloadsAfterRead(calls: seq<Call>, rows: map<U64, Row>, rows': map<U64, Row>,
                          acc: seq<Entry>, served: seq<Served>, id: U64, body: Bytes)
    requires Payloads(calls, rows, acc, served)
    requires id != 0 ==> Answered(acc, served, id, body)
    requires forall i :: i in rows ==>
               i in rows' && (rows'[i].buffer == rows[i].buffer || (i == id && rows'[i].buffer == body))
    ensures Payloads(calls, rows', acc, served)
  {
    forall t | 0 <= t < |calls| && calls[t].id != 0 ensures Delivered(calls[t], rows', acc, served) {
      assert Delivered(calls[t], rows, acc, served);
    }
  }

  /** The server's own steps append to its histories and leave what is on the wire as it was. */
  lemma ServerStepFacts(srv: Server, funcs: Bindings, a: ServerCore.Action)
    requires ServerCore.Inv(srv) && !a.Deliver?
    ensures var srv' := ServerCore.Step(srv, funcs, a);
            && ServerCore.Inv(srv')
            && srv.pump.accepted <= srv'.pump.accepted && srv'.pump.sent == srv.pump.sent
            && ReadFacts(srv, srv', a)
  {
    ServerCore.StepKeepsInv(srv, funcs, a);
    ServerReads(srv, funcs, a);
    ServerSends(srv, funcs, a);
  }

  lemma ServerSends(srv: Server, funcs: Bindings, a: ServerCore.Action)
    requires !a.Deliver?
    ensures var srv' := ServerCore.Step(srv, funcs, a);
            srv.pump.accepted <= srv'.pump.accepted && srv'.pump.sent == srv.pump.sent
  {
    if a.ReadMessage? && ServerCore.Enabled(srv, a) && !srv.pump.flags.closeReceived {
      ReadSends(srv, funcs, a.msg, a.reply);
    }
  }

  lemma ReadSends(srv: Server, funcs: Bindings, msg: Bytes, reply: Reply)
    ensures var srv' := OnRead(srv, funcs, msg, reply);
            srv.pump.accepted <= srv'.pump.accepted && srv'.pump.sent == srv.pump.sent
  {
  }

  predicate ReadFacts(srv: Server, srv': Server, a: ServerCore.Action) {
    && srv.served <= srv'.served
    && (srv'.reading ==> srv.reading)
    && (srv'.requests == srv.requests || (a.ReadMessage? && srv'.requests == srv.requests + [a.msg]))
    && (a.ReadMessage? && srv'.reading ==> srv'.requests == srv.requests + [a.msg])
    && (!a.ReadMessage? ==> srv'.requests == srv.requests)
  }

  lemma ServerReads(srv: Server, funcs: Bindings, a: ServerCore.Action)
    ensures ReadFacts(srv, ServerCore.Step(srv, funcs, a), a)
  {
  }

  lemma ServerKeepsInv(s: Sys, a: Action)
    requires Inv(s) && Enabled(s, a) && (a.SrvRead? || a.SrvOther?)
    ensures Inv(Step(s, a))
  {
    var s' := Step(s, a);
    ServerStepFacts(s.srv, s.funcs, if a.SrvRead? then ReadMessage(s.c2s[0], a.reply) else a.a);
    RequestsAfterServer(s.cli.accepted, s.cli.sent, s.srv.requests, s'.srv.requests, s.srv.reading, s'.srv.reading,
                        s.c2s, s'.c2s);
    ResponsesGrow(s.srv.pump.accepted, s'.srv.pump.accepted, s.srv.pump.sent, s.cliRead, s.s2c);
    PayloadsGrow(s.calls, s.calls, s.cache.rows, s.cache.rows, s.cli.accepted, s.cli.accepted,
                 s.srv.served, s'.srv.served);
  }

  lemma RequestsAfterServer(acc: seq<Entry>, sent: nat, requests: seq<Bytes>, requests': seq<Bytes>,
                            reading: bool, reading': bool, c2s: seq<Bytes>, c2s': seq<Bytes>)
    requires Requests(acc, sent, requests, reading, c2s) && (reading' ==> reading)
    requires (requests' == requests && (reading' ==> c2s' == c2s))
             || (reading && c2s != [] && requests' == requests + [c2s[0]] && c2s' == c2s[1..])
    ensures Requests(acc, sent, requests', reading', c2s')
  {
    if reading && c2s != [] && requests' == requests + [c2s[0]] {
      assert c2s[|requests| - |requests|] == EntryFrame(acc[|requests|]);
    }
  }

  lemma ResponsesGrow(pushes: seq<Push>, pushes': seq<Push>, sent: nat, cliRead: nat, s2c: seq<Bytes>)
    requires Responses(pushes, sent, cliRead, s2c) && pushes <= pushes'
    ensures Responses(pushes', sent, cliRead, s2c)
  {
  }

  lemma ServerDeliverFacts(srv: Server, funcs: Bindings)
    requires ServerCore.Inv(srv) && srv.pump.writing && !srv.pump.onWire
    ensures ServerCore.Inv(srv.(pump := Transmit(srv.pump)))
    ensures srv.pump.queue != [] && srv.pump.sent < |srv.pump.accepted|
    ensures srv.pump.queue[0] == srv.pump.accepted[srv.pump.sent]
  {
    ServerCore.StepKeepsInv(srv, funcs, ServerCore.Action.Deliver);
    FrontIsNext(srv.pump);
  }

  lemma ServerDeliverKeepsInv(s: Sys)
    requires Inv(s) && Enabled(s, SrvDeliver)
    ensures Inv(AfterSrvDeliver(s))
  {
    ServerDeliverFacts(s.srv, s.funcs);
    ResponsesAfterDeliver(s.srv.pump.accepted, s.srv.pump.sent, s.cliRead, s.s2c);
    var s' := AfterSrvDeliver(s);
    assert s'.srv.pump.accepted == s.srv.pump.accepted && s'.srv.pump.sent == s.srv.pump.sent + 1;
    assert s'.s2c == s.s2c + [PushFrame(s.srv.pump.accepted[s.srv.pump.sent])];
  }

  lemma ResponsesAfterDeliver(pushes: seq<Push>, sent: nat, cliRead: nat, s2c: seq<Bytes>)
    requires Responses(pushes, sent, cliRead, s2c) && sent < |pushes|
    ensures Responses(pushes, sent + 1, cliRead, s2c + [PushFrame(pushes[sent])])
  {
  }

  /** A message read after a close frame is dropped. */
  lemma DropKeepsInv(s: Sys)
    requires Inv(s) && s.s2c != []
    ensures Inv(s.(s2c := s.s2c[1..], cliRead := s.cliRead + 1))
  {
    ResponsesAfterRead(s.srv.pump.accepted, s.srv.pump.sent, s.cliRead, s.s2c);
  }

  lemma CliReadKeepsInv(s: Sys, now: int)
    requires Inv(s) && s.s2c != []
    ensures Inv(AfterCliRead(s, now))
  {
    if s.cli.flags.closeReceived {
      DropKeepsInv(s);
      ReadEndKeepsInv(s.(s2c := s.s2c[1..], cliRead := s.cliRead + 1));
    } else {
      ReadKeepsInv(s, now);
    }
  }

  lemma StepKeepsInv(s: Sys, a: Action)
    requires Inv(s)
    ensures Inv(Step(s, a))
  {
    if Enabled(s, a) {
      match a
      case Invoke(callId, body, recv, buffer, now, valid) =>
        InvokeKeepsInv(s, callId, body, recv, buffer, now, valid);
      case RunSend(t) => RunSendKeepsInv(s, t);
      case TakeBuffer(t) => TakeKeepsInv(s, t);
      case CliDeliver => ClientDeliverKeepsInv(s);
      case CliWriteDone(_) => ClientFlagsKeepInv(s, a);
      case CliPeerClose => ClientFlagsKeepInv(s, a);
      case CliClose => ClientFlagsKeepInv(s, a);
      case CliRead(now) => CliReadKeepsInv(s, now);
      case CliReadEnd => ReadEndKeepsInv(s);
      case SrvRead(_) => ServerKeepsInv(s, a);
      case SrvOther(_) => ServerKeepsInv(s, a);
      case SrvDeliver => ServerDeliverKeepsInv(s);
      case StartWait(t) => StartWaitKeepsInv(s, t);
      case _ => CallerKeepsInv(s, a);
    }
  }

  lemma {:induction false} RunKeepsInv(s: Sys, acts: seq<Action>)
    requires Inv(s)
    ensures Inv(Run(s, acts))
    decreases |acts|
  {
    if acts != [] {
      StepKeepsInv(s, acts[0]);
      RunKeepsInv(Step(s, acts[0]), acts[1..]);
    }
  }

  lemma NewPumpsOk()
    ensures WritePump.Inv(NewPump<Entry>()) && WritePump.Inv(NewPump<Push>())
  {
    NewPumpKeepsInv<Entry>();
    NewPumpKeepsInv<Push>();
  }

  lemma InitKeepsInv(listens: set<U32>, funcs: Bindings, pings: bool)
    ensures Inv(Init(listens, funcs, pings))
  {
    NewPumpsOk();
    NewServerKeepsInv(pings);
  }

  // ----- main results -----

  /** `k` is the one request of call `t` that the server read, and its handler left `payload`. */
  ghost predicate AnswerOf(s: Sys, t: nat, k: nat, payload: Bytes)
    requires t < |s.calls|
  {
    && k < |s.srv.requests| && k < |s.srv.served|
    && s.srv.requests[k] == Frame(NewHeader(s.calls[t].callId, s.calls[t].id), s.calls[t].body)
    && s.srv.served[k] == Called(Reply(payload, false))
  }

  /** Entries with the same id, not 0, are the same call's, hence the same entry. */
  lemma SameIdSameEntry(s: Sys, j: nat, k: nat)
    requires Inv(s) && j < |s.cli.accepted| && k < |s.cli.accepted|
    requires s.cli.accepted[j].resultId == s.cli.accepted[k].resultId != 0
    ensures j == k
  {
    var a, b := s.cli.accepted[j].caller, s.cli.accepted[k].caller;
    assert s.calls[a].id == s.calls[b].id != 0;
    assert a == b;
  }

  lemma AnswerExists(s: Sys, t: nat) returns (k: nat)
    requires Inv(s) && t < |s.calls| && s.calls[t].got.Some? && s.calls[t].got.value != []
    ensures AnswerOf(s, t, k, s.calls[t].got.value)
  {
    var c := s.calls[t];
    assert c.id != 0 by { assert c.id == 0 ==> PlainCall(c); }
    assert Delivered(c, s.cache.rows, s.cli.accepted, s.srv.served);
    k :| AnsweredBy(s.cli.accepted, s.srv.served, k, c.id, c.got.value);
    var e := s.cli.accepted[k];
    assert s.calls[e.caller].id == c.id;
    assert e.caller == t;
    assert s.srv.requests[k] == EntryFrame(e);
  }

  lemma AnswerUnique(s: Sys, t: nat, j: nat, k: nat, payload: Bytes)
    requires Inv(s) && t < |s.calls| && s.calls[t].id != 0
    requires AnswerOf(s, t, j, payload) && k < |s.srv.requests| && s.srv.requests[k] == s.srv.requests[j]
    ensures j == k
  {
    var a, b := s.cli.accepted[j], s.cli.accepted[k];
    assert s.srv.requests[j] == EntryFrame(a) && s.srv.requests[k] == EntryFrame(b);
    SplitFrame(EntryHeader(a), a.body);
    SplitFrame(EntryHeader(b), b.body);
    SplitFrame(NewHeader(s.calls[t].callId, s.calls[t].id), s.calls[t].body);
    SameIdSameEntry(s, j, k);
  }

  /** If `wait` handed call `t` a non-empty payload, it is what the handler left for the one request the
      server read that is, byte for byte, this call's request under its own id. */
  ghost predicate Correlated(s: Sys, t: nat)
    requires t < |s.calls|
  {
    s.calls[t].got.Some? && s.calls[t].got.value != [] ==>
      exists k: nat :: AnswerOf(s, t, k, s.calls[t].got.value) && OnlyRequest(s.srv.requests, k)
  }

  ghost predicate OnlyRequest(requests: seq<Bytes>, k: nat)
    requires k < |requests|
  {
    forall j :: 0 <= j < |requests| && requests[j] == requests[k] ==> j == k
  }

  lemma InvGivesCorrelation(s: Sys, t: nat)
    requires Inv(s) && t < |s.calls|
    ensures Correlated(s, t)
  {
    if s.calls[t].got.Some? && s.calls[t].got.value != [] {
      var k := AnswerExists(s, t);
      HasId(s, t);
      forall j | 0 <= j < |s.srv.requests| && s.srv.requests[j] == s.srv.requests[k] ensures j == k {
        AnswerUnique(s, t, k, j, s.calls[t].got.value);
      }
      assert OnlyRequest(s.srv.requests, k);
    }
  }

  lemma HasId(s: Sys, t: nat)
    requires Inv(s) && t < |s.calls| && s.calls[t].got.Some? && s.calls[t].got.value != []
    ensures s.calls[t].id != 0
  {
    assert s.calls[t].id == 0 ==> PlainCall(s.calls[t]);
  }

  /** End-to-end correlation, in every run, with any number of callers, broadcasts, handlers, timeouts,
      closes and errors: every payload goes to the call that asked for it. */
  lemma EndToEndCorrelation(listens: set<U32>, funcs: Bindings, pings: bool, acts: seq<Action>, t: nat)
    requires t < |Run(Init(listens, funcs, pings), acts).calls|
    ensures Correlated(Run(Init(listens, funcs, pings), acts), t)
  {
    InitKeepsInv(listens, funcs, pings);
    RunKeepsInv(Init(listens, funcs, pings), acts);
    InvGivesCorrelation(Run(Init(listens, funcs, pings), acts), t);
  }

  // ----- several attempts -----

  /** One attempt of `client::send_recv`: a session with everything that happened on it, and which of its
      calls the attempt was. */
  datatype Attempt = Attempt(listens: set<U32>, funcs: Bindings, pings: bool, acts: seq<Action>, call: nat)

  ghost function Session(a: Attempt): Sys {
    Run(Init(a.listens, a.funcs, a.pings), a.acts)
  }

  /** The attempt exchanged the caller's buffer for what `wait` handed out, or left it alone. */
  ghost function Left(a: Attempt, buffer: Bytes): Bytes
    requires a.call < |Session(a).calls|
  {
    var c := Session(a).calls[a.call];
    if c.got.Some? then c.got.value else buffer
  }

  ghost predicate AllCalled(attempts: seq<Attempt>) {
    forall i :: 0 <= i < |attempts| ==> attempts[i].call < |Session(attempts[i]).calls|
  }

  /** The caller's buffer, which is kept from one attempt to the next, after all of them. */
  ghost function Result(attempts: seq<Attempt>): Bytes
    requires AllCalled(attempts)
    decreases |attempts|
  {
    if attempts == [] then []
    else Left(attempts[|attempts| - 1], Result(attempts[..|attempts| - 1]))
  }

  /** The attempt sends this request, and brings along the buffer that the attempts before it left. */
  ghost predicate Tries(a: Attempt, before: seq<Attempt>, callId: U32, body: Bytes) {
    && AllCalled(before) && a.call < |Session(a).calls|
    && var c := Session(a).calls[a.call];
       c.recv && c.callId == callId && c.body == body && c.buffer == Result(before)
  }

  ghost predicate OneRequest(attempts: seq<Attempt>, callId: U32, body: Bytes)
    decreases |attempts|
  {
    attempts != [] ==>
      var last, before := attempts[|attempts| - 1], attempts[..|attempts| - 1];
      Tries(last, before, callId, body) && OneRequest(before, callId, body)
  }

  lemma {:induction false} OneRequestIsCalled(attempts: seq<Attempt>, callId: U32, body: Bytes)
    requires OneRequest(attempts, callId, body)
    ensures AllCalled(attempts)
    decreases |attempts|
  {
    if attempts != [] {
      var before := attempts[..|attempts| - 1];
      OneRequestIsCalled(before, callId, body);
      assert forall i :: 0 <= i < |before| ==> attempts[i] == before[i];
    }
  }

  /** `payload` answers the request this attempt sent: it is what the handler left for the one request, byte
      for byte this attempt's, that the server of its session read. */
  ghost predicate AnswersAttempt(a: Attempt, callId: U32, body: Bytes, payload: Bytes) {
    && a.call < |Session(a).calls|
    && Session(a).calls[a.call].callId == callId && Session(a).calls[a.call].body == body
    && exists k: nat :: AnswerOf(Session(a), a.call, k, payload) && OnlyRequest(Session(a).srv.requests, k)
  }

  /** One attempt leaves the buffer alone, or empty, or holding its answer. */
  lemma OneAttempt(a: Attempt, buffer: Bytes, callId: U32, body: Bytes)
    requires a.call < |Session(a).calls|
    requires Session(a).calls[a.call].callId == callId && Session(a).calls[a.call].body == body
    ensures Left(a, buffer) == buffer || Left(a, buffer) == [] || AnswersAttempt(a, callId, body, Left(a, buffer))
  {
    EndToEndCorrelation(a.listens, a.funcs, a.pings, a.acts, a.call);
    assert Correlated(Session(a), a.call);
  }

  ghost predicate AnswersOneOf(attempts: seq<Attempt>, callId: U32, body: Bytes, payload: Bytes) {
    exists i :: 0 <= i < |attempts| && AnswersAttempt(attempts[i], callId, body, payload)
  }

  lemma AnswersOneMore(before: seq<Attempt>, attempts: seq<Attempt>, callId: U32, body: Bytes, payload: Bytes)
    requires before <= attempts && AnswersOneOf(before, callId, body, payload)
    ensures AnswersOneOf(attempts, callId, body, payload)
  {
    var i :| 0 <= i < |before| && AnswersAttempt(before[i], callId, body, payload);
    assert attempts[i] == before[i];
  }

  /** What `send_recv` returns after any number of attempts, each on a session of its own, is empty or the
      answer to the request of one of these attempts. */
  lemma {:induction false} ResultAnswersAnAttempt(attempts: seq<Attempt>, callId: U32, body: Bytes)
    requires OneRequest(attempts, callId, body)
    ensures AllCalled(attempts)
    ensures Result(attempts) == [] || AnswersOneOf(attempts, callId, body, Result(attempts))
    decreases |attempts|
  {
    OneRequestIsCalled(attempts, callId, body);
    if attempts != [] {
      var n := |attempts| - 1;
      var last, before := attempts[n], attempts[..n];
      ResultAnswersAnAttempt(before, callId, body);
      OneAttempt(last, Result(before), callId, body);
      if Result(attempts) != [] && Result(attempts) == Result(before) {
        AnswersOneMore(before, attempts, callId, body, Result(before));
      }
    }
  }

  /** Request `k` is the one the client accepted as number `k`, and no other of its caller's. */
  ghost predicate ServedAsAccepted(s: Sys, k: nat)
    requires k < |s.srv.requests|
  {
    && k < |s.cli.accepted|
    && s.srv.requests[k] == EntryFrame(s.cli.accepted[k])
    && forall j :: 0 <= j < |s.srv.requests| && j < |s.cli.accepted| && j != k ==>
         s.cli.accepted[j].caller != s.cli.accepted[k].caller
  }

  lemma InvGivesOrder(s: Sys, k: nat)
    requires Inv(s) && k < |s.srv.requests|
    ensures ServedAsAccepted(s, k)
  {
  }

  /** What the server reads is, in every run, a prefix of what the client accepted, in order, and no call's
      request is read twice. */
  lemma ServedInOrderAtMostOnce(listens: set<U32>, funcs: Bindings, pings: bool, acts: seq<Action>, k: nat)
    requires k < |Run(Init(listens, funcs, pings), acts).srv.requests|
    ensures ServedAsAccepted(Run(Init(listens, funcs, pings), acts), k)
  {
    InitKeepsInv(listens, funcs, pings);
    RunKeepsInv(Init(listens, funcs, pings), acts);
    InvGivesOrder(Run(Init(listens, funcs, pings), acts), k);
  }

  /** The next message carries no id: it is a broadcast, or it answers a plain `send`. */
  predicate NextWithoutId(s: Sys) {
    && s.s2c != [] && s.cliRead < |s.srv.pump.accepted|
    && var origin := s.srv.pump.accepted[s.cliRead].origin;
       origin == None || (origin.value < |s.cli.accepted| && s.cli.accepted[origin.value].resultId == 0)
  }

  lemma NextHasIdZero(s: Sys)
    requires Inv(s) && NextWithoutId(s)
    ensures Split(s.s2c[0]).Message? && Split(s.s2c[0]).header.resultId == 0
  {
    var push := s.srv.pump.accepted[s.cliRead];
    assert s.s2c[s.cliRead - s.cliRead] == PushFrame(push);
    SplitFrame(push.header, push.body);
    assert Answers(s.srv, push);
    if push.origin.Some? {
      var e := s.cli.accepted[push.origin.value];
      assert s.srv.requests[push.origin.value] == EntryFrame(e);
      SplitFrame(EntryHeader(e), e.body);
    }
  }

  lemma IdZeroTouchesNothing(c: Cache, listens: set<U32>, msg: Bytes)
    requires WellFormed(c) && Split(msg).Message? && Split(msg).header.resultId == 0
    ensures AfterMessage(c, listens, msg) == c
  {
    assert 0 !in c.table;
  }

  /** Broadcasts and replies to a plain `send` never touch a cache entry: in every run, reading one does to
      the cache what removing obsolete rows does, whatever the client listens for. */
  lemma WithoutIdTouchesNothing(listens: set<U32>, funcs: Bindings, pings: bool, acts: seq<Action>, now: int)
    requires NextWithoutId(Run(Init(listens, funcs, pings), acts))
    ensures var s := Run(Init(listens, funcs, pings), acts);
            CacheAfterRead(s.cache, s.listens, s.s2c[0], now) == RemoveObsolete(s.cache, now)
  {
    InitKeepsInv(listens, funcs, pings);
    RunKeepsInv(Init(listens, funcs, pings), acts);
    var s := Run(Init(listens, funcs, pings), acts);
    NextHasIdZero(s);
    CacheIsWellFormed(s);
    IdZeroTouchesNothing(s.cache, s.listens, s.s2c[0]);
  }

  lemma CacheIsWellFormed(s: Sys)
    requires Inv(s)
    ensures WellFormed(s.cache)
  {
  }

  /** A message shorter than a header changes no row. */
  lemma ShortMessageTouchesNothing(c: Cache, listens: set<U32>, msg: Bytes, now: int)
    requires |msg| < HEADER_SIZE
    ensures CacheAfterRead(c, listens, msg, now) == RemoveObsolete(c, now)
  {
  }

  // ----- what a call reports -----

  /** The message is for the caller under `id`, and no broadcast handler claims it. */
  predicate IsReply(msg: Bytes, listens: set<U32>, id: U64) {
    Split(msg).Message? && Split(msg).header.callId !in listens && Split(msg).header.resultId == id
  }

  /** While row `id` is in the table, its reply is read, or reading ends. */
  predicate RowFound(s: Sys, a: Action, id: U64) {
    && id in s.cache.table && s.cliReading
    && match a
       case CliRead(_) => s.s2c != [] && (s.cli.flags.closeReceived || IsReply(s.s2c[0], s.listens, id))
       case CliReadEnd => true
       case _ => false
  }

  predicate BytesFound(s: Sys, a: Action, id: U64) {
    RowFound(s, a, id) && a.CliRead? && !s.cli.flags.closeReceived
  }

  /** What has become of one call, told from what was read and from its own waits: whether its row was
      found, the bytes found last, what it reports, and what it was handed. */
  datatype Fate = Fate(found: bool, bytes: Bytes, verdict: Option<bool>, got: Option<Bytes>)

  /** The wait that `a` ends for call `t`, and how: sending times out while the promise is unset; a plain
      send ends as its promise is ready; the row is gone at the lookup, or was found already; or the wait
      for the response ends, with true exactly if the row has been found by then. */
  predicate Ends(s: Sys, a: Action, t: nat, found: bool, ok: bool)
    requires t < |s.calls| && |s.promises| == |s.calls|
  {
    var c := s.calls[t];
    match a
    case SendTimeout(u) => u == t && c.phase == AwaitWritten && s.promises[t].value == None && !ok
    case SeeWritten(u) => u == t && c.phase == AwaitWritten && s.promises[t].value.Some? && !c.recv && ok
    case StartWait(u) => u == t && c.phase == AwaitResponse && ok == (c.id in s.cache.table) && (ok ==> found)
    case EndWait(u) => u == t && c.phase == InWait && ok == found
    case _ => false
  }

  function AfterStep(s: Sys, a: Action, t: nat, f: Fate): Fate
    requires t < |s.calls| && |s.promises| == |s.calls|
  {
    var c := s.calls[t];
    Fate(f.found || RowFound(s, a, c.id),
         if BytesFound(s, a, c.id) then Split(s.s2c[0]).body else f.bytes,
         if f.verdict.Some? then f.verdict
         else if Ends(s, a, t, f.found, true) then Some(true)
         else if Ends(s, a, t, f.found, false) then Some(false)
         else None,
         if a == TakeBuffer(t) && c.phase.Taking? then Some(f.bytes) else f.got)
  }

  ghost function FateOf(s: Sys, acts: seq<Action>, t: nat, f: Fate): Fate
    decreases |acts|
  {
    if acts == [] || t >= |s.calls| || |s.promises| != |s.calls| then f
    else FateOf(Step(s, acts[0]), acts[1..], t, AfterStep(s, acts[0], t, f))
  }

  function Reported(phase: Phase): Option<bool> {
    match phase
    case Taking(ok) => Some(ok)
    case Done(ok) => Some(ok)
    case _ => None
  }

  /** The call stands where its fate says; until it is done its row says the same. */
  predicate Tells(c: Call, rows: map<U64, Row>, f: Fate) {
    && Reported(c.phase) == f.verdict && c.got == f.got
    && (c.id != 0 && !c.phase.Done? ==>
          c.id in rows && (rows[c.id].state == Swapped <==> f.found) && rows[c.id].buffer == f.bytes)
  }

  lemma CallStays(s: Sys, a: Action, t: nat)
    requires t < |s.calls|
    ensures t < |Step(s, a).calls|
    ensures var c, c' := s.calls[t], Step(s, a).calls[t];
            c'.callId == c.callId && c'.body == c.body && c'.recv == c.recv && c'.id == c.id && c'.buffer == c.buffer
  {
  }

  lemma ReadFinds(c: Cache, listens: set<U32>, msg: Bytes, now: int, id: U64)
    requires WellFormed(c) && id in c.rows
    ensures var c', found := CacheAfterRead(c, listens, msg, now), id in c.table && IsReply(msg, listens, id);
            && id in c'.rows
            && (c'.rows[id].state == Swapped <==> c.rows[id].state == Swapped || found)
            && c'.rows[id].buffer == (if found then Split(msg).body else c.rows[id].buffer)
  {
  }

  lemma ClearFinds(c: Cache, id: U64)
    requires WellFormed(c) && id in c.rows
    ensures var c' := Clear(c);
            && id in c'.rows && c'.rows[id].buffer == c.rows[id].buffer
            && (c'.rows[id].state == Swapped <==> c.rows[id].state == Swapped || id in c.table)
  {
  }

  lemma OthersFindNothing(c: Cache, u: U64, bytes: Bytes, now: int, valid: int, id: U64)
    requires WellFormed(c) && id in c.rows && c.idCounter + 1 < U64_LIMIT
    ensures var c' := Queue(c, now, valid).0;
            id in c'.rows && c'.rows[id] == c.rows[id]
    ensures var c' := Lookup(c, u).0;
            && id in c'.rows && c'.rows[id].buffer == c.rows[id].buffer
            && (c'.rows[id].state == Swapped <==> c.rows[id].state == Swapped)
    ensures var c' := Take(c, u, bytes).0;
            id in c'.rows && (u != id ==> c'.rows[id] == c.rows[id])
  {
  }

  /** Row `id` after a step says whether it has been found and holds the bytes found last, unless its
      caller takes them. */
  ghost predicate RowMoves(s: Sys, a: Action, id: U64)
    requires id in s.cache.rows
  {
    var rows, row := Step(s, a).cache.rows, s.cache.rows[id];
    && id in rows
    && (rows[id].state == Swapped <==> row.state == Swapped || RowFound(s, a, id))
    && rows[id].buffer == if BytesFound(s, a, id) then Split(s.s2c[0]).body else row.buffer
  }

  lemma ReadMovesRow(s: Sys, a: Action, id: U64)
    requires WellFormed(s.cache) && id in s.cache.rows && (a.CliRead? || a.CliReadEnd?)
    ensures RowMoves(s, a, id)
  {
    ClearFinds(s.cache, id);
    if a.CliRead? && s.s2c != [] {
      ReadFinds(s.cache, s.listens, s.s2c[0], a.now, id);
    }
  }

  lemma InvokeMovesNoRow(s: Sys, a: Action, id: U64)
    requires WellFormed(s.cache) && id in s.cache.rows && a.Invoke?
    ensures RowMoves(s, a, id)
  {
    if s.cache.idCounter + 1 < U64_LIMIT {
      OthersFindNothing(s.cache, id, [], a.now, a.valid, id);
    }
  }

  lemma WaitMovesNoRow(s: Sys, a: Action, id: U64)
    requires WellFormed(s.cache) && id in s.cache.rows && a.StartWait?
    ensures RowMoves(s, a, id)
  {
  }

  lemma TakeMovesNoOther(s: Sys, a: Action, id: U64)
    requires id in s.cache.rows && a.TakeBuffer? && (a.t < |s.calls| ==> s.calls[a.t].id != id)
    ensures RowMoves(s, a, id)
  {
  }

  lemma RestMovesNoRow(s: Sys, a: Action, id: U64)
    requires id in s.cache.rows
    requires !a.CliRead? && !a.CliReadEnd? && !a.Invoke? && !a.StartWait? && !a.TakeBuffer?
    ensures RowMoves(s, a, id)
  {
    assert Step(s, a).cache == s.cache;
  }

  lemma StepMovesRow(s: Sys, a: Action, id: U64)
    requires WellFormed(s.cache) && id in s.cache.rows
    requires a.TakeBuffer? && a.t < |s.calls| ==> s.calls[a.t].id != id
    ensures RowMoves(s, a, id)
  {
    match a
    case CliRead(_) => ReadMovesRow(s, a, id);
    case CliReadEnd => ReadMovesRow(s, a, id);
    case Invoke(_, _, _, _, _, _) => InvokeMovesNoRow(s, a, id);
    case StartWait(_) => WaitMovesNoRow(s, a, id);
    case TakeBuffer(_) => TakeMovesNoOther(s, a, id);
    case _ => RestMovesNoRow(s, a, id);
  }

  predicate MovesCall(a: Action, t: nat) {
    match a
    case PostSend(u) => u == t
    case SeeWritten(u) => u == t
    case SendTimeout(u) => u == t
    case StartWait(u) => u == t
    case EndWait(u) => u == t
    case TakeBuffer(u) => u == t
    case _ => false
  }

  ghost predicate PhaseTold(s: Sys, a: Action, t: nat, f: Fate)
    requires t < |s.calls| && |s.promises| == |s.calls|
  {
    var c', f' := Step(s, a).calls, AfterStep(s, a, t, f);
    t < |c'| && Reported(c'[t].phase) == f'.verdict && c'[t].got == f'.got
  }

  lemma OthersLeaveCall(s: Sys, a: Action, t: nat)
    requires t < |s.calls| && !MovesCall(a, t)
    ensures t < |Step(s, a).calls| && Step(s, a).calls[t] == s.calls[t]
  {
  }

  lemma OthersMoveNothing(s: Sys, a: Action, t: nat, f: Fate)
    requires t < |s.calls| && |s.promises| == |s.calls| && Tells(s.calls[t], s.cache.rows, f)
    requires !MovesCall(a, t)
    ensures PhaseTold(s, a, t, f)
  {
    OthersLeaveCall(s, a, t);
    assert !Ends(s, a, t, f.found, true) && !Ends(s, a, t, f.found, false);
  }

  lemma SendMoves(s: Sys, a: Action, t: nat, f: Fate)
    requires t < |s.calls| && |s.promises| == |s.calls| && Tells(s.calls[t], s.cache.rows, f)
    requires a == PostSend(t) || a == SeeWritten(t) || a == SendTimeout(t)
    ensures PhaseTold(s, a, t, f)
  {
    assert !Ends(s, a, t, f.found, true) || !Ends(s, a, t, f.found, false);
  }

  lemma StartMoves(s: Sys, t: nat, f: Fate)
    requires WellFormed(s.cache) && Ids(s.calls, s.cache.idCounter)
    requires t < |s.calls| && |s.promises| == |s.calls| && Tells(s.calls[t], s.cache.rows, f)
    ensures PhaseTold(s, StartWait(t), t, f)
  {
    if s.calls[t].phase == AwaitResponse {
      PlainNeverWaits(s.calls, s.cache.idCounter, t);
    }
  }

  lemma EndMoves(s: Sys, t: nat, f: Fate)
    requires Ids(s.calls, s.cache.idCounter)
    requires t < |s.calls| && |s.promises| == |s.calls| && Tells(s.calls[t], s.cache.rows, f)
    ensures PhaseTold(s, EndWait(t), t, f)
  {
    assert s.calls[t].id == 0 ==> PlainCall(s.calls[t]);
  }

  lemma TakeMoves(s: Sys, t: nat, f: Fate)
    requires Ids(s.calls, s.cache.idCounter)
    requires t < |s.calls| && |s.promises| == |s.calls| && Tells(s.calls[t], s.cache.rows, f)
    ensures PhaseTold(s, TakeBuffer(t), t, f)
  {
    assert s.calls[t].id == 0 ==> PlainCall(s.calls[t]);
  }

  /** Where the call stands after a step. */
  lemma PhaseMoves(s: Sys, a: Action, t: nat, f: Fate)
    requires WellFormed(s.cache) && Ids(s.calls, s.cache.idCounter) && |s.promises| == |s.calls|
    requires t < |s.calls| && Tells(s.calls[t], s.cache.rows, f)
    ensures PhaseTold(s, a, t, f)
  {
    if !MovesCall(a, t) {
      OthersMoveNothing(s, a, t, f);
    } else if a.StartWait? {
      StartMoves(s, t, f);
    } else if a.EndWait? {
      EndMoves(s, t, f);
    } else if a.TakeBuffer? {
      TakeMoves(s, t, f);
    } else {
      SendMoves(s, a, t, f);
    }
  }

  lemma FateMoves(s: Sys, a: Action, t: nat, f: Fate)
    requires Inv(s) && t < |s.calls| && Tells(s.calls[t], s.cache.rows, f)
    ensures t < |Step(s, a).calls| && Tells(Step(s, a).calls[t], Step(s, a).cache.rows, AfterStep(s, a, t, f))
  {
    var c := s.calls[t];
    PhaseMoves(s, a, t, f);
    CallStays(s, a, t);
    if c.id != 0 && !c.phase.Done? {
      if a.TakeBuffer? && a.t < |s.calls| && s.calls[a.t].id == c.id {
        assert a.t == t;
      } else {
        StepMovesRow(s, a, c.id);
      }
    }
  }

  lemma {:induction false} FateIsTold(s: Sys, acts: seq<Action>, t: nat, f: Fate)
    requires Inv(s) && t < |s.calls| && Tells(s.calls[t], s.cache.rows, f)
    ensures t < |Run(s, acts).calls| && Tells(Run(s, acts).calls[t], Run(s, acts).cache.rows, FateOf(s, acts, t, f))
    decreases |acts|
  {
    if acts != [] {
      StepKeepsInv(s, acts[0]);
      FateMoves(s, acts[0], t, f);
      FateIsTold(Step(s, acts[0]), acts[1..], t, AfterStep(s, acts[0], t, f));
    }
  }

  /** Call `a`, made in state `s` and followed by `after`, reports what its fate says: at once false if the
      table is full, otherwise as its waits end; and the payload handed out is what was found last. */
  ghost predicate EndsAsFated(s: Sys, a: Action, after: seq<Action>)
    requires a.Invoke?
  {
    var t := |s.calls|;
    var refused := a.recv && |s.cache.table| >= QUEUE_RECV_MAX;
    var s1 := Step(s, a);
    var fate := FateOf(s1, after, t, Fate(false, [], if refused then Some(false) else None, None));
    var calls := Run(s1, after).calls;
    && t < |calls|
    && calls[t].callId == a.callId && calls[t].body == a.body && calls[t].recv == a.recv
    && Reported(calls[t].phase) == fate.verdict && calls[t].got == fate.got
  }

  lemma {:induction false} CallStaysOverRun(s: Sys, acts: seq<Action>, t: nat)
    requires t < |s.calls|
    ensures t < |Run(s, acts).calls|
    ensures var c, c' := s.calls[t], Run(s, acts).calls[t];
            c'.callId == c.callId && c'.body == c.body && c'.recv == c.recv
    decreases |acts|
  {
    if acts != [] {
      CallStays(s, acts[0], t);
      CallStaysOverRun(Step(s, acts[0]), acts[1..], t);
    }
  }

  lemma MaxStays(s: Sys, a: Action)
    ensures Step(s, a).cache.maxEntries == s.cache.maxEntries
  {
  }

  lemma {:induction false} MaxStaysOverRun(s: Sys, acts: seq<Action>)
    ensures Run(s, acts).cache.maxEntries == s.cache.maxEntries
    decreases |acts|
  {
    if acts != [] {
      MaxStays(s, acts[0]);
      MaxStaysOverRun(Step(s, acts[0]), acts[1..]);
    }
  }

  lemma NewCallIsTold(s: Sys, a: Action)
    requires Inv(s) && a.Invoke? && s.cache.idCounter + 1 < U64_LIMIT
    ensures var t, s' := |s.calls|, Step(s, a);
            var refused := a.recv && |s.cache.table| >= s.cache.maxEntries;
            && |s'.calls| == t + 1
            && Tells(s'.calls[t], s'.cache.rows, Fate(false, [], if refused then Some(false) else None, None))
            && s'.calls[t].callId == a.callId && s'.calls[t].body == a.body && s'.calls[t].recv == a.recv
  {
    QueueIsFresh(s.cache, a.now, a.valid);
  }

  lemma InvGivesFate(s: Sys, a: Action, after: seq<Action>)
    requires Inv(s) && a.Invoke? && s.cache.idCounter + 1 < U64_LIMIT && s.cache.maxEntries == QUEUE_RECV_MAX
    ensures EndsAsFated(s, a, after)
  {
    var t := |s.calls|;
    var refused := a.recv && |s.cache.table| >= QUEUE_RECV_MAX;
    StepKeepsInv(s, a);
    NewCallIsTold(s, a);
    FateIsTold(Step(s, a), after, t, Fate(false, [], if refused then Some(false) else None, None));
    CallStaysOverRun(Step(s, a), after, t);
  }

  /** What `send` and `send_recv` report, in every run: true exactly when, for a plain send, its promise
      became ready in time and, for a call with a response, its row was found by a reply or by the end of
      reading before its wait ended, at the lookup or later. */
  lemma ReportsWhatHappened(listens: set<U32>, funcs: Bindings, pings: bool, before: seq<Action>, call: Action,
                            after: seq<Action>)
    requires call.Invoke? && Run(Init(listens, funcs, pings), before).cache.idCounter + 1 < U64_LIMIT
    ensures EndsAsFated(Run(Init(listens, funcs, pings), before), call, after)
  {
    InitKeepsInv(listens, funcs, pings);
    RunKeepsInv(Init(listens, funcs, pings), before);
    MaxStaysOverRun(Init(listens, funcs, pings), before);
    InvGivesFate(Run(Init(listens, funcs, pings), before), call, after);
  }

  // ----- a run in which one call goes through -----

  function TheCall(callId: U32, body: Bytes, phase: Phase, got: Option<Bytes>): Call {
    Call(callId, body, true, 1, [], phase, got)
  }

  function TheCache(now: int, state: DataState, buffer: Bytes, table: set<U64>): Cache {
    Cache(QUEUE_RECV_MAX, 1, map[1 := Row(now, 1, state, buffer)], table)
  }

  /** The call has its id, and its `handle_send` is posted. */
  function Posted(callId: U32, body: Bytes, now: int): Sys {
    Init({}, map[callId := true], false).(
      cache := TheCache(now, Queued, [], {1}), promises := [Promise(true, None)],
      calls := [TheCall(callId, body, AwaitWritten, None)], posted := {0})
  }

  /** The request is on the wire. */
  function Requested(callId: U32, body: Bytes, now: int): Sys {
    var e := Entry(callId, 1, 0, body);
    Sys({}, map[callId := true], TheCache(now, Queued, [], {1}),
        Pump(Flags(false, false, false, false), [e], true, true, [e], 0, 0, 1, 1, 0), true, 0,
        [Promise(true, None)], [TheCall(callId, body, AwaitWritten, None)], {},
        [EntryFrame(e)], [], NewServer(false))
  }

  /** The server has served the request and its response is on the wire. */
  function Answering(callId: U32, body: Bytes, response: Bytes, now: int): Sys {
    var e := Entry(callId, 1, 0, body);
    var push := Push(EntryHeader(e), response, Some(0));
    Requested(callId, body, now).(
      c2s := [], s2c := [PushFrame(push)],
      srv := Server(Pump(Flags(false, false, false, false), [push], true, true, [push], 0, 0, 1, 1, 0),
                    true, false, false, [EntryFrame(e)], [Called(Reply(response, false))]))
  }

  /** The caller has seen its request written and waits for the response. */
  function Responded(callId: U32, body: Bytes, response: Bytes, now: int): Sys {
    var e := Entry(callId, 1, 0, body);
    Answering(callId, body, response, now).(
      cache := TheCache(now, Waiting, [], {1}),
      cli := Pump(Flags(false, false, false, false), [], false, false, [e], 1, 0, 1, 1, 0),
      promises := [Promise(true, Some(true))], calls := [TheCall(callId, body, InWait, None)])
  }

  function InvokeActions(callId: U32, body: Bytes, now: int): seq<Action> {
    [Invoke(callId, body, true, [], now, 1_000_000), PostSend(0)]
  }

  function SendActions(): seq<Action> {
    [Action.RunSend(0), CliDeliver]
  }

  function ServeActions(response: Bytes): seq<Action> {
    [SrvRead(Reply(response, false)), SrvDeliver]
  }

  function WaitActions(): seq<Action> {
    [CliWriteDone(false), SeeWritten(0), StartWait(0)]
  }

  function ReceiveActions(now: int): seq<Action> {
    [CliRead(now), EndWait(0), TakeBuffer(0)]
  }

  lemma CallIsPosted(callId: U32, body: Bytes, now: int)
    ensures Run(Init({}, map[callId := true], false), InvokeActions(callId, body, now)) == Posted(callId, body, now)
  {
    var acts := InvokeActions(callId, body, now);
    var s0 := Init({}, map[callId := true], false);
    RunTwo(s0, acts);
    CallIsPrepared(callId, body, now);
    assert {} + {0} == {0};
  }

  lemma CallIsPrepared(callId: U32, body: Bytes, now: int)
    ensures Step(Init({}, map[callId := true], false), InvokeActions(callId, body, now)[0])
         == Posted(callId, body, now).(calls := [TheCall(callId, body, Prepared, None)], posted := {})
  {
    var s := Step(Init({}, map[callId := true], false), InvokeActions(callId, body, now)[0]);
    assert s.calls == [TheCall(callId, body, Prepared, None)] && s.cache == TheCache(now, Queued, [], {1});
  }

  lemma RequestGoesOut(callId: U32, body: Bytes, now: int)
    ensures Run(Posted(callId, body, now), SendActions()) == Requested(callId, body, now)
  {
    var s0 := Posted(callId, body, now);
    var s1 := Step(s0, SendActions()[0]);
    RunTwo(s0, SendActions());
    assert s1.cli == StartWrite(NewPump<Entry>().(queue := [Entry(callId, 1, 0, body)],
                                                  accepted := [Entry(callId, 1, 0, body)]));
    assert s1.posted == {};
  }

  lemma ServesFirst(e: Entry, response: Bytes)
    requires response != []
    ensures ServerCore.Step(NewServer(false), map[e.callId := true],
                            ReadMessage(EntryFrame(e), Reply(response, false)))
            == Server(StartWrite(NewPump<Push>().(queue := [Push(EntryHeader(e), response, Some(0))],
                                                  accepted := [Push(EntryHeader(e), response, Some(0))])),
                      true, false, false, [EntryFrame(e)], [Called(Reply(response, false))])
  {
    SplitFrame(EntryHeader(e), e.body);
    var push := Push(EntryHeader(e), response, Some(0));
    assert HandleSend(NewPump(), push) == StartWrite(NewPump<Push>().(queue := [push], accepted := [push]));
  }

  /** The server has queued its response. */
  function Serving(callId: U32, body: Bytes, response: Bytes, now: int): Sys {
    var s := Answering(callId, body, response, now);
    s.(s2c := [], srv := s.srv.(pump := s.srv.pump.(onWire := false, sent := 0)))
  }

  lemma RequestIsServed(callId: U32, body: Bytes, response: Bytes, now: int)
    requires response != []
    ensures Step(Requested(callId, body, now), SrvRead(Reply(response, false))) == Serving(callId, body, response, now)
  {
    ServesFirst(Entry(callId, 1, 0, body), response);
  }

  lemma ResponseGoesOut(callId: U32, body: Bytes, response: Bytes, now: int)
    ensures Step(Serving(callId, body, response, now), SrvDeliver) == Answering(callId, body, response, now)
  {
  }

  lemma ResponseComesBack(callId: U32, body: Bytes, response: Bytes, now: int)
    requires response != []
    ensures Run(Requested(callId, body, now), ServeActions(response)) == Answering(callId, body, response, now)
  {
    RequestIsServed(callId, body, response, now);
    ResponseGoesOut(callId, body, response, now);
    RunTwo(Requested(callId, body, now), ServeActions(response));
  }

  lemma RunTwo(s: Sys, acts: seq<Action>)
    requires |acts| == 2
    ensures Run(s, acts) == Step(Step(s, acts[0]), acts[1])
  {
    var s1 := Step(s, acts[0]);
    assert acts[1..][0] == acts[1] && acts[1..][1..] == [];
    assert Run(s1, acts[1..]) == Run(Step(s1, acts[1]), []);
  }

  lemma CallerWaits(callId: U32, body: Bytes, response: Bytes, now: int)
    ensures Run(Answering(callId, body, response, now), WaitActions()) == Responded(callId, body, response, now)
  {
    var acts := WaitActions();
    var s0 := Answering(callId, body, response, now);
    var s1 := Step(s0, acts[0]);
    assert s1.promises == [Promise(true, Some(true))] by { assert [Entry(callId, 1, 0, body)][0].caller == 0; }
    var s2 := Step(s1, acts[1]);
    RunThrough(s0, acts, [s0, s1, s2, Step(s2, acts[2])], 3);
  }

  lemma ResponseIsRead(callId: U32, body: Bytes, response: Bytes, now: int)
    ensures var s := Step(Responded(callId, body, response, now), CliRead(now));
            && s.calls == [TheCall(callId, body, InWait, None)]
            && 1 in s.cache.rows && s.cache.rows[1] == Row(now, 1, Swapped, response)
  {
    SplitFrame(NewHeader(callId, 1), response);
  }

  lemma ResponseIsTaken(callId: U32, body: Bytes, response: Bytes, now: int)
    ensures var s := Run(Responded(callId, body, response, now), ReceiveActions(now));
            s.calls == [TheCall(callId, body, Done(true), Some(response))]
  {
    var acts := ReceiveActions(now);
    var s0 := Responded(callId, body, response, now);
    var s1 := Step(s0, acts[0]);
    ResponseIsRead(callId, body, response, now);
    var s2 := Step(s1, acts[1]);
    RunThrough(s0, acts, [s0, s1, s2, Step(s2, acts[2])], 3);
  }

  /** The correlation is not empty talk: whatever the request and the response, some run hands exactly
      the response to the caller. */
  lemma ResponseCanArrive(callId: U32, body: Bytes, response: Bytes, now: int)
    requires response != []
    ensures var acts := InvokeActions(callId, body, now) + SendActions() + ServeActions(response)
                        + WaitActions() + ReceiveActions(now);
            var s := Run(Init({}, map[callId := true], false), acts);
            s.calls == [TheCall(callId, body, Done(true), Some(response))]
  {
    var a, b, c := InvokeActions(callId, body, now) + SendActions(), ServeActions(response), WaitActions();
    var s := Init({}, map[callId := true], false);
    CallIsPosted(callId, body, now);
    RunAppend(s, InvokeActions(callId, body, now), SendActions());
    RequestGoesOut(callId, body, now);
    ResponseComesBack(callId, body, response, now);
    CallerWaits(callId, body, response, now);
    ResponseIsTaken(callId, body, response, now);
    RunAppend(s, a, b);
    RunAppend(s, a + b, c);
    RunAppend(s, a + b + c, ReceiveActions(now));
  }

  /** The client reads the response before its caller waits for it. */
  function EarlyActions(now: int): seq<Action> {
    [CliWriteDone(false), SeeWritten(0), CliRead(now), StartWait(0), TakeBuffer(0)]
  }

  /** The caller has seen its request written, and the response is still in the channel. */
  function Early(callId: U32, body: Bytes, response: Bytes, now: int): Sys {
    Responded(callId, body, response, now).(
      cache := TheCache(now, Queued, [], {1}), calls := [TheCall(callId, body, AwaitResponse, None)])
  }

  lemma EarlyIsReached(callId: U32, body: Bytes, response: Bytes, now: int)
    ensures Step(Step(Answering(callId, body, response, now), CliWriteDone(false)), SeeWritten(0))
         == Early(callId, body, response, now)
  {
    var s1 := Step(Answering(callId, body, response, now), CliWriteDone(false));
    assert s1.promises == [Promise(true, Some(true))] by { assert [Entry(callId, 1, 0, body)][0].caller == 0; }
  }

  lemma EarlyIsRead(callId: U32, body: Bytes, response: Bytes, now: int)
    ensures Step(Early(callId, body, response, now), CliRead(now))
         == EarlySwapped(callId, body, response, now)
  {
    EarlyIsSwapped(callId, response, now);
    assert Early(callId, body, response, now).s2c == [Frame(NewHeader(callId, 1), response)];
  }

  lemma EarlyIsSwapped(callId: U32, response: Bytes, now: int)
    ensures CacheAfterRead(TheCache(now, Queued, [], {1}), {}, Frame(NewHeader(callId, 1), response), now)
         == TheCache(now, Swapped, response, {1})
  {
    SplitFrame(NewHeader(callId, 1), response);
    var c := AfterMessage(TheCache(now, Queued, [], {1}), {}, Frame(NewHeader(callId, 1), response));
    assert c == TheCache(now, Swapped, response, {1});
    assert RemoveObsolete(c, now).table == {1} by { assert ValidAt(Row(now, 1, Swapped, response), now); }
  }

  /** The response lies in the row, and the caller has yet to wait for it. */
  function EarlySwapped(callId: U32, body: Bytes, response: Bytes, now: int): Sys {
    Early(callId, body, response, now).(cache := TheCache(now, Swapped, response, {1}), s2c := [], cliRead := 1)
  }

  lemma EarlyIsHanded(callId: U32, body: Bytes, response: Bytes, now: int)
    ensures Step(Step(EarlySwapped(callId, body, response, now), StartWait(0)), TakeBuffer(0)).calls
         == [TheCall(callId, body, Done(true), Some(response))]
  {
    var s := Step(EarlySwapped(callId, body, response, now), StartWait(0));
    assert s.calls == [TheCall(callId, body, Taking(true), None)];
  }

  lemma RunFive(s: Sys, acts: seq<Action>, m: Sys, n: Sys)
    requires |acts| == 5 && Step(Step(s, acts[0]), acts[1]) == m && Step(m, acts[2]) == n
    ensures Run(s, acts) == Step(Step(n, acts[3]), acts[4])
  {
    assert acts == acts[..2] + ([acts[2]] + acts[3..]);
    RunAppend(s, acts[..2], [acts[2]] + acts[3..]);
    RunTwo(s, acts[..2]);
    assert ([acts[2]] + acts[3..])[1..] == acts[3..];
    RunTwo(n, acts[3..]);
  }

  lemma EarlyIsTaken(callId: U32, body: Bytes, response: Bytes, now: int)
    ensures Run(Answering(callId, body, response, now), EarlyActions(now)).calls
         == [TheCall(callId, body, Done(true), Some(response))]
  {
    EarlyIsReached(callId, body, response, now);
    EarlyIsRead(callId, body, response, now);
    RunFive(Answering(callId, body, response, now), EarlyActions(now), Early(callId, body, response, now),
            EarlySwapped(callId, body, response, now));
    EarlyIsHanded(callId, body, response, now);
  }

  /** A response that overtakes its caller, which only waits once it has been read, arrives as well. */
  lemma EarlyResponseCanArrive(callId: U32, body: Bytes, response: Bytes, now: int)
    requires response != []
    ensures var acts := InvokeActions(callId, body, now) + SendActions() + ServeActions(response) + EarlyActions(now);
            var s := Run(Init({}, map[callId := true], false), acts);
            s.calls == [TheCall(callId, body, Done(true), Some(response))]
  {
    var a := InvokeActions(callId, body, now) + SendActions();
    var s := Init({}, map[callId := true], false);
    CallIsPosted(callId, body, now);
    RunAppend(s, InvokeActions(callId, body, now), SendActions());
    RequestGoesOut(callId, body, now);
    ResponseComesBack(callId, body, response, now);
    EarlyIsTaken(callId, body, response, now);
    RunAppend(s, a, ServeActions(response));
    RunAppend(s, a + ServeActions(response), EarlyActions(now));
  }

  lemma {:induction false} RunAppend(s: Sys, a: seq<Action>, b: seq<Action>)
    ensures Run(s, a + b) == Run(Run(s, a), b)
    decreases |a|
  {
    if a == [] {
      assert a + b == b;
    } else {
      assert (a + b)[1..] == a[1..] + b;
      RunAppend(Step(s, a[0]), a[1..], b);
    }
  }

  /** A run computed state by state. */
  lemma {:induction false} RunThrough(s: Sys, acts: seq<Action>, states: seq<Sys>, n: nat)
    requires |acts| == n && |states| == n + 1 && states[0] == s
    requires forall i :: 0 <= i < n ==> states[i + 1] == Step(states[i], acts[i])
    ensures Run(s, acts) == states[n]
    decreases n
  {
    if n > 0 {
      RunThrough(states[1], acts[1..], states[1..], n - 1);
    }
  }
}
