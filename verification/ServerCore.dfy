/** A server session: it reads requests, calls bound handlers and queues their responses on its own
    write pump, on which broadcasts arrive too. */
module ServerCore {
  import opened Wrappers
  import opened Wire
  import opened WritePump

  /** `data_push`. `origin` is history: the number of the request a response answers, or None for a
      broadcast. */
  datatype Push = Push(header: IoHeader, body: Bytes, origin: Option<nat>)

  function PushFrame(p: Push): Bytes {
    Frame(p.header, p.body)
  }

  /** What a handler leaves behind: bytes in `response`, and whether it asked to close. */
  datatype Reply = Reply(response: Bytes, close: bool)

  datatype Served = NotCalled | Called(reply: Reply)

  /** The ids bound to a handler; false stands for an id bound to an empty function. */
  type Bindings = map<U32, bool>

  /** `pings` says that `ping_delay` is not zero. `requests` and `served` are history: the messages read,
      and what was done with each. */
  datatype Server = Server(pump: Pump<Push>, reading: bool, pings: bool, boundClose: bool,
                           requests: seq<Bytes>, served: seq<Served>)

  function NewServer(pings: bool): Server {
    Server(NewPump(), true, pings, false, [], [])
  }

  /** `close_session`: with pings the timer handler closes later. */
  function CloseSession(s: Server): Server {
    if s.pings then s else s.(pump := CloseNow(s.pump))
  }

  predicate CallsHandler(s: Server, funcs: Bindings, msg: Bytes) {
    && !s.pump.flags.close && !s.pump.flags.writeError
    && Split(msg).Message?
    && Split(msg).header.callId in funcs && funcs[Split(msg).header.callId]
  }

  /** `call_function`; `reply` is what the handler does, if one is called. */
  function CallFunction(s: Server, msg: Bytes, reply: Reply): Server
    requires Split(msg).Message?
  {
    var called := s.(boundClose := s.boundClose || reply.close);
    if called.boundClose then CloseSession(called)
    else if reply.response == [] then called
    else called.(pump := HandleSend(called.pump, Push(Split(msg).header, reply.response, Some(|s.requests|))))
  }

  /** What one message makes of the session, but for the history. */
  function AfterMessage(s: Server, funcs: Bindings, msg: Bytes, reply: Reply): Server {
    if CallsHandler(s, funcs, msg) then CallFunction(s, msg, reply) else s
  }

  /** `on_read` with a message: a handler runs at most once, and the next read is started. */
  function OnRead(s: Server, funcs: Bindings, msg: Bytes, reply: Reply): Server {
    AfterMessage(s, funcs, msg, reply).(
      requests := s.requests + [msg],
      served := s.served + [if CallsHandler(s, funcs, msg) then Called(reply) else NotCalled])
  }

  /** `on_read` with an error, or once a close frame was received: reading ends. */
  function OnReadEnd(s: Server): Server {
    s.(pump := ReadFails(s.pump, !s.pings), reading := false)
  }

  datatype Action =
    | ReadMessage(msg: Bytes, reply: Reply)
    | ReadFailed
    | Broadcast(callId: U32, body: Bytes)
    | Deliver
    | WriteDone(failed: bool)
    | PeerClose
    | Shutdown

  predicate Enabled(s: Server, a: Action) {
    match a
    case ReadMessage(_, _) => s.reading
    case ReadFailed => s.reading
    case Deliver => s.pump.writing && !s.pump.onWire
    case WriteDone(failed) => s.pump.writing && (failed || s.pump.onWire)
    case _ => true
  }

  function Step(s: Server, funcs: Bindings, a: Action): Server {
    if !Enabled(s, a) then s else
    match a
    case ReadMessage(msg, reply) =>
      if s.pump.flags.closeReceived then OnReadEnd(s) else OnRead(s, funcs, msg, reply)
    case ReadFailed => OnReadEnd(s)
    case Broadcast(callId, body) => s.(pump := HandleSend(s.pump, Push(NewHeader(callId, 0), body, None)))
    case Deliver => s.(pump := Transmit(s.pump))
    case WriteDone(failed) => s.(pump := OnWrite(s.pump, failed, !s.pings))
    case PeerClose => s.(pump := CloseFrame(s.pump))
    case Shutdown => s.(pump := CloseNow(s.pump))
  }

  function Run(s: Server, funcs: Bindings, acts: seq<Action>): Server
    decreases |acts|
  {
    if acts == [] then s else Run(Step(s, funcs, acts[0]), funcs, acts[1..])
  }

  // ----- order and content of the responses -----

  /** A queued message answers the request it names, with that request's header and exactly the bytes
      its handler left, and no handler had asked to close up to then. */
  ghost predicate Answers(s: Server, p: Push) {
    match p.origin
    case None => p.header.resultId == 0
    case Some(k) =>
      && k < |s.requests| == |s.served|
      && Split(s.requests[k]).Message? && p.header == Split(s.requests[k]).header
      && s.served[k] == Called(Reply(p.body, false)) && p.body != []
      && NoCloseUpTo(s, k)
  }

  ghost predicate NoCloseUpTo(s: Server, k: nat)
    requires k < |s.served|
  {
    forall i :: 0 <= i <= k && s.served[i].Called? ==> !s.served[i].reply.close
  }

  /** Responses stand in the order of their requests, at most one each. */
  ghost predicate InOrder(pushes: seq<Push>) {
    forall i, j :: 0 <= i < j < |pushes| && pushes[i].origin.Some? && pushes[j].origin.Some?
      ==> pushes[i].origin.value < pushes[j].origin.value
  }

  ghost predicate Inv(s: Server) {
    && WritePump.Inv(s.pump)
    && |s.requests| == |s.served|
    && (forall j :: 0 <= j < |s.pump.accepted| ==> Answers(s, s.pump.accepted[j]))
    && InOrder(s.pump.accepted)
    && (s.boundClose <==> CloseAsked(s.served))
  }

  ghost predicate CloseAsked(served: seq<Served>) {
    exists k :: 0 <= k < |served| && served[k].Called? && served[k].reply.close
  }

  lemma NewServerKeepsInv(pings: bool)
    ensures Inv(NewServer(pings))
  {
    NewPumpKeepsInv<Push>();
  }

  lemma AnswersStays(s: Server, s': Server, p: Push)
    requires Answers(s, p) && |s.requests| == |s.served| && |s'.requests| == |s'.served|
    requires s.requests <= s'.requests && s.served <= s'.served
    ensures Answers(s', p)
  {
    if p.origin.Some? {
      var k := p.origin.value;
      assert s'.requests[k] == s.requests[k];
      assert forall i :: 0 <= i <= k ==> s'.served[i] == s.served[i];
    }
  }

  lemma AcceptedAfterSend(p: Pump<Push>, e: Push)
    requires WritePump.Inv(p)
    ensures var q := HandleSend(p, e);
            WritePump.Inv(q) && q.accepted == if Accepts(p) then p.accepted + [e] else p.accepted
  {
    WritePump.StepKeepsInv(p, Send(e));
  }

  lemma CallFunctionPump(s: Server, msg: Bytes, reply: Reply)
    requires WritePump.Inv(s.pump) && Split(msg).Message?
    ensures var s' := CallFunction(s, msg, reply);
            var push := Push(Split(msg).header, reply.response, Some(|s.requests|));
            && WritePump.Inv(s'.pump)
            && s'.boundClose == (s.boundClose || reply.close)
            && s'.pump.accepted == if !s'.boundClose && reply.response != [] && Accepts(s.pump)
                                   then s.pump.accepted + [push] else s.pump.accepted
  {
    if s.boundClose || reply.close {
      CloseKeepsInv(s.pump);
      assert CloseNow(s.pump).accepted == s.pump.accepted;
    } else {
      AcceptedAfterSend(s.pump, Push(Split(msg).header, reply.response, Some(|s.requests|)));
    }
  }

  lemma ReadKeepsInv(s: Server, funcs: Bindings, msg: Bytes, reply: Reply)
    requires Inv(s)
    ensures Inv(OnRead(s, funcs, msg, reply))
  {
    var s' := OnRead(s, funcs, msg, reply);
    var acc, acc' := s.pump.accepted, s'.pump.accepted;
    if CallsHandler(s, funcs, msg) {
      CallFunctionPump(s, msg, reply);
    }
    assert s'.requests[|s.requests|] == msg && forall i :: 0 <= i < |s.served| ==> s'.served[i] == s.served[i];
    forall j | 0 <= j < |acc'| ensures Answers(s', acc'[j]) {
      if j < |acc| {
        AnswersStays(s, s', acc[j]);
      } else {
        NewAnswer(s, funcs, msg, reply, acc'[j]);
      }
    }
    CloseAskedGrows(s.served, s'.served[|s.served|]);
    OriginsBounded(s);
    OrderGrows(acc, acc', |s.requests|);
  }

  /** The response just queued answers the message just read. */
  lemma NewAnswer(s: Server, funcs: Bindings, msg: Bytes, reply: Reply, push: Push)
    requires Inv(s) && CallsHandler(s, funcs, msg) && !s.boundClose && !reply.close && reply.response != []
    requires push == Push(Split(msg).header, reply.response, Some(|s.requests|))
    ensures Answers(OnRead(s, funcs, msg, reply), push)
  {
  }

  lemma CloseAskedGrows(served: seq<Served>, last: Served)
    ensures CloseAsked(served + [last]) <==> CloseAsked(served) || (last.Called? && last.reply.close)
  {
    var all := served + [last];
    assert forall i :: 0 <= i < |served| ==> all[i] == served[i];
    assert all[|served|] == last;
  }

  lemma OrderGrows(acc: seq<Push>, acc': seq<Push>, n: nat)
    requires InOrder(acc)
    requires forall j :: 0 <= j < |acc| && acc[j].origin.Some? ==> acc[j].origin.value < n
    requires acc' == acc || (|acc'| == |acc| + 1 && acc <= acc' && acc'[|acc|].origin == Some(n))
    ensures InOrder(acc')
  {
  }

  lemma OriginsBounded(s: Server)
    requires Inv(s)
    ensures forall j :: 0 <= j < |s.pump.accepted| && s.pump.accepted[j].origin.Some?
              ==> s.pump.accepted[j].origin.value < |s.requests|
  {
    forall j | 0 <= j < |s.pump.accepted| && s.pump.accepted[j].origin.Some?
      ensures s.pump.accepted[j].origin.value < |s.requests|
    {
      assert Answers(s, s.pump.accepted[j]);
    }
  }

  lemma BroadcastAppended(s: Server, s': Server, push: Push)
    requires Inv(s) && s' == s.(pump := s'.pump) && WritePump.Inv(s'.pump)
    requires push.origin == None && push.header.resultId == 0
    requires s'.pump.accepted == s.pump.accepted || s'.pump.accepted == s.pump.accepted + [push]
    ensures Inv(s')
  {
    var acc' := s'.pump.accepted;
    forall j | 0 <= j < |acc'| ensures Answers(s', acc'[j]) {
      if j < |s.pump.accepted| {
        AnswersStays(s, s', s.pump.accepted[j]);
      }
    }
  }

  lemma BroadcastKeepsInv(s: Server, callId: U32, body: Bytes)
    requires Inv(s)
    ensures Inv(s.(pump := HandleSend(s.pump, Push(NewHeader(callId, 0), body, None))))
  {
    var push := Push(NewHeader(callId, 0), body, None);
    AcceptedAfterSend(s.pump, push);
    BroadcastAppended(s, s.(pump := HandleSend(s.pump, push)), push);
  }

  lemma QuietPumpKeepsInv(s: Server, s': Server)
    requires Inv(s) && s' == s.(pump := s'.pump, reading := s'.reading)
    requires WritePump.Inv(s'.pump) && s'.pump.accepted == s.pump.accepted
    ensures Inv(s')
  {
    forall j | 0 <= j < |s.pump.accepted| ensures Answers(s', s.pump.accepted[j]) {
      AnswersStays(s, s', s.pump.accepted[j]);
    }
  }

  /** Steps that touch only the pump's writes and flags accept nothing. */
  lemma QuietStepKeepsInv(s: Server, funcs: Bindings, a: Action)
    requires Inv(s) && !a.Broadcast? && !(a.ReadMessage? && !s.pump.flags.closeReceived)
    ensures Inv(Step(s, funcs, a))
  {
    if Enabled(s, a) {
      QuietStep(s.pump, PumpAction(s, a));
      assert Step(s, funcs, a).pump == WritePump.Step(s.pump, PumpAction(s, a));
      QuietPumpKeepsInv(s, Step(s, funcs, a));
    }
  }

  function PumpAction(s: Server, a: Action): WritePump.Action<Push> {
    match a
    case Deliver => WritePump.Action.Deliver
    case WriteDone(failed) => WritePump.Action.WriteDone(failed, !s.pings)
    case PeerClose => WritePump.Action.PeerClose
    case Shutdown => Close
    case _ => ReadError(!s.pings)
  }

  lemma StepKeepsInv(s: Server, funcs: Bindings, a: Action)
    requires Inv(s)
    ensures Inv(Step(s, funcs, a))
  {
    if a.Broadcast? {
      BroadcastKeepsInv(s, a.callId, a.body);
    } else if a.ReadMessage? && !s.pump.flags.closeReceived {
      ReadKeepsInv(s, funcs, a.msg, a.reply);
    } else {
      QuietStepKeepsInv(s, funcs, a);
    }
  }

  lemma {:induction false} RunKeepsInv(s: Server, funcs: Bindings, acts: seq<Action>)
    requires Inv(s)
    ensures Inv(Run(s, funcs, acts))
    decreases |acts|
  {
    if acts != [] {
      StepKeepsInv(s, funcs, acts[0]);
      RunKeepsInv(Step(s, funcs, acts[0]), funcs, acts[1..]);
    }
  }

  /** Every message queued answers its request or is a broadcast, and responses stand in the order of their
      requests. */
  ghost predicate AnswersInOrder(s: Server) {
    && (forall i :: 0 <= i < |s.pump.accepted| ==> Answers(s, s.pump.accepted[i]))
    && InOrder(s.pump.accepted)
  }

  /** In every run, with any messages arriving and any handlers: the responses put on the queue are an
      ordered subsequence of the requests read, at most one each; each repeats its request's header
      verbatim and carries what that request's handler left; none follows a request to close. */
  lemma ResponseOrder(pings: bool, funcs: Bindings, acts: seq<Action>)
    ensures AnswersInOrder(Run(NewServer(pings), funcs, acts))
  {
    NewServerKeepsInv(pings);
    RunKeepsInv(NewServer(pings), funcs, acts);
  }

  // ----- which requests get a response -----

  /** The message is one the session still reads as a message. */
  predicate IsHeard(s: Server) {
    s.reading && !s.pump.flags.closeReceived
  }

  /** The message is long enough for a header, and names an id that is bound to a function. */
  predicate IsBound(funcs: Bindings, msg: Bytes) {
    && |msg| >= HEADER_SIZE && Split(msg).Message?
    && Split(msg).header.callId in funcs && funcs[Split(msg).header.callId]
  }

  /** What a message heard in state `s` makes happen: its handler runs unless a close was started or a
      write failed. */
  function ServedNow(s: Server, funcs: Bindings, msg: Bytes, reply: Reply): Served {
    if !s.pump.flags.close && !s.pump.flags.writeError && IsBound(funcs, msg) then Called(reply) else NotCalled
  }

  predicate HasRoom(s: Server) {
    var f := s.pump.flags;
    !f.close && !f.closeReceived && !f.writeError && !f.readError && |s.pump.queue| < 500
  }

  /** What `a` puts on the queue. A response is queued if its handler ran and left bytes, no handler has
      asked to close, and there is room on a running pump. */
  function PushedNow(s: Server, funcs: Bindings, a: Action): seq<Push> {
    match a
    case ReadMessage(msg, reply) =>
      if IsHeard(s) && ServedNow(s, funcs, msg, reply) == Called(reply) && HasRoom(s)
         && !CloseAskedBy(s.served, reply) && reply.response != []
      then [Push(Split(msg).header, reply.response, Some(|s.requests|))]
      else []
    case Broadcast(callId, body) => if HasRoom(s) then [Push(NewHeader(callId, 0), body, None)] else []
    case _ => []
  }

  /** This handler asks to close, or an earlier one did. */
  predicate CloseAskedBy(served: seq<Served>, reply: Reply) {
    reply.close || exists k :: 0 <= k < |served| && served[k].Called? && served[k].reply.close
  }

  function ServedByNow(s: Server, funcs: Bindings, a: Action): seq<Served> {
    if a.ReadMessage? && IsHeard(s) then [ServedNow(s, funcs, a.msg, a.reply)] else []
  }

  function HeardNow(s: Server, a: Action): seq<Bytes> {
    if a.ReadMessage? && IsHeard(s) then [a.msg] else []
  }

  /** An account of a run: the messages heard, what was done with each, and what was queued. */
  datatype Account = Account(heard: seq<Bytes>, served: seq<Served>, pushed: seq<Push>)

  function Noted(s: Server, funcs: Bindings, a: Action, h: Account): Account {
    Account(h.heard + HeardNow(s, a), h.served + ServedByNow(s, funcs, a), h.pushed + PushedNow(s, funcs, a))
  }

  ghost function AccountOf(s: Server, funcs: Bindings, acts: seq<Action>, h: Account): Account
    decreases |acts|
  {
    if acts == [] then h else AccountOf(Step(s, funcs, acts[0]), funcs, acts[1..], Noted(s, funcs, acts[0], h))
  }

  predicate Agrees(s: Server, h: Account) {
    s.requests == h.heard && s.served == h.served && s.pump.accepted == h.pushed
  }

  lemma PushedAtRead(s: Server, funcs: Bindings, msg: Bytes, reply: Reply)
    requires Inv(s) && IsHeard(s)
    ensures var s' := Step(s, funcs, ReadMessage(msg, reply));
            && s'.pump.accepted == s.pump.accepted + PushedNow(s, funcs, ReadMessage(msg, reply))
            && s'.served == s.served + [ServedNow(s, funcs, msg, reply)] && s'.requests == s.requests + [msg]
  {
    if CallsHandler(s, funcs, msg) {
      CallFunctionPump(s, msg, reply);
      assert s.boundClose || reply.close <==> CloseAskedBy(s.served, reply);
    }
  }

  lemma PushedAtRest(s: Server, funcs: Bindings, a: Action)
    requires Inv(s) && !(a.ReadMessage? && IsHeard(s))
    ensures var s' := Step(s, funcs, a);
            && s'.pump.accepted == s.pump.accepted + PushedNow(s, funcs, a)
            && s'.served == s.served && s'.requests == s.requests
  {
    if a.Broadcast? {
      AcceptedAfterSend(s.pump, Push(NewHeader(a.callId, 0), a.body, None));
    }
  }

  lemma AgreesAtStep(s: Server, funcs: Bindings, a: Action, h: Account)
    requires Inv(s) && Agrees(s, h)
    ensures Agrees(Step(s, funcs, a), Noted(s, funcs, a, h))
  {
    if a.ReadMessage? && IsHeard(s) {
      PushedAtRead(s, funcs, a.msg, a.reply);
    } else {
      PushedAtRest(s, funcs, a);
    }
  }

  lemma {:induction false} AgreesOverRun(s: Server, funcs: Bindings, acts: seq<Action>, h: Account)
    requires Inv(s) && Agrees(s, h)
    ensures Agrees(Run(s, funcs, acts), AccountOf(s, funcs, acts, h))
    decreases |acts|
  {
    if acts != [] {
      StepKeepsInv(s, funcs, acts[0]);
      AgreesAtStep(s, funcs, acts[0], h);
      AgreesOverRun(Step(s, funcs, acts[0]), funcs, acts[1..], Noted(s, funcs, acts[0], h));
    }
  }

  /** No response is lost on its way to the queue, in any run: what was queued is, in order, each broadcast
      that found room on a running pump and, for each request heard, the response of its handler, exactly
      if the request's id is bound to a function, no close was started or received, nothing failed, nobody
      has asked to close, there are bytes to send, and fewer than 500 messages are queued. */
  lemma ResponsesExactly(pings: bool, funcs: Bindings, acts: seq<Action>)
    ensures Agrees(Run(NewServer(pings), funcs, acts), AccountOf(NewServer(pings), funcs, acts, Account([], [], [])))
  {
    NewServerKeepsInv(pings);
    AgreesOverRun(NewServer(pings), funcs, acts, Account([], [], []));
  }

  /** What `a` is to the session's write pump: a response or a broadcast is sent, an error or a request to
      close stops it; with pings closing is left to the timer. */
  function PumpActionOf(s: Server, funcs: Bindings, a: Action): Option<WritePump.Action<Push>> {
    match a
    case ReadMessage(msg, reply) =>
      if !s.reading then None
      else if s.pump.flags.closeReceived then Some(ReadError(!s.pings))
      else if ServedNow(s, funcs, msg, reply) == NotCalled then None
      else if CloseAskedBy(s.served, reply) then (if s.pings then None else Some(Close))
      else if reply.response == [] then None
      else Some(Send(Push(Split(msg).header, reply.response, Some(|s.requests|))))
    case ReadFailed => if s.reading then Some(ReadError(!s.pings)) else None
    case Broadcast(callId, body) => Some(Send(Push(NewHeader(callId, 0), body, None)))
    case Deliver => Some(WritePump.Action.Deliver)
    case WriteDone(failed) => Some(WritePump.Action.WriteDone(failed, !s.pings))
    case PeerClose => Some(WritePump.Action.PeerClose)
    case Shutdown => Some(Close)
  }

  ghost function PumpActionsOf(s: Server, funcs: Bindings, acts: seq<Action>): seq<WritePump.Action<Push>>
    decreases |acts|
  {
    if acts == [] then []
    else
      var later := PumpActionsOf(Step(s, funcs, acts[0]), funcs, acts[1..]);
      match PumpActionOf(s, funcs, acts[0])
      case Some(b) => [b] + later
      case None => later
  }

  /** Reading ends with an error, or with the first message after a close frame. */
  predicate EndsReading(s: Server, a: Action) {
    a.ReadFailed? || (a.ReadMessage? && s.pump.flags.closeReceived)
  }

  predicate ReadingEnded(s: Server, funcs: Bindings, acts: seq<Action>)
    decreases |acts|
  {
    acts != [] && (EndsReading(s, acts[0]) || ReadingEnded(Step(s, funcs, acts[0]), funcs, acts[1..]))
  }

  ghost predicate PumpMoves(s: Server, funcs: Bindings, a: Action) {
    var s', b := Step(s, funcs, a), PumpActionOf(s, funcs, a);
    && s'.pump == (if b.Some? then WritePump.Step(s.pump, b.value) else s.pump)
    && s'.pings == s.pings
    && (s'.reading <==> s.reading && !EndsReading(s, a))
  }

  lemma ReadMovesPump(s: Server, funcs: Bindings, msg: Bytes, reply: Reply)
    requires s.boundClose || reply.close <==> CloseAskedBy(s.served, reply)
    ensures PumpMoves(s, funcs, ReadMessage(msg, reply))
  {
  }

  lemma RestMovesPump(s: Server, funcs: Bindings, a: Action)
    requires !a.ReadMessage?
    ensures PumpMoves(s, funcs, a)
  {
  }

  lemma StepMovesPump(s: Server, funcs: Bindings, a: Action)
    requires Inv(s)
    ensures PumpMoves(s, funcs, a)
  {
    if a.ReadMessage? {
      assert s.boundClose || a.reply.close <==> CloseAskedBy(s.served, a.reply);
      ReadMovesPump(s, funcs, a.msg, a.reply);
    } else {
      RestMovesPump(s, funcs, a);
    }
  }

  lemma PumpRunOn(p: Pump<Push>, b: WritePump.Action<Push>, later: seq<WritePump.Action<Push>>)
    ensures WritePump.Run(p, [b] + later) == WritePump.Run(WritePump.Step(p, b), later)
  {
    assert ([b] + later)[1..] == later;
  }

  lemma {:induction false} PumpRuns(s: Server, funcs: Bindings, acts: seq<Action>)
    requires Inv(s)
    ensures Run(s, funcs, acts).pump == WritePump.Run(s.pump, PumpActionsOf(s, funcs, acts))
    ensures Run(s, funcs, acts).reading <==> s.reading && !ReadingEnded(s, funcs, acts)
    decreases |acts|
  {
    if acts != [] {
      StepMovesPump(s, funcs, acts[0]);
      StepKeepsInv(s, funcs, acts[0]);
      PumpRuns(Step(s, funcs, acts[0]), funcs, acts[1..]);
      if PumpActionOf(s, funcs, acts[0]).Some? {
        PumpRunOn(s.pump, PumpActionOf(s, funcs, acts[0]).value,
                  PumpActionsOf(Step(s, funcs, acts[0]), funcs, acts[1..]));
      }
    }
  }

  /** A server session is a write pump with a reader: in every run its writes are what the pump does with the
      responses and broadcasts sent, and the errors and closes it meets; and it reads until a read fails or
      a message comes after a close frame. */
  lemma SessionIsPump(pings: bool, funcs: Bindings, acts: seq<Action>)
    ensures var s0 := NewServer(pings);
            && Run(s0, funcs, acts).pump == WritePump.Run(NewPump<Push>(), PumpActionsOf(s0, funcs, acts))
            && (Run(s0, funcs, acts).reading <==> !ReadingEnded(s0, funcs, acts))
  {
    NewServerKeepsInv(pings);
    PumpRuns(NewServer(pings), funcs, acts);
  }

  /** A handler that asks to close stops a session without pings at once, and leaves one with pings to its
      timer; either way reading goes on. */
  lemma BoundCloseTakesEffect(s: Server, funcs: Bindings, msg: Bytes, reply: Reply)
    requires Inv(s) && IsHeard(s) && ServedNow(s, funcs, msg, reply) == Called(reply)
    ensures var s' := Step(s, funcs, ReadMessage(msg, reply));
            && s'.reading && s'.boundClose == CloseAskedBy(s.served, reply)
            && (s'.pump.flags.close <==> s'.boundClose && !s.pings)
            && s'.pump.closes == if s'.pump.flags.close then 1 else 0
  {
    ReadKeepsInv(s, funcs, msg, reply);
    assert s.boundClose || reply.close <==> CloseAskedBy(s.served, reply);
  }

  /** `n` times the channel takes a message and its write completes. */
  function Drained(n: nat): seq<Action> {
    if n == 0 then [] else [Action.Deliver, Action.WriteDone(false)] + Drained(n - 1)
  }

  lemma RunTwo(s: Server, funcs: Bindings, a: Action, b: Action, rest: seq<Action>)
    ensures Run(s, funcs, [a, b] + rest) == Run(Step(Step(s, funcs, a), funcs, b), funcs, rest)
  {
    var acts := [a, b] + rest;
    assert acts[0] == a && acts[1..] == [b] + rest && acts[1..][0] == b && acts[1..][1..] == rest;
  }

  /** What was queued goes out: as long as writes complete without an error, a running session delivers
      every message on its queue. */
  lemma {:induction false} ResponsesGoOut(s: Server, funcs: Bindings)
    requires WritePump.Inv(s.pump) && !Stopped(s.pump.flags) && !s.pump.onWire
    ensures var q := Run(s, funcs, Drained(|s.pump.queue|)).pump;
            && q.queue == [] && q.flags == s.pump.flags
            && q.accepted == s.pump.accepted && q.sent == q.popped == |s.pump.accepted|
    decreases |s.pump.queue|
  {
    if s.pump.queue != [] {
      TransmitKeepsInv(s.pump);
      NextWriteKeepsInv(Transmit(s.pump), false, !s.pings);
      RunTwo(s, funcs, Action.Deliver, Action.WriteDone(false), Drained(|s.pump.queue| - 1));
      ResponsesGoOut(s.(pump := OnWrite(Transmit(s.pump), false, !s.pings)), funcs);
    }
  }

  /** A message shorter than a header changes no queue, flag or handler state. */
  lemma ShortMessageIgnored(s: Server, funcs: Bindings, msg: Bytes, reply: Reply)
    requires |msg| < HEADER_SIZE
    ensures OnRead(s, funcs, msg, reply)
         == s.(requests := s.requests + [msg], served := s.served + [NotCalled])
  {
  }
}
