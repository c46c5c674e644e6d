/** The composed system of `Rpc` runs its parts: projected to the server session, to the sending half of the
    client session with its promises, or to the table of pending responses, each of its runs is a run of
    that part's own machine. What is proved of a part alone therefore holds of it inside the whole. */
module Components {
  import opened Wrappers
  import opened Wire
  import opened Rpc
  import WritePump
  import ResponseCache
  import ClientCore
  import ServerCore

  // ----- the server session -----

  /** What `a` is to the server session: the front message of the channel is read, or a step of its own. */
  function ServerActionOf(s: Sys, a: Action): Option<ServerCore.Action> {
    match a
    case SrvRead(reply) =>
      if s.srv.reading && s.c2s != [] then Some(ServerCore.ReadMessage(s.c2s[0], reply)) else None
    case SrvDeliver => Some(ServerCore.Action.Deliver)
    case SrvOther(b) => if b.ReadMessage? || b.Deliver? then None else Some(b)
    case _ => None
  }

  ghost function ServerActionsOf(s: Sys, acts: seq<Action>): seq<ServerCore.Action>
    decreases |acts|
  {
    if acts == [] then []
    else
      var later := ServerActionsOf(Step(s, acts[0]), acts[1..]);
      match ServerActionOf(s, acts[0])
      case Some(b) => [b] + later
      case None => later
  }

  ghost predicate ServerMoves(s: Sys, a: Action) {
    var b := ServerActionOf(s, a);
    && Step(s, a).funcs == s.funcs
    && Step(s, a).srv == if b.Some? then ServerCore.Step(s.srv, s.funcs, b.value) else s.srv
  }

  lemma WritingIsQueued(s: Sys)
    requires Inv(s)
    ensures s.srv.pump.writing ==> s.srv.pump.queue != []
    ensures s.cli.writing ==> s.cli.queue != []
  {
  }

  lemma ServerStepMoves(s: Sys, a: Action)
    requires s.srv.pump.writing ==> s.srv.pump.queue != []
    requires a.SrvRead? || a.SrvDeliver? || a.SrvOther?
    ensures ServerMoves(s, a)
  {
  }

  lemma ClientMovesNoServer(s: Sys, a: Action)
    requires !a.SrvRead? && !a.SrvDeliver? && !a.SrvOther?
    ensures ServerMoves(s, a)
  {
  }

  lemma ServerRunOn(srv: ServerCore.Server, funcs: ServerCore.Bindings, b: ServerCore.Action, later: seq<ServerCore.Action>)
    ensures ServerCore.Run(srv, funcs, [b] + later) == ServerCore.Run(ServerCore.Step(srv, funcs, b), funcs, later)
  {
    assert ([b] + later)[1..] == later;
  }

  lemma {:induction false} ServerRuns(s: Sys, acts: seq<Action>)
    requires Inv(s)
    ensures Run(s, acts).srv == ServerCore.Run(s.srv, s.funcs, ServerActionsOf(s, acts))
    decreases |acts|
  {
    if acts != [] {
      var a := acts[0];
      WritingIsQueued(s);
      if a.SrvRead? || a.SrvDeliver? || a.SrvOther? {
        ServerStepMoves(s, a);
      } else {
        ClientMovesNoServer(s, a);
      }
      StepKeepsInv(s, a);
      ServerRuns(Step(s, a), acts[1..]);
      if ServerActionOf(s, a).Some? {
        ServerRunOn(s.srv, s.funcs, ServerActionOf(s, a).value, ServerActionsOf(Step(s, a), acts[1..]));
      }
    }
  }

  // ----- the sending half of the client session -----

  /** What `a` is to the client's pump and the promises: a call makes a promise, a timeout lets go of it, and a
      posted `handle_send` brings the call's own id and bytes; a close frame turns the next read into an error. */
  function SenderActionOf(s: Sys, a: Action): Option<ClientCore.Action> {
    match a
    case Invoke(_, _, _, _, _, _) => if s.cache.idCounter + 1 < U64_LIMIT then Some(ClientCore.MakePromise) else None
    case RunSend(t) =>
      if t in s.posted && t < |s.calls|
      then Some(ClientCore.Action.RunSend(ClientCore.Entry(s.calls[t].callId, s.calls[t].id, t, s.calls[t].body)))
      else None
    case SendTimeout(t) =>
      if t < |s.calls| && s.calls[t].phase == AwaitWritten && t < |s.promises| && s.promises[t].value == None
      then Some(ClientCore.DropPromise(t)) else None
    case CliDeliver => Some(ClientCore.Action.Deliver)
    case CliWriteDone(failed) => Some(ClientCore.Action.WriteDone(failed))
    case CliRead(_) =>
      if s.cliReading && s.s2c != [] && s.cli.flags.closeReceived then Some(ClientCore.Action.ReadError) else None
    case CliReadEnd => if s.cliReading then Some(ClientCore.Action.ReadError) else None
    case CliPeerClose => Some(ClientCore.Action.PeerClose)
    case CliClose => Some(ClientCore.Action.Close)
    case _ => None
  }

  ghost function SenderActionsOf(s: Sys, acts: seq<Action>): seq<ClientCore.Action>
    decreases |acts|
  {
    if acts == [] then []
    else
      var later := SenderActionsOf(Step(s, acts[0]), acts[1..]);
      match SenderActionOf(s, acts[0])
      case Some(b) => [b] + later
      case None => later
  }

  /** The sender is the client's; the calls whose `handle_send` ran will not run it again. */
  ghost predicate SameSender(s: Sys, d: ClientCore.Sender) {
    && d.pump == s.cli && d.promises == s.promises && |s.promises| == |s.calls|
    && forall t :: t in d.ran ==> t < |s.calls| && s.calls[t].phase != Prepared && t !in s.posted
  }

  ghost function SenderAfter(s: Sys, a: Action, d: ClientCore.Sender): ClientCore.Sender {
    var b := SenderActionOf(s, a);
    if b.Some? then ClientCore.Step(d, b.value) else d
  }

  lemma QueueHasCallers(s: Sys)
    requires Inv(s)
    ensures forall k :: 0 <= k < |s.cli.queue| ==> s.cli.queue[k].caller < |s.promises|
    ensures forall t :: t in s.posted ==> t < |s.calls|
  {
    var p := s.cli;
    forall k | 0 <= k < |p.queue| ensures p.queue[k].caller < |s.promises| {
      assert p.queue[k] == p.accepted[p.popped + p.dropped + k];
    }
  }

  lemma CallerMovesSender(s: Sys, a: Action, d: ClientCore.Sender)
    requires SameSender(s, d) && (forall t :: t in s.posted ==> t < |s.calls|)
    requires a.Invoke? || a.PostSend? || a.SendTimeout?
    ensures SameSender(Step(s, a), SenderAfter(s, a, d))
  {
  }

  lemma WaiterMovesNoSender(s: Sys, a: Action, d: ClientCore.Sender)
    requires SameSender(s, d)
    requires a.SeeWritten? || a.StartWait? || a.EndWait? || a.TakeBuffer?
    ensures SameSender(Step(s, a), SenderAfter(s, a, d))
  {
  }

  lemma SendMovesSender(s: Sys, t: nat, d: ClientCore.Sender)
    requires SameSender(s, d)
    requires t in s.posted && t < |s.calls| ==> s.calls[t].phase != Prepared
    ensures SameSender(Step(s, Action.RunSend(t)), SenderAfter(s, Action.RunSend(t), d))
  {
    if t in s.posted && t < |s.calls| {
      assert CallEntry(s, t) == ClientCore.Entry(s.calls[t].callId, s.calls[t].id, t, s.calls[t].body);
    }
  }

  lemma IoMovesSender(s: Sys, a: Action, d: ClientCore.Sender)
    requires SameSender(s, d) && (s.cli.writing ==> s.cli.queue != [])
    requires forall k :: 0 <= k < |s.cli.queue| ==> s.cli.queue[k].caller < |s.promises|
    requires a.CliDeliver? || a.CliWriteDone? || a.CliRead? || a.CliReadEnd? || a.CliPeerClose? || a.CliClose?
    ensures SameSender(Step(s, a), SenderAfter(s, a, d))
  {
  }

  lemma ServerMovesNoSender(s: Sys, a: Action, d: ClientCore.Sender)
    requires SameSender(s, d) && (a.SrvRead? || a.SrvDeliver? || a.SrvOther?)
    ensures SameSender(Step(s, a), SenderAfter(s, a, d))
  {
  }

  lemma PostedIsNotPrepared(s: Sys, t: nat)
    requires Inv(s) && t in s.posted
    ensures t < |s.calls| && s.calls[t].phase != Prepared
  {
  }

  lemma StepMovesSender(s: Sys, a: Action, d: ClientCore.Sender)
    requires Inv(s) && SameSender(s, d)
    ensures SameSender(Step(s, a), SenderAfter(s, a, d))
  {
    QueueHasCallers(s);
    WritingIsQueued(s);
    if a.Invoke? || a.PostSend? || a.SendTimeout? {
      CallerMovesSender(s, a, d);
    } else if a.RunSend? {
      if a.t in s.posted {
        PostedIsNotPrepared(s, a.t);
      }
      SendMovesSender(s, a.t, d);
    } else if a.SrvRead? || a.SrvDeliver? || a.SrvOther? {
      ServerMovesNoSender(s, a, d);
    } else if a.SeeWritten? || a.StartWait? || a.EndWait? || a.TakeBuffer? {
      WaiterMovesNoSender(s, a, d);
    } else {
      IoMovesSender(s, a, d);
    }
  }

  lemma SenderRunOn(d: ClientCore.Sender, b: ClientCore.Action, later: seq<ClientCore.Action>)
    ensures ClientCore.Run(d, [b] + later) == ClientCore.Run(ClientCore.Step(d, b), later)
  {
    assert ([b] + later)[1..] == later;
  }

  lemma {:induction false} SenderRuns(s: Sys, acts: seq<Action>, d: ClientCore.Sender)
    requires Inv(s) && SameSender(s, d)
    ensures SameSender(Run(s, acts), ClientCore.Run(d, SenderActionsOf(s, acts)))
    decreases |acts|
  {
    if acts != [] {
      var a := acts[0];
      StepMovesSender(s, a, d);
      StepKeepsInv(s, a);
      SenderRuns(Step(s, a), acts[1..], SenderAfter(s, a, d));
      if SenderActionOf(s, a).Some? {
        SenderRunOn(d, SenderActionOf(s, a).value, SenderActionsOf(Step(s, a), acts[1..]));
      }
    }
  }

  // ----- the table of pending responses -----

  /** What `a` is to the table: a call with a response queues its row, waits on it, and takes its bytes; a
      message that no broadcast handler claims is swapped into the row it names, and obsolete rows go after
      every message; the end of reading clears it. */
  function CacheActionsAt(s: Sys, a: Action): seq<ResponseCache.Action> {
    match a
    case Invoke(_, _, recv, _, now, valid) =>
      if recv && s.cache.idCounter + 1 < U64_LIMIT then [ResponseCache.DoQueue(now, valid)] else []
    case StartWait(t) =>
      if t < |s.calls| && s.calls[t].phase == AwaitResponse then [ResponseCache.DoLookup(s.calls[t].id)] else []
    case TakeBuffer(t) =>
      if t < |s.calls| && s.calls[t].phase.Taking? then [ResponseCache.DoTake(s.calls[t].id, s.calls[t].buffer)] else []
    case CliRead(now) =>
      if !s.cliReading || s.s2c == [] then []
      else if s.cli.flags.closeReceived then [ResponseCache.DoClear]
      else if Split(s.s2c[0]).Message? && Split(s.s2c[0]).header.callId !in s.listens
      then [ResponseCache.DoSwap(Split(s.s2c[0]).header.resultId, Split(s.s2c[0]).body)] + [ResponseCache.DoObsolete(now)]
      else [ResponseCache.DoObsolete(now)]
    case CliReadEnd => if s.cliReading then [ResponseCache.DoClear] else []
    case _ => []
  }

  ghost function CacheActionsOf(s: Sys, acts: seq<Action>): seq<ResponseCache.Action>
    decreases |acts|
  {
    if acts == [] then [] else CacheActionsAt(s, acts[0]) + CacheActionsOf(Step(s, acts[0]), acts[1..])
  }

  lemma {:induction false} CacheRunOn(c: ResponseCache.Traced, a: seq<ResponseCache.Action>, b: seq<ResponseCache.Action>)
    ensures ResponseCache.Run(c, a + b) == ResponseCache.Run(ResponseCache.Run(c, a), b)
    decreases |a|
  {
    if a == [] {
      assert a + b == b;
    } else {
      assert (a + b)[1..] == a[1..] + b;
      CacheRunOn(ResponseCache.Step(c, a[0]), a[1..], b);
    }
  }

  lemma OneCacheAction(c: ResponseCache.Traced, a: ResponseCache.Action)
    ensures ResponseCache.Run(c, [a]) == ResponseCache.Step(c, a)
  {
    assert [a][1..] == [];
    assert ResponseCache.Run(c, [a]) == ResponseCache.Run(ResponseCache.Step(c, a), []);
  }

  lemma CallMovesCache(s: Sys, a: Action, c: ResponseCache.Traced)
    requires c.cache == s.cache && (a.Invoke? || a.StartWait? || a.TakeBuffer?)
    ensures ResponseCache.Run(c, CacheActionsAt(s, a)).cache == Step(s, a).cache
  {
    var bs := CacheActionsAt(s, a);
    if bs != [] {
      assert bs == [bs[0]];
      OneCacheAction(c, bs[0]);
    }
  }

  lemma ReadMovesCache(s: Sys, a: Action, c: ResponseCache.Traced)
    requires c.cache == s.cache && (a.CliRead? || a.CliReadEnd?)
    ensures ResponseCache.Run(c, CacheActionsAt(s, a)).cache == Step(s, a).cache
  {
    var bs := CacheActionsAt(s, a);
    if |bs| == 1 {
      assert bs == [bs[0]];
      OneCacheAction(c, bs[0]);
    } else if |bs| == 2 {
      assert bs == [bs[0]] + [bs[1]];
      CacheRunOn(c, [bs[0]], [bs[1]]);
      OneCacheAction(c, bs[0]);
      OneCacheAction(ResponseCache.Step(c, bs[0]), bs[1]);
    }
  }

  lemma RestMovesNoCache(s: Sys, a: Action)
    requires !a.Invoke? && !a.StartWait? && !a.TakeBuffer? && !a.CliRead? && !a.CliReadEnd?
    ensures Step(s, a).cache == s.cache && CacheActionsAt(s, a) == []
  {
  }

  lemma {:induction false} CacheRuns(s: Sys, acts: seq<Action>, c: ResponseCache.Traced)
    requires c.cache == s.cache
    ensures ResponseCache.Run(c, CacheActionsOf(s, acts)).cache == Run(s, acts).cache
    decreases |acts|
  {
    if acts != [] {
      var a := acts[0];
      if a.Invoke? || a.StartWait? || a.TakeBuffer? {
        CallMovesCache(s, a, c);
      } else if a.CliRead? || a.CliReadEnd? {
        ReadMovesCache(s, a, c);
      } else {
        RestMovesNoCache(s, a);
      }
      var bs, later := CacheActionsAt(s, a), CacheActionsOf(Step(s, a), acts[1..]);
      CacheRunOn(c, bs, later);
      CacheRuns(Step(s, a), acts[1..], ResponseCache.Run(c, bs));
    }
  }

  // ----- until when the client reads -----

  /** Reading ends with an error, or with the first message after a close frame. */
  predicate EndsReading(s: Sys, a: Action) {
    a.CliReadEnd? || (a.CliRead? && s.s2c != [] && s.cli.flags.closeReceived)
  }

  ghost predicate ReadingEnded(s: Sys, acts: seq<Action>)
    decreases |acts|
  {
    acts != [] && (EndsReading(s, acts[0]) || ReadingEnded(Step(s, acts[0]), acts[1..]))
  }

  lemma ReadingAtStep(s: Sys, a: Action)
    ensures Step(s, a).cliReading <==> s.cliReading && !EndsReading(s, a)
  {
  }

  lemma {:induction false} ReadsUntilEnded(s: Sys, acts: seq<Action>)
    ensures Run(s, acts).cliReading <==> s.cliReading && !ReadingEnded(s, acts)
    decreases |acts|
  {
    if acts != [] {
      ReadingAtStep(s, acts[0]);
      ReadsUntilEnded(Step(s, acts[0]), acts[1..]);
    }
  }

  // ----- main result -----

  /** The parts of `s` are where the machines of the parts get by the actions of this run. */
  ghost predicate RunsItsParts(s: Sys, funcs: ServerCore.Bindings, pings: bool, srv: seq<ServerCore.Action>,
                               cli: seq<ClientCore.Action>, cache: seq<ResponseCache.Action>)
  {
    && s.srv == ServerCore.Run(ServerCore.NewServer(pings), funcs, srv)
    && s.cli == ClientCore.Run(ClientCore.NewSender(), cli).pump
    && s.promises == ClientCore.Run(ClientCore.NewSender(), cli).promises
    && s.cache == ResponseCache.Run(ResponseCache.Fresh(500), cache).cache
  }

  /** In every run, with any number of callers: the server session, the client's sends with their promises,
      and the table each do what their own machines do by themselves. */
  lemma SystemRunsItsParts(listens: set<U32>, funcs: ServerCore.Bindings, pings: bool, acts: seq<Action>)
    ensures var s0 := Init(listens, funcs, pings);
            RunsItsParts(Run(s0, acts), funcs, pings, ServerActionsOf(s0, acts), SenderActionsOf(s0, acts),
                         CacheActionsOf(s0, acts))
  {
    var s0 := Init(listens, funcs, pings);
    InitKeepsInv(listens, funcs, pings);
    ServerRuns(s0, acts);
    SenderRuns(s0, acts, ClientCore.NewSender());
    CacheRuns(s0, acts, ResponseCache.Fresh(500));
  }
}
