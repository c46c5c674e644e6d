/** The write pump that client and server sessions share: a bounded send queue, of which the
    front entry is the one `async_write` in flight, and the flags that stop it. Both
    `client_session` and `server_session` run this code on their own message type. */
module WritePump {
  const QUEUE_SEND_MAX: nat := 500

  datatype Flags = Flags(close: bool, closeReceived: bool, writeError: bool, readError: bool)

  /** The pump's own state, then its history.
      - `writing`: an `async_write` was started and its handler has not run;
      - `onWire`: the message of that write has been delivered to the channel;
      - `accepted`: every entry ever put on the queue, in order;
      - `popped`, `dropped`: how many of them left by a good completion, by `clear`;
      - `sent`, `started`, `closes`: messages delivered, writes and closes started. */
  datatype Pump<E> = Pump(
    flags: Flags, queue: seq<E>, writing: bool, onWire: bool,
    accepted: seq<E>, popped: nat, dropped: nat, sent: nat, started: nat, closes: nat)

  function NewPump<E>(): Pump<E> {
    Pump(Flags(false, false, false, false), [], false, false, [], 0, 0, 0, 0, 0)
  }

  predicate Stopped(f: Flags) {
    f.close || f.closeReceived || f.writeError || f.readError
  }

  // ----- the code of the handlers -----

  /** `write`: starts an `async_write` of the front entry. */
  function StartWrite<E>(p: Pump<E>): Pump<E> {
    p.(writing := true, onWire := false, started := p.started + 1)
  }

  predicate Accepts<E>(p: Pump<E>) {
    !Stopped(p.flags) && |p.queue| < QUEUE_SEND_MAX
  }

  /** `handle_send` */
  function HandleSend<E>(p: Pump<E>, e: E): Pump<E> {
    if !Accepts(p) then p
    else
      var q := p.(queue := p.queue + [e], accepted := p.accepted + [e]);
      if |q.queue| > 1 then q else StartWrite(q)
  }

  /** `close_session` of the client, and `shutdown` of the server. */
  function CloseNow<E>(p: Pump<E>): Pump<E> {
    if p.flags.close || p.flags.closeReceived then p
    else p.(flags := p.flags.(close := true), closes := p.closes + 1)
  }

  /** A close frame was read. */
  function CloseFrame<E>(p: Pump<E>): Pump<E> {
    p.(flags := p.flags.(closeReceived := true))
  }

  /** A read ended in an error. Whether `close_session` closes at once is up to the session:
      a server session with pings leaves it to its timer. */
  function ReadFails<E>(p: Pump<E>, closesNow: bool): Pump<E> {
    var q := p.(flags := p.flags.(readError := true));
    if closesNow then CloseNow(q) else q
  }

  predicate WriteGivesUp<E>(p: Pump<E>, failed: bool) {
    failed || p.flags.close || p.flags.closeReceived || p.flags.readError
  }

  /** `on_write` */
  function OnWrite<E>(p: Pump<E>, failed: bool, closesNow: bool): Pump<E> {
    if WriteGivesUp(p, failed) then
      var q := p.(queue := [], dropped := p.dropped + |p.queue|, writing := false, onWire := false,
                  flags := p.flags.(writeError := true));
      if closesNow then CloseNow(q) else q
    else if p.queue == [] then p
    else
      var q := p.(queue := p.queue[1..], popped := p.popped + 1, writing := false, onWire := false);
      if q.queue == [] then q else StartWrite(q)
  }

  // ----- the environment -----

  /** The channel takes the whole message of the write in flight. */
  function Transmit<E>(p: Pump<E>): Pump<E> {
    p.(onWire := true, sent := p.sent + 1)
  }

  datatype Action<E> =
    | Send(e: E)
    | Deliver
    | WriteDone(failed: bool, closesNow: bool)
    | ReadError(closesNow: bool)
    | PeerClose
    | Close

  /** A write completes without an error only once its bytes are out; it may fail before or after. */
  predicate Enabled<E>(p: Pump<E>, a: Action<E>) {
    match a
    case Deliver => p.writing && !p.onWire
    case WriteDone(failed, _) => p.writing && (failed || p.onWire)
    case _ => true
  }

  function Step<E>(p: Pump<E>, a: Action<E>): Pump<E> {
    if !Enabled(p, a) then p else
    match a
    case Send(e) => HandleSend(p, e)
    case Deliver => Transmit(p)
    case WriteDone(failed, closesNow) => OnWrite(p, failed, closesNow)
    case ReadError(closesNow) => ReadFails(p, closesNow)
    case PeerClose => CloseFrame(p)
    case Close => CloseNow(p)
  }

  /** Any sequence of actions is a run; an action that is not enabled changes nothing. */
  function Run<E>(p: Pump<E>, acts: seq<Action<E>>): Pump<E>
    decreases |acts|
  {
    if acts == [] then p else Run(Step(p, acts[0]), acts[1..])
  }

  // ----- what every step keeps -----

  ghost predicate Inv<E>(p: Pump<E>) {
    // one write in flight exactly while something is queued, and it is the front entry
    && (p.writing <==> p.queue != [])
    && |p.queue| <= QUEUE_SEND_MAX
    && p.popped + p.dropped <= |p.accepted|
    && p.queue == p.accepted[p.popped + p.dropped..]
    // entries are dropped all at once and for good
    && (p.dropped > 0 ==> p.flags.writeError)
    && (p.flags.writeError ==> p.queue == [])
    // messages go out in the order of acceptance, the front one first
    && p.popped <= p.sent <= |p.accepted|
    && (!p.flags.writeError ==> p.sent == p.popped + if p.onWire then 1 else 0)
    && (p.flags.writeError ==> p.sent <= p.popped + 1)
    && (p.onWire ==> p.writing)
    && p.started == p.popped + (if p.writing || p.dropped > 0 then 1 else 0)
    && p.closes == (if p.flags.close then 1 else 0)
  }

  lemma NewPumpKeepsInv<E>()
    ensures Inv(NewPump<E>())
  {
  }

  lemma SendKeepsInv<E>(p: Pump<E>, e: E)
    requires Inv(p)
    ensures Inv(HandleSend(p, e))
  {
  }

  lemma CloseKeepsInv<E>(p: Pump<E>)
    requires Inv(p)
    ensures Inv(CloseNow(p)) && Inv(CloseFrame(p))
  {
  }

  lemma ReadFailsKeepsInv<E>(p: Pump<E>, closesNow: bool)
    requires Inv(p)
    ensures Inv(ReadFails(p, closesNow))
  {
    var q := ReadFails(p, false);
    ReadErrorKeepsInv(p);
    CloseKeepsInv(q);
  }

  lemma ReadErrorKeepsInv<E>(p: Pump<E>)
    requires Inv(p)
    ensures Inv(ReadFails(p, false))
  {
  }

  lemma TransmitKeepsInv<E>(p: Pump<E>)
    requires Inv(p) && p.writing && !p.onWire
    ensures Inv(Transmit(p))
  {
  }

  lemma GiveUpKeepsInv<E>(p: Pump<E>, failed: bool, closesNow: bool)
    requires Inv(p) && p.writing && WriteGivesUp(p, failed)
    ensures Inv(OnWrite(p, failed, closesNow))
  {
    CloseKeepsInv(OnWrite(p, failed, false));
  }

  lemma NextWriteKeepsInv<E>(p: Pump<E>, failed: bool, closesNow: bool)
    requires Inv(p) && p.writing && p.onWire && !WriteGivesUp(p, failed)
    ensures Inv(OnWrite(p, failed, closesNow))
  {
  }

  lemma StepKeepsInv<E>(p: Pump<E>, a: Action<E>)
    requires Inv(p)
    ensures Inv(Step(p, a))
  {
    if Enabled(p, a) {
      match a
      case Send(e) => SendKeepsInv(p, e);
      case Deliver => TransmitKeepsInv(p);
      case WriteDone(failed, closesNow) =>
        if WriteGivesUp(p, failed) {
          GiveUpKeepsInv(p, failed, closesNow);
        } else {
          NextWriteKeepsInv(p, failed, closesNow);
        }
      case ReadError(closesNow) => ReadFailsKeepsInv(p, closesNow);
      case _ => CloseKeepsInv(p);
    }
  }

  lemma QuietHistory<E>(p: Pump<E>, a: Action<E>)
    requires Enabled(p, a) && !a.Send?
    ensures Step(p, a).accepted == p.accepted
    ensures Step(p, a).sent == if a.Deliver? then p.sent + 1 else p.sent
  {
  }

  /** The write the channel serves next is the front entry, the first one not yet delivered. */
  lemma FrontIsNext<E>(p: Pump<E>)
    requires Inv(p) && p.writing && !p.onWire
    ensures p.sent < |p.accepted| && p.queue != [] && p.queue[0] == p.accepted[p.sent]
  {
  }

  /** Apart from `handle_send` no step accepts anything, and a delivery takes the front entry. */
  lemma QuietStep<E>(p: Pump<E>, a: Action<E>)
    requires Inv(p) && Enabled(p, a) && !a.Send?
    ensures Inv(Step(p, a))
    ensures Step(p, a).accepted == p.accepted
    ensures Step(p, a).sent == if a.Deliver? then p.sent + 1 else p.sent
    ensures a.Deliver? ==> p.sent < |p.accepted| && p.queue != [] && p.queue[0] == p.accepted[p.sent]
  {
    StepKeepsInv(p, a);
    QuietHistory(p, a);
    if a.Deliver? { FrontIsNext(p); }
  }

  lemma {:induction false} RunKeepsInv<E>(p: Pump<E>, acts: seq<Action<E>>)
    requires Inv(p)
    ensures Inv(Run(p, acts))
    decreases |acts|
  {
    if acts != [] {
      StepKeepsInv(p, acts[0]);
      RunKeepsInv(Step(p, acts[0]), acts[1..]);
    }
  }

  // ----- main results -----

  /** What the invariant says about order: the messages delivered are, in order and once each, the
      first accepted ones; those completed are a prefix of them, at most one shorter; what is still
      queued is a suffix; one write is in flight exactly while something is queued. */
  ghost predicate Fifo<E>(p: Pump<E>) {
    && p.popped <= p.sent <= p.popped + 1
    && p.sent <= |p.accepted|
    && p.popped + p.dropped <= |p.accepted|
    && p.accepted == p.accepted[..p.popped + p.dropped] + p.queue
    && (p.writing <==> p.queue != [])
    && |p.queue| <= QUEUE_SEND_MAX
    && (p.writing && !p.onWire ==> p.sent < |p.accepted| && p.queue[0] == p.accepted[p.sent])
  }

  lemma PumpIsFifo<E>(acts: seq<Action<E>>)
    ensures Fifo(Run(NewPump<E>(), acts))
  {
    NewPumpKeepsInv<E>();
    RunKeepsInv(NewPump<E>(), acts);
    InvGivesFifo(Run(NewPump<E>(), acts));
  }

  lemma InvGivesFifo<E>(p: Pump<E>)
    requires Inv(p)
    ensures Fifo(p)
  {
  }

  /** A write is only ever started when none is in flight. */
  lemma WritesNeverOverlap<E>(p: Pump<E>, a: Action<E>)
    requires Inv(p)
    ensures var q := Step(p, a);
            q.started <= p.started + 1 && (q.started > p.started ==> !p.writing || a.WriteDone?)
  {
  }

  ghost predicate Grown<E>(p: Pump<E>, q: Pump<E>) {
    && p.accepted <= q.accepted && p.popped <= q.popped && p.sent <= q.sent
    && p.started <= q.started && p.closes <= q.closes
    && (Stopped(p.flags) ==> Stopped(q.flags))
  }

  lemma StepGrows<E>(p: Pump<E>, a: Action<E>)
    ensures Grown(p, Step(p, a))
  {
  }

  lemma {:induction false} HistoryOnlyGrows<E>(p: Pump<E>, acts: seq<Action<E>>)
    ensures Grown(p, Run(p, acts))
    decreases |acts|
  {
    if acts != [] {
      StepGrows(p, acts[0]);
      HistoryOnlyGrows(Step(p, acts[0]), acts[1..]);
    }
  }

  lemma SilentStep<E>(p: Pump<E>, a: Action<E>)
    requires Inv(p) && Stopped(p.flags)
    ensures var q := Step(p, a);
            && Stopped(q.flags) && q.accepted == p.accepted && q.started == p.started
            && q.queue == if a.WriteDone? && Enabled(p, a) then [] else p.queue
  {
  }

  predicate Completes<E>(p: Pump<E>, acts: seq<Action<E>>)
    decreases |acts|
  {
    acts != [] && ((acts[0].WriteDone? && Enabled(p, acts[0])) || Completes(Step(p, acts[0]), acts[1..]))
  }

  /** Once a close was started or received, or an error latched, no write is ever started again and
      nothing is accepted; the queue stays what it is until the next write completion empties it,
      and is then empty for ever. */
  lemma {:induction false} SilenceAfterStop<E>(p: Pump<E>, acts: seq<Action<E>>)
    requires Inv(p) && Stopped(p.flags)
    ensures Run(p, acts).started == p.started
    ensures Run(p, acts).accepted == p.accepted
    ensures Run(p, acts).queue == if Completes(p, acts) then [] else p.queue
    decreases |acts|
  {
    if acts != [] {
      StepKeepsInv(p, acts[0]);
      SilentStep(p, acts[0]);
      SilenceAfterStop(Step(p, acts[0]), acts[1..]);
    }
  }

  /** A close is started at most once in any run, and not at all after one was received. */
  lemma OneCloseAtMost<E>(before: seq<Action<E>>, after: seq<Action<E>>)
    ensures var p := Run(NewPump<E>(), before);
            var q := Run(p, after);
            q.closes <= 1 && (p.flags.closeReceived ==> q.closes == p.closes)
  {
    var p := Run(NewPump<E>(), before);
    NewPumpKeepsInv<E>();
    RunKeepsInv(NewPump<E>(), before);
    RunKeepsInv(p, after);
    if p.flags.closeReceived {
      NoCloseAfterPeerClose(p, after);
    }
  }

  lemma {:induction false} NoCloseAfterPeerClose<E>(p: Pump<E>, acts: seq<Action<E>>)
    requires p.flags.closeReceived
    ensures Run(p, acts).closes == p.closes
    decreases |acts|
  {
    if acts != [] {
      NoCloseAfterPeerClose(Step(p, acts[0]), acts[1..]);
    }
  }

  // ----- what stops a pump -----

  /** A close, a close frame, a read error or a failed write. */
  predicate StopsNow<E>(p: Pump<E>, a: Action<E>) {
    a.Close? || a.PeerClose? || a.ReadError? || (a.WriteDone? && a.failed && p.writing)
  }

  predicate StopsOver<E>(p: Pump<E>, acts: seq<Action<E>>)
    decreases |acts|
  {
    acts != [] && (StopsNow(p, acts[0]) || StopsOver(Step(p, acts[0]), acts[1..]))
  }

  /** A close is asked for, or a session that closes at once sees a read error or the completion of a
      write that failed or came after a stop; no close frame was received before. */
  predicate ClosesNow<E>(p: Pump<E>, a: Action<E>) {
    !p.flags.closeReceived &&
    match a
    case Close => true
    case ReadError(closesNow) => closesNow
    case WriteDone(failed, closesNow) =>
      closesNow && p.writing && (failed || (p.onWire && (p.flags.close || p.flags.readError)))
    case _ => false
  }

  predicate ClosesOver<E>(p: Pump<E>, acts: seq<Action<E>>)
    decreases |acts|
  {
    acts != [] && (ClosesNow(p, acts[0]) || ClosesOver(Step(p, acts[0]), acts[1..]))
  }

  lemma StopsAtStep<E>(p: Pump<E>, a: Action<E>)
    ensures Stopped(Step(p, a).flags) <==> Stopped(p.flags) || StopsNow(p, a)
    ensures Step(p, a).flags.close <==> p.flags.close || ClosesNow(p, a)
  {
  }

  lemma {:induction false} StopsOverRun<E>(p: Pump<E>, acts: seq<Action<E>>)
    ensures Stopped(Run(p, acts).flags) <==> Stopped(p.flags) || StopsOver(p, acts)
    ensures Run(p, acts).flags.close <==> p.flags.close || ClosesOver(p, acts)
    decreases |acts|
  {
    if acts != [] {
      StopsAtStep(p, acts[0]);
      StopsOverRun(Step(p, acts[0]), acts[1..]);
    }
  }

  /** In every run a pump is stopped exactly when a close was asked for, a close frame came, a read ended in
      an error, or a write in flight failed; and it has started its one close exactly when it was asked
      to, or had to give up and closes at once, before any close frame came. */
  lemma StoppedIff<E>(acts: seq<Action<E>>)
    ensures var p := Run(NewPump<E>(), acts);
            && (Stopped(p.flags) <==> StopsOver(NewPump<E>(), acts))
            && p.closes == if ClosesOver(NewPump<E>(), acts) then 1 else 0
  {
    NewPumpKeepsInv<E>();
    RunKeepsInv(NewPump<E>(), acts);
    StopsOverRun(NewPump<E>(), acts);
  }

  // ----- the pump does pump -----

  function Sends<E>(entries: seq<E>): seq<Action<E>> {
    if entries == [] then [] else [Send(entries[0])] + Sends(entries[1..])
  }

  /** `n` times the channel takes the message and the write completes. */
  function Drain<E>(n: nat): seq<Action<E>> {
    if n == 0 then [] else [Deliver, WriteDone(false, false)] + Drain(n - 1)
  }

  lemma RunTwo<E>(p: Pump<E>, a: Action<E>, b: Action<E>, rest: seq<Action<E>>)
    ensures Run(p, [a, b] + rest) == Run(Step(Step(p, a), b), rest)
  {
    var acts := [a, b] + rest;
    assert acts[0] == a && acts[1..] == [b] + rest && acts[1..][0] == b && acts[1..][1..] == rest;
  }

  ghost predicate Took<E>(p: Pump<E>, q: Pump<E>, entries: seq<E>) {
    && q.flags == p.flags && q.onWire == p.onWire
    && q.accepted == p.accepted + entries && q.queue == p.queue + entries
  }

  lemma TakesOne<E>(p: Pump<E>, e: E)
    requires Inv(p) && Accepts(p)
    ensures Inv(HandleSend(p, e)) && Took(p, HandleSend(p, e), [e])
  {
    SendKeepsInv(p, e);
  }

  lemma TookOneAndMore<E>(p: Pump<E>, p': Pump<E>, q: Pump<E>, entries: seq<E>)
    requires entries != [] && Took(p, p', [entries[0]]) && Took(p', q, entries[1..])
    ensures Took(p, q, entries)
  {
    assert entries == [entries[0]] + entries[1..];
  }

  /** A running pump takes every entry there is room for. */
  lemma {:induction false} SendsAreAccepted<E>(p: Pump<E>, entries: seq<E>)
    requires Inv(p) && !Stopped(p.flags) && |p.queue| + |entries| <= QUEUE_SEND_MAX
    ensures Inv(Run(p, Sends(entries))) && Took(p, Run(p, Sends(entries)), entries)
    decreases |entries|
  {
    if entries != [] {
      var p' := HandleSend(p, entries[0]);
      TakesOne(p, entries[0]);
      assert Sends(entries)[1..] == Sends(entries[1..]);
      SendsAreAccepted(p', entries[1..]);
      TookOneAndMore(p, p', Run(p', Sends(entries[1..])), entries);
    }
  }

  /** As long as writes complete without an error, a running pump empties its queue: no entry gets stuck. */
  lemma {:induction false} PumpDrains<E>(p: Pump<E>)
    requires Inv(p) && !Stopped(p.flags) && !p.onWire
    ensures var q := Run(p, Drain(|p.queue|));
            && q.queue == [] && !q.writing && q.flags == p.flags
            && q.accepted == p.accepted && q.sent == q.popped == |p.accepted|
    decreases |p.queue|
  {
    if p.queue != [] {
      TransmitKeepsInv(p);
      NextWriteKeepsInv(Transmit(p), false, false);
      RunTwo(p, Deliver, WriteDone(false, false), Drain(|p.queue| - 1));
      PumpDrains(OnWrite(Transmit(p), false, false));
    }
  }

  /** From a fresh pump up to 500 messages handed over one after another all go out, in their order. */
  lemma WhatIsSentGoesOut<E>(entries: seq<E>)
    requires |entries| <= QUEUE_SEND_MAX
    ensures var p := Run(NewPump<E>(), Sends(entries));
            var q := Run(p, Drain(|entries|));
            && q.accepted == entries && q.sent == q.popped == |entries| && q.queue == []
  {
    NewPumpKeepsInv<E>();
    SendsAreAccepted(NewPump<E>(), entries);
    assert [] + entries == entries;
    PumpDrains(Run(NewPump<E>(), Sends(entries)));
  }
}
