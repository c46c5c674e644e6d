/** The keepalive and close machine of a server session: a timer that pings an idle peer, and shuts the
    session down when the peer stays silent or a handler asked to close. Ping, pong and close are the
    control frames of sections 5.5.1 to 5.5.3 of RFC 6455. Times are in nanoseconds. */
module Keepalive {
  datatype PingState = PingNext | PingSend | PingClose

  datatype FrameKind = CloseFrame | PingFrame | PongFrame

  /** How a timer wait ended. A wait that was rescheduled ends as aborted; one whose completion was
      already on its way ends as expired although the deadline has moved. */
  datatype WaitResult = Expired | Aborted | Failed

  /** `waits` counts the timer handlers that have not run. History: `pings` and `shutdowns` started,
      `controls` the control frames seen other than close, `expiries` the handlers that found the
      deadline passed; `lastPing` and `controlsAtPing` describe the last ping. */
  datatype Keepalive = Keepalive(
    pingDelay: nat, pingState: PingState, expiry: int, waits: nat, open: bool,
    close: bool, closeReceived: bool, now: int,
    pings: nat, shutdowns: nat, controls: nat, expiries: nat, lastPing: int, controlsAtPing: nat)

  function New(pingDelay: nat, now: int): Keepalive {
    Keepalive(pingDelay, PingNext, now, 0, true, false, false, now, 0, 0, 0, 0, now, 0)
  }

  function StartWait(k: Keepalive): Keepalive {
    k.(expiry := k.now + k.pingDelay, waits := k.waits + 1)
  }

  /** `on_accept`, as far as the timer goes. */
  function OnAccept(k: Keepalive): Keepalive {
    if k.pingDelay != 0 then StartWait(k) else k
  }

  function Shutdown(k: Keepalive): Keepalive {
    if k.close || k.closeReceived then k else k.(close := true, shutdowns := k.shutdowns + 1)
  }

  /** `close_session`: with pings the timer is made to expire at once, and its handler closes. */
  function CloseSession(k: Keepalive): Keepalive {
    if k.pingDelay != 0 then k.(pingState := PingClose, expiry := k.now) else Shutdown(k)
  }

  /** `on_timer`; `lag` passes before the timer is set again. */
  function OnTimer(k: Keepalive, result: WaitResult, lag: nat): Keepalive
    requires k.waits > 0
  {
    var w := k.(waits := k.waits - 1);
    if result == Failed then w
    else if w.expiry > w.now then StartWait(w.(now := w.now + lag))
    else
      var e := w.(expiries := w.expiries + 1);
      if e.open && e.pingState == PingNext then
        StartWait(e.(pingState := PingSend, pings := e.pings + 1, lastPing := e.now,
                     controlsAtPing := e.controls, now := e.now + lag))
      else Shutdown(e)
  }

  /** `on_control_callback` */
  function OnControl(k: Keepalive, kind: FrameKind): Keepalive {
    if kind == CloseFrame then k.(closeReceived := true)
    else k.(pingState := PingNext, expiry := k.now + k.pingDelay, controls := k.controls + 1)
  }

  datatype Action =
    | Tick(elapsed: nat)
    | Timer(result: WaitResult, lag: nat)
    | Control(kind: FrameKind)
    | RequestClose
    | StreamCloses

  function Step(k: Keepalive, a: Action): Keepalive {
    match a
    case Tick(elapsed) => k.(now := k.now + elapsed)
    case Timer(result, lag) => if k.waits > 0 then OnTimer(k, result, lag) else k
    case Control(kind) => OnControl(k, kind)
    case RequestClose => CloseSession(k)
    case StreamCloses => k.(open := false)
  }

  function Run(k: Keepalive, acts: seq<Action>): Keepalive
    decreases |acts|
  {
    if acts == [] then k else Run(Step(k, acts[0]), acts[1..])
  }

  /** A ping unanswered so far is at least `pingDelay` old when the timer expires. */
  ghost predicate Inv(k: Keepalive) {
    && k.waits <= 1
    && k.lastPing <= k.now
    && (k.pingState == PingSend ==> k.expiry >= k.lastPing + k.pingDelay && k.controlsAtPing == k.controls)
    && k.shutdowns == (if k.close then 1 else 0)
  }

  lemma StepKeepsInv(k: Keepalive, a: Action)
    requires Inv(k)
    ensures Inv(Step(k, a)) && Step(k, a).pingDelay == k.pingDelay
  {
  }

  lemma AcceptedKeepsInv(pingDelay: nat, now: int)
    ensures Inv(OnAccept(New(pingDelay, now)))
  {
  }

  /** A handler that runs when the clock shows `now`. */
  lemma StepLaterKeepsInv(k: Keepalive, now: int, a: Action)
    requires Inv(k) && k.now <= now
    ensures Inv(k.(now := now)) && Inv(Step(k.(now := now), a))
  {
    StepKeepsInv(k, Tick(now - k.now));
    StepKeepsInv(k.(now := now), a);
  }

  lemma {:induction false} RunKeepsInv(k: Keepalive, acts: seq<Action>)
    requires Inv(k)
    ensures Inv(Run(k, acts)) && Run(k, acts).pingDelay == k.pingDelay
    decreases |acts|
  {
    if acts != [] {
      StepKeepsInv(k, acts[0]);
      RunKeepsInv(Step(k, acts[0]), acts[1..]);
    }
  }

  /** With pings enabled, in every run at most one timer handler is outstanding, a close is started at
      most once, and a shutdown that the timer takes from state `PingSend` on an open stream comes at
      least `pingDelay` after the last ping with no control frame in between. */
  lemma TimeoutIsJustified(pingDelay: nat, start: int, acts: seq<Action>, result: WaitResult, lag: nat)
    requires pingDelay != 0
    ensures var k := Run(OnAccept(New(pingDelay, start)), acts);
            var k' := Step(k, Timer(result, lag));
            && k.waits <= 1 && k'.waits <= 1 && k'.shutdowns <= 1
            && (k.pingState == PingSend && k.open && k'.shutdowns > k.shutdowns ==>
                  && k.now >= k.lastPing + pingDelay
                  && k.controls == k.controlsAtPing && !k.closeReceived)
  {
    var k0 := OnAccept(New(pingDelay, start));
    RunKeepsInv(k0, acts);
    StepKeepsInv(Run(k0, acts), Timer(result, lag));
  }

  predicate Silent(acts: seq<Action>) {
    forall i :: 0 <= i < |acts| ==> !acts[i].Control?
  }

  /** While the peer sends no control frame: no expiry yet, or one and a ping or a close on its way, or closed. */
  ghost predicate SilentInv(k: Keepalive) {
    && !k.closeReceived
    && (k.expiries == 0 || k.close || (k.expiries == 1 && k.pingState != PingNext))
    && (k.close ==> k.waits == 0)
    && k.waits <= 1
  }

  lemma {:induction false} SilentRun(k: Keepalive, acts: seq<Action>)
    requires SilentInv(k) && k.pingDelay != 0 && Silent(acts)
    ensures SilentInv(Run(k, acts))
    decreases |acts|
  {
    if acts != [] {
      var k' := Step(k, acts[0]);
      assert !acts[0].Control?;
      assert SilentInv(k') && k'.pingDelay != 0;
      SilentRun(k', acts[1..]);
    }
  }

  /** A peer that never sends a control frame is shut down by the second expiry of the timer at the latest. */
  lemma SilentPeerIsShutDown(pingDelay: nat, start: int, acts: seq<Action>)
    requires pingDelay != 0 && Silent(acts)
    requires Run(OnAccept(New(pingDelay, start)), acts).expiries >= 2
    ensures Run(OnAccept(New(pingDelay, start)), acts).close
  {
    SilentRun(OnAccept(New(pingDelay, start)), acts);
  }

  // ----- the timer goes on -----

  /** The handler that ends the chain of timer waits: the wait failed, or the deadline has passed and the
      stream is gone, a ping is unanswered or a close was requested. */
  predicate EndsTimer(k: Keepalive, a: Action) {
    a.Timer? && (a.result == Failed || (k.expiry <= k.now && !(k.open && k.pingState == PingNext)))
  }

  predicate TimerEnded(k: Keepalive, acts: seq<Action>)
    decreases |acts|
  {
    acts != [] && (EndsTimer(k, acts[0]) || TimerEnded(Step(k, acts[0]), acts[1..]))
  }

  /** While the timer goes on, it is set to expire within `pingDelay`. */
  ghost predicate Armed(k: Keepalive) {
    k.pingDelay != 0 && k.waits == 1 && k.expiry <= k.now + k.pingDelay
  }

  lemma ArmedAtStep(k: Keepalive, a: Action)
    requires Armed(k)
    ensures if EndsTimer(k, a) then Step(k, a).waits == 0 else Armed(Step(k, a))
  {
  }

  lemma {:induction false} NoTimerComesBack(k: Keepalive, acts: seq<Action>)
    requires k.waits == 0
    ensures Run(k, acts).waits == 0
    decreases |acts|
  {
    if acts != [] {
      NoTimerComesBack(Step(k, acts[0]), acts[1..]);
    }
  }

  lemma {:induction false} ArmedOverRun(k: Keepalive, acts: seq<Action>)
    requires Armed(k)
    ensures if TimerEnded(k, acts) then Run(k, acts).waits == 0 else Armed(Run(k, acts))
    decreases |acts|
  {
    if acts != [] {
      ArmedAtStep(k, acts[0]);
      if EndsTimer(k, acts[0]) {
        NoTimerComesBack(Step(k, acts[0]), acts[1..]);
      } else {
        ArmedOverRun(Step(k, acts[0]), acts[1..]);
      }
    }
  }

  /** What a timer handler does when it runs in state `k`. */
  ghost predicate HandlerDecides(k: Keepalive, result: WaitResult, lag: nat) {
    var k', passed := Step(k, Timer(result, lag)), k.expiry <= k.now;
    // it pings once, exactly if the deadline has passed, the stream is open and nothing is pending
    && k'.pings == k.pings + (if result != Failed && passed && k.open && k.pingState == PingNext then 1 else 0)
    && (k'.pings > k.pings ==> k'.pingState == PingSend && k'.lastPing == k.now)
    && (k'.pings == k.pings ==> k'.pingState == k.pingState && k'.lastPing == k.lastPing)
    // it sets the timer again, unless it ends
    && (!EndsTimer(k, Timer(result, lag)) ==>
          k'.waits == 1 && k'.now == k.now + lag && k'.expiry == k'.now + k.pingDelay && k'.close == k.close)
    // it ends by a shutdown, or by a failed wait, which does nothing
    && (EndsTimer(k, Timer(result, lag)) && result != Failed ==> k'.waits == 0 && (k'.close || k'.closeReceived))
    && (result == Failed ==> k' == k.(waits := 0))
  }

  lemma ArmedDecides(k: Keepalive, result: WaitResult, lag: nat)
    requires Armed(k)
    ensures HandlerDecides(k, result, lag)
  {
  }

  /** The timer is never forgotten. With pings, in every run, one wait is outstanding, and set to expire
      within `pingDelay`, until a handler ends the chain; and every handler up to then decides as above. */
  lemma TimerGoesOn(pingDelay: nat, start: int, acts: seq<Action>, result: WaitResult, lag: nat)
    requires pingDelay != 0
    ensures var k0 := OnAccept(New(pingDelay, start));
            var k := Run(k0, acts);
            && k.waits == (if TimerEnded(k0, acts) then 0 else 1)
            && (!TimerEnded(k0, acts) ==> k.expiry <= k.now + pingDelay && HandlerDecides(k, result, lag))
  {
    var k0 := OnAccept(New(pingDelay, start));
    ArmedOverRun(k0, acts);
    RunKeepsInv(k0, acts);
    if !TimerEnded(k0, acts) {
      ArmedDecides(Run(k0, acts), result, lag);
    }
  }

  function Twice(first: nat, result1: WaitResult, lag1: nat, second: nat, result2: WaitResult, lag2: nat): seq<Action> {
    [Tick(first), Timer(result1, lag1), Tick(second), Timer(result2, lag2)]
  }

  lemma TwiceRuns(k: Keepalive, first: nat, result1: WaitResult, lag1: nat, second: nat, result2: WaitResult, lag2: nat)
    ensures Run(k, Twice(first, result1, lag1, second, result2, lag2))
         == Step(Step(Step(Step(k, Tick(first)), Timer(result1, lag1)), Tick(second)), Timer(result2, lag2))
  {
    var acts := Twice(first, result1, lag1, second, result2, lag2);
    assert acts[1..][1..] == [Tick(second), Timer(result2, lag2)];
    assert acts[1..][1..][1..] == [Timer(result2, lag2)] && acts[1..][1..][1..][1..] == [];
    var k2 := Step(Step(k, Tick(first)), Timer(result1, lag1));
    var k3 := Step(k2, Tick(second));
    assert Run(k, acts) == Run(Step(k, acts[0]), acts[1..]) == Run(k2, acts[1..][1..]) == Run(k3, acts[1..][1..][1..]);
    assert Run(k3, [Timer(result2, lag2)]) == Run(Step(k3, Timer(result2, lag2)), []);
  }

  /** A dead peer is found: from any point of any run at which the timer still goes, two handlers that
      come `pingDelay` or more after what went before, with no control frame in between, shut down. */
  lemma DeadPeerIsShutDown(pingDelay: nat, start: int, acts: seq<Action>, first: nat, result1: WaitResult, lag1: nat,
                           second: nat, result2: WaitResult, lag2: nat)
    requires pingDelay != 0 && first >= pingDelay && second >= pingDelay
    requires result1 != Failed && result2 != Failed
    requires !TimerEnded(OnAccept(New(pingDelay, start)), acts)
    ensures var k := Run(Run(OnAccept(New(pingDelay, start)), acts), Twice(first, result1, lag1, second, result2, lag2));
            (k.close || k.closeReceived) && k.waits == 0
  {
    var k0 := OnAccept(New(pingDelay, start));
    ArmedOverRun(k0, acts);
    RunKeepsInv(k0, acts);
    TwiceRuns(Run(k0, acts), first, result1, lag1, second, result2, lag2);
    TwoHandlers(Run(k0, acts), first, result1, lag1, second, result2, lag2);
  }

  lemma TwoHandlers(k: Keepalive, first: nat, result1: WaitResult, lag1: nat, second: nat, result2: WaitResult, lag2: nat)
    requires Armed(k) && first >= k.pingDelay && second >= k.pingDelay && result1 != Failed && result2 != Failed
    ensures var k' := Step(Step(Step(Step(k, Tick(first)), Timer(result1, lag1)), Tick(second)), Timer(result2, lag2));
            (k'.close || k'.closeReceived) && k'.waits == 0
  {
  }

  /** Nobody asks to close, the stream stays open, and whenever a timer handler runs the last ping has been
      followed by a ping or pong or is younger than `pingDelay`. */
  ghost predicate AnswersInTime(k: Keepalive, acts: seq<Action>)
    decreases |acts|
  {
    acts != [] ==>
      && !acts[0].RequestClose? && !acts[0].StreamCloses?
      && (acts[0].Timer? ==> k.pings == 0 || k.controls > k.controlsAtPing || k.now < k.lastPing + k.pingDelay)
      && AnswersInTime(Step(k, acts[0]), acts[1..])
  }

  ghost predicate Healthy(k: Keepalive) {
    && Inv(k) && k.open && !k.close && k.pingState != PingClose && (k.pingState == PingSend ==> k.pings > 0)
  }

  lemma {:induction false} HealthyOverRun(k: Keepalive, acts: seq<Action>)
    requires Healthy(k) && AnswersInTime(k, acts)
    ensures Healthy(Run(k, acts))
    decreases |acts|
  {
    if acts != [] {
      StepKeepsInv(k, acts[0]);
      HealthyOverRun(Step(k, acts[0]), acts[1..]);
    }
  }

  /** A peer that answers every ping in time is never shut down. */
  lemma LivePeerIsKept(pingDelay: nat, start: int, acts: seq<Action>)
    requires pingDelay != 0 && AnswersInTime(OnAccept(New(pingDelay, start)), acts)
    ensures var k := Run(OnAccept(New(pingDelay, start)), acts);
            !k.close && k.shutdowns == 0
  {
    HealthyOverRun(OnAccept(New(pingDelay, start)), acts);
  }

  /** A request to close comes before any close frame. */
  predicate RequestComesFirst(acts: seq<Action>) {
    acts != [] && acts[0] != Control(CloseFrame) && (acts[0].RequestClose? || RequestComesFirst(acts[1..]))
  }

  lemma {:induction false} WithoutTimer(k: Keepalive, acts: seq<Action>)
    requires k.pingDelay == 0 && k.waits == 0
    ensures var r := Run(k, acts);
            && r.waits == 0 && r.pings == k.pings
            && (r.close <==> k.close || (!k.closeReceived && RequestComesFirst(acts)))
    decreases |acts|
  {
    if acts != [] {
      WithoutTimer(Step(k, acts[0]), acts[1..]);
    }
  }

  /** Without pings there is no timer, and a session is closed exactly when it is asked to before the peer
      closes. */
  lemma WithoutPingsClosesAtOnce(start: int, acts: seq<Action>)
    ensures var k := Run(OnAccept(New(0, start)), acts);
            k.waits == 0 && k.pings == 0 && (k.close <==> RequestComesFirst(acts))
  {
    WithoutTimer(OnAccept(New(0, start)), acts);
  }

  // ----- a requested close need not happen -----

  /** No timer handler runs. */
  predicate BetweenTimers(acts: seq<Action>) {
    forall i :: 0 <= i < |acts| ==> !acts[i].Timer?
  }

  /** A ping or a pong: a control frame other than close. */
  predicate IsHeartbeat(a: Action) {
    a.Control? && a.kind != CloseFrame
  }

  predicate SeesCloseFrame(acts: seq<Action>) {
    exists i :: 0 <= i < |acts| && acts[i] == Control(CloseFrame)
  }

  predicate StreamGoes(acts: seq<Action>) {
    exists i :: 0 <= i < |acts| && acts[i] == StreamCloses
  }

  /** After a request to close and then `acts`: the last of requests, pings and pongs is a request. */
  predicate RequestIsLast(acts: seq<Action>)
    decreases |acts|
  {
    if acts == [] then true
    else
      var last, before := acts[|acts| - 1], acts[..|acts| - 1];
      last.RequestClose? || (!IsHeartbeat(last) && RequestIsLast(before))
  }

  /** The time that passes after the last ping or pong. */
  function SinceHeartbeat(acts: seq<Action>): nat
    decreases |acts|
  {
    if acts == [] then 0
    else
      var last, before := acts[|acts| - 1], acts[..|acts| - 1];
      if IsHeartbeat(last) then 0
      else SinceHeartbeat(before) + if last.Tick? then last.elapsed else 0
  }

  lemma {:induction false} RunLast(k: Keepalive, acts: seq<Action>, last: Action)
    ensures Run(k, acts + [last]) == Step(Run(k, acts), last)
    decreases |acts|
  {
    if acts == [] {
      assert acts + [last] == [last] && [last][1..] == [];
      assert Run(k, [last]) == Run(Step(k, last), []);
    } else {
      assert (acts + [last])[1..] == acts[1..] + [last];
      RunLast(Step(k, acts[0]), acts[1..], last);
    }
  }

  /** What the timer handler will find. */
  ghost predicate Found(k: Keepalive, acts: seq<Action>, r: Keepalive) {
    && r.pingDelay == k.pingDelay && r.waits == k.waits && r.close == k.close
    && r.closeReceived == (k.closeReceived || SeesCloseFrame(acts))
    && r.open == (k.open && !StreamGoes(acts))
    && r.pingState == (if RequestIsLast(acts) then PingClose else PingNext)
    && (if RequestIsLast(acts) then r.expiry <= r.now
        else r.expiry + SinceHeartbeat(acts) == r.now + k.pingDelay)
  }

  lemma FoundAtStep(k: Keepalive, acts: seq<Action>, r: Keepalive, a: Action)
    requires k.pingDelay != 0 && Found(k, acts, r) && !a.Timer?
    ensures Found(k, acts + [a], Step(r, a))
  {
    var all := acts + [a];
    assert all[..|all| - 1] == acts && all[|all| - 1] == a;
    assert SeesCloseFrame(all) <==> SeesCloseFrame(acts) || a == Control(CloseFrame) by {
      assert forall i :: 0 <= i < |acts| ==> all[i] == acts[i];
    }
    assert StreamGoes(all) <==> StreamGoes(acts) || a == StreamCloses by {
      assert forall i :: 0 <= i < |acts| ==> all[i] == acts[i];
    }
  }

  lemma {:induction false} AfterRequest(k: Keepalive, acts: seq<Action>)
    requires k.pingDelay != 0 && BetweenTimers(acts)
    ensures Found(k, acts, Run(CloseSession(k), acts))
    decreases |acts|
  {
    if acts != [] {
      var last, before := acts[|acts| - 1], acts[..|acts| - 1];
      assert acts == before + [last];
      AfterRequest(k, before);
      RunLast(CloseSession(k), before, last);
      FoundAtStep(k, before, Run(CloseSession(k), before), last);
    }
  }

  /** A close requested on a session that is not closing is carried out by the next timer handler, after any
      actions in between, if and only if no close frame arrives and either the last of requests, pings and
      pongs is a request, or the stream is gone and `pingDelay` has passed since the last ping or pong. */
  lemma RequestedCloseHappensIff(k: Keepalive, acts: seq<Action>, result: WaitResult, lag: nat)
    requires k.pingDelay != 0 && k.waits > 0 && !k.close && !k.closeReceived && result != Failed
    requires BetweenTimers(acts)
    ensures Step(Run(Step(k, RequestClose), acts), Timer(result, lag)).close
       <==> && !SeesCloseFrame(acts)
            && (RequestIsLast(acts)
                || ((!k.open || StreamGoes(acts)) && SinceHeartbeat(acts) >= k.pingDelay))
  {
    AfterRequest(k, acts);
  }

  /** For instance one pong suffices to lose the request, and one more request to restore it. */
  lemma PongCancelsClose(k: Keepalive, lag: nat)
    requires k.pingDelay != 0 && k.waits > 0 && k.open && !k.close && !k.closeReceived
    ensures !Step(Run(Step(k, RequestClose), [Control(PongFrame)]), Timer(Aborted, lag)).close
    ensures Step(Run(Step(k, RequestClose), [Control(PongFrame)] + [RequestClose]), Timer(Aborted, lag)).close
  {
    RequestedCloseHappensIff(k, [Control(PongFrame)], Aborted, lag);
    RequestedCloseHappensIff(k, [Control(PongFrame)] + [RequestClose], Aborted, lag);
  }
}
