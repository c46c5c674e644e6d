/** `session_accept`, with its stream and timer, and `server_session`, with its queue. Every handler's
    contract gives the new state of the machine it is modelled by: `Keepalive` for the former,
    `ServerCore` for requests and writes. */
module ServerSessions {
  import opened Wrappers
  import opened Wire
  import opened WritePump
  import opened ServerCore
  import Keepalive
  import opened DataCaches
  import opened Streams

  /** `steady_timer`; `waits` counts the handlers that have not run. */
  class SteadyTimer {
    var expiry: int
    var waits: nat

    constructor (expiry: int)
      ensures this.expiry == expiry && waits == 0
    {
      this.expiry, waits := expiry, 0;
    }

    method ExpiresAfter(now: int, delay: nat)
      modifies this`expiry
      ensures expiry == now + delay
    {
      expiry := now + delay;
    }

    method AsyncWait()
      modifies this`waits
      ensures waits == old(waits) + 1
    {
      waits := waits + 1;
    }

    /** The handler of a wait is about to run. */
    method WaitCompletes()
      requires waits > 0
      modifies this`waits
      ensures waits == old(waits) - 1
    {
      waits := waits - 1;
    }
  }

  class SessionAccept {
    const pingDelay: nat
    const stream: Stream
    const timer: SteadyTimer
    var close: bool
    var closeReceived: bool
    var pingState: Keepalive.PingState
    ghost var alive: Keepalive.Keepalive

    /** The fields are those of the abstract machine. */
    ghost predicate Timed()
      reads this, stream`open, stream`closes, stream`pings, timer
    {
      && alive.pingDelay == pingDelay && alive.pingState == pingState
      && alive.expiry == timer.expiry && alive.waits == timer.waits
      && alive.open == stream.open && alive.close == close && alive.closeReceived == closeReceived
      && alive.shutdowns == stream.closes && alive.pings == stream.pings
    }

    /** As `on_accept` leaves it: with pings the timer is set. */
    constructor (pingDelay: nat, now: int)
      ensures Timed() && fresh(stream) && fresh(timer) && stream.writing == None && stream.reading
      ensures alive == Keepalive.OnAccept(Keepalive.New(pingDelay, now))
    {
      this.pingDelay := pingDelay;
      stream := new Stream();
      timer := new SteadyTimer(now);
      close, closeReceived, pingState := false, false, Keepalive.PingNext;
      new;
      if pingDelay != 0 {
        timer.ExpiresAfter(now, pingDelay);
        timer.AsyncWait();
      }
      stream.AsyncRead();
      alive := Keepalive.OnAccept(Keepalive.New(pingDelay, now));
    }

    /** With pings the timer is made to expire at once, and its handler closes. */
    method CloseSession(now: int)
      requires Timed()
      modifies this`alive, this`close, this`pingState, stream`closes, timer`expiry
      ensures Timed() && alive == Keepalive.CloseSession(old(alive).(now := now))
      ensures close == (old(close) || (pingDelay == 0 && !closeReceived))
      ensures stream.closes == old(stream.closes) + if close && !old(close) then 1 else 0
    {
      alive := alive.(now := now);
      if pingDelay != 0 {
        pingState := Keepalive.PingClose;
        timer.ExpiresAfter(now, 0);
        alive := Keepalive.CloseSession(alive);
      } else {
        Shutdown();
      }
    }

    method Shutdown()
      requires Timed()
      modifies this`alive, this`close, stream`closes
      ensures Timed() && alive == Keepalive.Shutdown(old(alive))
      ensures close == (old(close) || !closeReceived)
      ensures stream.closes == old(stream.closes) + if close && !old(close) then 1 else 0
    {
      if close || closeReceived {
        return;
      }
      close := true;
      stream.AsyncClose();
      alive := Keepalive.Shutdown(alive);
    }

    /** `now` is the clock when the expiry is compared, `now + lag` when the timer is set again. */
    method OnTimer(result: Keepalive.WaitResult, now: int, lag: nat)
      requires Timed() && timer.waits > 0
      modifies this`alive, this`close, this`pingState, stream`closes, stream`pings, timer
      ensures Timed() && alive == Keepalive.OnTimer(old(alive).(now := now), result, lag)
      ensures close ==> old(close) || !closeReceived
      ensures old(close) ==> close
      ensures stream.closes == old(stream.closes) + if close && !old(close) then 1 else 0
    {
      timer.WaitCompletes();
      alive := alive.(now := now, waits := alive.waits - 1);
      if result == Keepalive.Failed {
        return;
      }
      if timer.expiry <= now {
        var pinged := PingOrShutdown(now);
        if !pinged {
          return;
        }
      }
      timer.ExpiresAfter(now + lag, pingDelay);
      timer.AsyncWait();
      alive := Keepalive.StartWait(alive.(now := now + lag));
    }

    /** The deadline has passed. */
    method PingOrShutdown(now: int) returns (pinged: bool)
      requires Timed() && alive.now == now
      modifies this`alive, this`close, this`pingState, stream`closes, stream`pings
      ensures Timed() && pinged == (stream.open && old(pingState) == Keepalive.PingNext)
      ensures var e := old(alive).(expiries := old(alive).expiries + 1);
              alive == if pinged
                       then e.(pingState := Keepalive.PingSend, pings := e.pings + 1, lastPing := now,
                               controlsAtPing := e.controls)
                       else Keepalive.Shutdown(e)
      ensures close == (old(close) || (!pinged && !closeReceived))
      ensures stream.closes == old(stream.closes) + if close && !old(close) then 1 else 0
    {
      alive := alive.(expiries := alive.expiries + 1);
      pinged := stream.open && pingState == Keepalive.PingNext;
      if pinged {
        pingState := Keepalive.PingSend;
        stream.AsyncPing();
        alive := alive.(pingState := Keepalive.PingSend, pings := alive.pings + 1, lastPing := now,
                        controlsAtPing := alive.controls);
      } else {
        Shutdown();
      }
    }

    method OnControl(kind: Keepalive.FrameKind, now: int)
      requires Timed()
      modifies this`alive, this`closeReceived, this`pingState, timer`expiry
      ensures Timed() && alive == Keepalive.OnControl(old(alive).(now := now), kind)
      ensures closeReceived == (old(closeReceived) || kind == Keepalive.CloseFrame)
    {
      alive := Keepalive.OnControl(alive.(now := now), kind);
      if kind == Keepalive.CloseFrame {
        closeReceived := true;
        return;
      }
      pingState := Keepalive.PingNext;
      timer.ExpiresAfter(now, pingDelay);
    }
  }

  class ServerSession {
    const boundFuncs: Bindings
    /** The session as `session_accept`. */
    const derived: SessionAccept
    const receiveBuffer: FlatBuffer
    var queue: seq<Push>
    var header: IoHeader
    var response: Bytes
    var boundClose: bool
    var writeError: bool
    var readError: bool
    /** Numbers the messages read, to name the request a response answers. */
    var messagesRead: nat
    ghost var core: Server

    static ghost function InFlight(queue: seq<Push>): Option<Buffers> {
      if queue == [] then None else Some(Buffers(queue[0].header, queue[0].body))
    }

    /** The fields are those of the abstract session; the write in flight is that of the front entry. */
    ghost predicate Serves()
      reads this, derived`close, derived`closeReceived, derived.stream`closes, derived.stream`writing
    {
      && core.pump.flags == Flags(derived.close, derived.closeReceived, writeError, readError)
      && core.pump.queue == queue
      && (core.pump.writing <==> queue != [])
      && core.pump.closes == derived.stream.closes
      && core.pings == (derived.pingDelay != 0)
      && core.boundClose == boundClose
      && |core.requests| == messagesRead
      && derived.stream.writing == InFlight(queue)
    }

    /** What every run of the two machines keeps, kept by the object. */
    ghost predicate Valid()
      reads this, derived, derived.stream, derived.timer
    {
      Linked() && ServerCore.Inv(core) && Keepalive.Inv(derived.alive)
    }

    ghost predicate Linked()
      reads this, derived, derived.stream, derived.timer
    {
      Serves() && derived.Timed() && core.reading == derived.stream.reading && response == []
    }

    constructor (pingDelay: nat, boundFuncs: Bindings, now: int)
      ensures Valid() && fresh(derived) && fresh(derived.stream) && fresh(derived.timer) && fresh(receiveBuffer)
      ensures core == NewServer(pingDelay != 0)
      ensures derived.alive == Keepalive.OnAccept(Keepalive.New(pingDelay, now))
    {
      this.boundFuncs := boundFuncs;
      derived := new SessionAccept(pingDelay, now);
      receiveBuffer := new FlatBuffer();
      queue, header, response, messagesRead := [], NewHeader(0, 0), [], 0;
      boundClose, writeError, readError := false, false, false;
      core := NewServer(pingDelay != 0);
      NewServerKeepsInv(pingDelay != 0);
      Keepalive.AcceptedKeepsInv(pingDelay, now);
    }

    /** The environment: the channel takes the bytes of the write in flight. */
    ghost method Deliver()
      requires Valid() && core.pump.writing && !core.pump.onWire
      modifies this`core
      ensures Valid() && core == old(core).(pump := Transmit(old(core.pump)))
    {
      ServerCore.StepKeepsInv(core, boundFuncs, ServerCore.Action.Deliver);
      core := core.(pump := Transmit(core.pump));
    }

    /** The posted `handle_send` of a broadcast. */
    method SendBroadcast(callId: U32, body: Bytes)
      requires Valid()
      modifies this`queue, this`core, derived.stream`writing
      ensures Valid() && core == ServerCore.Step(old(core), boundFuncs, Broadcast(callId, body))
    {
      ServerCore.StepKeepsInv(core, boundFuncs, Broadcast(callId, body));
      HandleSend(Push(NewHeader(callId, 0), body, None));
    }

    method HandleSend(push: Push)
      requires Serves()
      modifies this`queue, this`core, derived.stream`writing
      ensures Serves() && core == old(core).(pump := WritePump.HandleSend(old(core.pump), push))
    {
      if derived.close || derived.closeReceived || writeError || readError {
        return;
      }
      if |queue| >= QUEUE_SEND_MAX {
        return;
      }
      core := core.(pump := WritePump.HandleSend(core.pump, push));
      queue := queue + [push];
      if |queue| > 1 {
        return;
      }
      Write();
    }

    method Write()
      requires derived.stream.writing == None && queue != []
      modifies derived.stream`writing
      ensures derived.stream.writing == InFlight(queue)
    {
      derived.stream.AsyncWrite(Buffers(queue[0].header, queue[0].body));
    }

    method OnWrite(failed: bool, now: int)
      requires Valid() && core.pump.writing && (failed || core.pump.onWire)
      requires now >= derived.alive.now
      modifies this`queue, this`core, this`writeError, derived`alive, derived`close, derived`pingState
      modifies derived.stream`writing, derived.stream`closes, derived.timer`expiry
      ensures Valid()
      ensures core == old(core).(pump := WritePump.OnWrite(old(core.pump), failed, !old(core.pings)))
      ensures derived.alive == if WriteGivesUp(old(core.pump), failed)
                               then Keepalive.CloseSession(old(derived.alive).(now := now)) else old(derived.alive)
    {
      ServerCore.StepKeepsInv(core, boundFuncs, ServerCore.Action.WriteDone(failed));
      Keepalive.StepLaterKeepsInv(derived.alive, now, Keepalive.RequestClose);
      WriteCompletes(failed, now);
    }

    method WriteCompletes(failed: bool, now: int)
      requires Linked() && core.pump.writing && (failed || core.pump.onWire)
      modifies this`queue, this`core, this`writeError, derived`alive, derived`close, derived`pingState
      modifies derived.stream`writing, derived.stream`closes, derived.timer`expiry
      ensures Linked()
      ensures core == old(core).(pump := WritePump.OnWrite(old(core.pump), failed, !old(core.pings)))
      ensures derived.alive == if WriteGivesUp(old(core.pump), failed)
                               then Keepalive.CloseSession(old(derived.alive).(now := now)) else old(derived.alive)
    {
      derived.stream.WriteCompletes();
      if failed || derived.close || derived.closeReceived || readError {
        GiveUp(failed, now);
      } else {
        NextWrite();
      }
    }

    method GiveUp(ghost failed: bool, now: int)
      requires derived.Timed() && derived.stream.writing == None && WriteGivesUp(core.pump, failed)
      requires core.pump.flags == Flags(derived.close, derived.closeReceived, writeError, readError)
      requires core.pump.closes == derived.stream.closes && core.pings == (derived.pingDelay != 0)
      requires core.boundClose == boundClose && |core.requests| == messagesRead
      modifies this`queue, this`core, this`writeError, derived`alive, derived`close, derived`pingState
      modifies derived.stream`closes, derived.timer`expiry
      ensures Serves() && derived.Timed()
      ensures core == old(core).(pump := WritePump.OnWrite(old(core.pump), failed, !old(core.pings)))
      ensures derived.alive == Keepalive.CloseSession(old(derived.alive).(now := now))
    {
      core := core.(pump := WritePump.OnWrite(core.pump, failed, false));
      writeError := true;
      queue := [];
      CloseSession(now);
    }

    /** The front message is written: go on with the next one. */
    method NextWrite()
      requires queue != [] && core.pump.queue == queue && derived.stream.writing == None
      requires !WriteGivesUp(core.pump, false)
      modifies this`queue, this`core, derived.stream`writing
      ensures core == old(core).(pump := WritePump.OnWrite(old(core.pump), false, !old(core.pings)))
      ensures queue == old(queue)[1..] && derived.stream.writing == InFlight(queue)
    {
      core := core.(pump := WritePump.OnWrite(core.pump, false, !core.pings));
      queue := queue[1..];
      if queue != [] {
        Write();
      }
    }

    method CloseSession(now: int)
      requires Serves() && derived.Timed()
      modifies this`core, derived`alive, derived`close, derived`pingState, derived.stream`closes, derived.timer`expiry
      ensures Serves() && derived.Timed()
      ensures core == ServerCore.CloseSession(old(core))
      ensures derived.alive == Keepalive.CloseSession(old(derived.alive).(now := now))
    {
      derived.CloseSession(now);
      core := ServerCore.CloseSession(core);
    }

    /** `on_timer`; a close it starts stops the writes. */
    method OnTimer(result: Keepalive.WaitResult, now: int, lag: nat)
      requires Valid() && derived.timer.waits > 0
      requires now >= derived.alive.now
      modifies this`core, derived`alive, derived`close, derived`pingState
      modifies derived.stream`closes, derived.stream`pings, derived.timer
      ensures Valid()
      ensures derived.alive == Keepalive.OnTimer(old(derived.alive).(now := now), result, lag)
      ensures core == if old(derived.alive).shutdowns < derived.alive.shutdowns
                      then old(core).(pump := CloseNow(old(core.pump))) else old(core)
    {
      ServerCore.StepKeepsInv(core, boundFuncs, ServerCore.Action.Shutdown);
      Keepalive.StepLaterKeepsInv(derived.alive, now, Keepalive.Timer(result, lag));
      TimerCompletes(result, now, lag);
    }

    method TimerCompletes(result: Keepalive.WaitResult, now: int, lag: nat)
      requires Linked() && derived.timer.waits > 0
      modifies this`core, derived`alive, derived`close, derived`pingState
      modifies derived.stream`closes, derived.stream`pings, derived.timer
      ensures Linked()
      ensures derived.alive == Keepalive.OnTimer(old(derived.alive).(now := now), result, lag)
      ensures core == if old(derived.alive).shutdowns < derived.alive.shutdowns
                      then old(core).(pump := CloseNow(old(core.pump))) else old(core)
    {
      var closed := derived.close;
      derived.OnTimer(result, now, lag);
      if derived.close && !closed {
        core := core.(pump := CloseNow(core.pump));
      }
    }

    /** `on_control_callback` */
    method OnControl(kind: Keepalive.FrameKind, now: int)
      requires Valid()
      requires now >= derived.alive.now
      modifies this`core, derived`alive, derived`closeReceived, derived`pingState, derived.timer`expiry
      ensures Valid()
      ensures derived.alive == Keepalive.OnControl(old(derived.alive).(now := now), kind)
      ensures core == if kind == Keepalive.CloseFrame
                      then old(core).(pump := WritePump.CloseFrame(old(core.pump))) else old(core)
    {
      ServerCore.StepKeepsInv(core, boundFuncs, ServerCore.Action.PeerClose);
      Keepalive.StepLaterKeepsInv(derived.alive, now, Keepalive.Control(kind));
      ControlFrame(kind, now);
    }

    method ControlFrame(kind: Keepalive.FrameKind, now: int)
      requires Linked()
      modifies this`core, derived`alive, derived`closeReceived, derived`pingState, derived.timer`expiry
      ensures Linked()
      ensures derived.alive == Keepalive.OnControl(old(derived.alive).(now := now), kind)
      ensures core == if kind == Keepalive.CloseFrame
                      then old(core).(pump := WritePump.CloseFrame(old(core.pump))) else old(core)
    {
      derived.OnControl(kind, now);
      if kind == Keepalive.CloseFrame {
        core := core.(pump := WritePump.CloseFrame(core.pump));
      }
    }

    /** Cuts the header off the message, if there is a whole one. */
    method TakeHeader() returns (complete: bool)
      modifies this`header, receiveBuffer
      ensures complete == Split(old(receiveBuffer.bytes)).Message?
      ensures if complete then Split(old(receiveBuffer.bytes)) == Message(header, receiveBuffer.bytes)
              else header == old(header)
    {
      complete := |receiveBuffer.bytes| >= HEADER_SIZE;
      if complete {
        header := Unpack(receiveBuffer.bytes[..HEADER_SIZE]);
        receiveBuffer.Consume(HEADER_SIZE);
      }
    }

    /** Whether a handler is to be called; it will find the message without its header. */
    method FindHandler() returns (called: bool)
      requires !core.pump.flags.close && !core.pump.flags.writeError
      modifies this`header, receiveBuffer
      ensures called == CallsHandler(core, boundFuncs, old(receiveBuffer.bytes))
      ensures called ==> header == Split(old(receiveBuffer.bytes)).header
    {
      called := TakeHeader();
      if called {
        called := header.callId in boundFuncs && boundFuncs[header.callId];
      }
    }

    /** The receive buffer holds one message. `reply` is what the bound handler does, if one is called:
        the bytes it leaves in `response`, and whether it asks to close. */
    method CallFunction(reply: Reply, now: int) returns (called: bool)
      requires Serves() && derived.Timed() && response == [] && !derived.close && !writeError
      modifies this`queue, this`header, this`response, this`boundClose, this`core, receiveBuffer
      modifies derived`alive, derived`close, derived`pingState
      modifies derived.stream`writing, derived.stream`closes, derived.timer`expiry
      ensures Serves() && derived.Timed()
      ensures called == CallsHandler(old(core), boundFuncs, old(receiveBuffer.bytes))
      ensures core == if called then ServerCore.CallFunction(old(core), old(receiveBuffer.bytes), reply) else old(core)
      ensures derived.alive == if called && core.boundClose then Keepalive.CloseSession(old(derived.alive).(now := now))
                               else old(derived.alive)
    {
      called := FindHandler();
      if called {
        Call(reply, now);
      }
    }

    /** Calls the bound handler: it closes the session, or leaves a response, or neither. */
    method Call(reply: Reply, now: int)
      requires Serves() && derived.Timed()
      modifies this`queue, this`response, this`boundClose, this`core
      modifies derived`alive, derived`close, derived`pingState
      modifies derived.stream`writing, derived.stream`closes, derived.timer`expiry
      ensures Serves() && derived.Timed()
      ensures var called := old(core).(boundClose := old(core).boundClose || reply.close);
              core == if called.boundClose then ServerCore.CloseSession(called)
                      else if reply.response == [] then called
                      else called.(pump := WritePump.HandleSend(
                             called.pump, Push(header, reply.response, Some(|called.requests|))))
      ensures derived.alive == if core.boundClose then Keepalive.CloseSession(old(derived.alive).(now := now))
                               else old(derived.alive)
    {
      RunHandler(reply);
      if boundClose {
        CloseSession(now);
        return;
      }
      Respond();
    }

    /** The bound handler. */
    method RunHandler(reply: Reply)
      requires Serves()
      modifies this`response, this`boundClose, this`core
      ensures Serves() && response == reply.response
      ensures core == old(core).(boundClose := old(core).boundClose || reply.close)
    {
      response := reply.response;
      boundClose := boundClose || reply.close;
      core := core.(boundClose := boundClose);
    }

    method Respond()
      requires Serves()
      modifies this`queue, this`response, this`core, derived.stream`writing
      ensures Serves()
      ensures core == if old(response) == [] then old(core)
                      else old(core).(pump := WritePump.HandleSend(
                             old(core).pump, Push(header, old(response), Some(|old(core).requests|))))
    {
      if response != [] {
        var push := Push(header, response, Some(messagesRead));
        response := [];
        HandleSend(push);
      }
    }

    method OnRead(failed: bool, reply: Reply, now: int)
      requires Valid() && core.reading
      requires now >= derived.alive.now
      modifies this`queue, this`header, this`response, this`boundClose, this`core, this`readError, this`messagesRead
      modifies derived`alive, derived`close, derived`pingState, receiveBuffer
      modifies derived.stream`reading, derived.stream`writing, derived.stream`closes, derived.timer`expiry
      ensures Valid()
      ensures failed || old(derived.closeReceived) ==>
        && core == OnReadEnd(old(core))
        && derived.alive == Keepalive.CloseSession(old(derived.alive).(now := now))
      ensures !failed && !old(derived.closeReceived) ==>
        && core == ServerCore.OnRead(old(core), boundFuncs, old(receiveBuffer.bytes), reply)
        && derived.alive == (if CallsHandler(old(core), boundFuncs, old(receiveBuffer.bytes)) && core.boundClose
                             then Keepalive.CloseSession(old(derived.alive).(now := now)) else old(derived.alive))
        && receiveBuffer.bytes == []
    {
      ServerCore.StepKeepsInv(core, boundFuncs, ServerCore.Action.ReadMessage(receiveBuffer.bytes, reply));
      ServerCore.StepKeepsInv(core, boundFuncs, ServerCore.Action.ReadFailed);
      Keepalive.StepLaterKeepsInv(derived.alive, now, Keepalive.RequestClose);
      ReadCompletes(failed, reply, now);
    }

    method ReadCompletes(failed: bool, reply: Reply, now: int)
      requires Linked() && core.reading
      modifies this`queue, this`header, this`response, this`boundClose, this`core, this`readError, this`messagesRead
      modifies derived`alive, derived`close, derived`pingState, receiveBuffer
      modifies derived.stream`reading, derived.stream`writing, derived.stream`closes, derived.timer`expiry
      ensures Linked()
      ensures failed || old(derived.closeReceived) ==>
        && core == OnReadEnd(old(core))
        && derived.alive == Keepalive.CloseSession(old(derived.alive).(now := now))
      ensures !failed && !old(derived.closeReceived) ==>
        && core == ServerCore.OnRead(old(core), boundFuncs, old(receiveBuffer.bytes), reply)
        && derived.alive == (if CallsHandler(old(core), boundFuncs, old(receiveBuffer.bytes)) && core.boundClose
                             then Keepalive.CloseSession(old(derived.alive).(now := now)) else old(derived.alive))
        && receiveBuffer.bytes == []
    {
      derived.stream.ReadCompletes();
      if failed || derived.closeReceived {
        readError := true;
        core := core.(pump := ReadFails(core.pump, false), reading := false);
        CloseSession(now);
        return;
      }
      ReadMessage(reply, now);
    }

    /** Handlers are called only while nothing has been closed and writes work. */
    method Serve(reply: Reply, now: int)
      requires Serves() && derived.Timed() && response == []
      modifies this`queue, this`header, this`response, this`boundClose, this`core, receiveBuffer
      modifies derived`alive, derived`close, derived`pingState
      modifies derived.stream`writing, derived.stream`closes, derived.timer`expiry
      ensures Serves() && derived.Timed()
      ensures core == AfterMessage(old(core), boundFuncs, old(receiveBuffer.bytes), reply)
      ensures derived.alive == if CallsHandler(old(core), boundFuncs, old(receiveBuffer.bytes)) && core.boundClose
                               then Keepalive.CloseSession(old(derived.alive).(now := now)) else old(derived.alive)
    {
      if !derived.close && !writeError {
        var _ := CallFunction(reply, now);
      }
    }

    method ReadMessage(reply: Reply, now: int)
      requires Serves() && derived.Timed() && response == [] && !derived.closeReceived && !derived.stream.reading
      modifies this`queue, this`header, this`response, this`boundClose, this`core, this`messagesRead
      modifies derived`alive, derived`close, derived`pingState, receiveBuffer
      modifies derived.stream`reading, derived.stream`writing, derived.stream`closes, derived.timer`expiry
      ensures Serves() && derived.Timed() && response == [] && derived.stream.reading && receiveBuffer.bytes == []
      ensures core == ServerCore.OnRead(old(core), boundFuncs, old(receiveBuffer.bytes), reply)
      ensures derived.alive == if CallsHandler(old(core), boundFuncs, old(receiveBuffer.bytes)) && core.boundClose
                               then Keepalive.CloseSession(old(derived.alive).(now := now)) else old(derived.alive)
    {
      ghost var msg, s := receiveBuffer.bytes, core;
      Serve(reply, now);
      receiveBuffer.Consume(|receiveBuffer.bytes|);
      response := [];
      messagesRead := messagesRead + 1;
      core := ServerCore.OnRead(s, boundFuncs, msg, reply);
      derived.stream.AsyncRead();
    }
  }
}
