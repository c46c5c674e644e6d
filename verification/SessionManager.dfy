/** `session_manager` and `listener` as objects: the registry of weak pointers to sessions, the loops of
    `broadcast` over it, and the reference counts it goes by. */
module SessionManagers {
  import opened Wrappers
  import opened Wire
  import WritePump

  /** A `shared_ptr<data_push>`; `refs` counts its owners. */
  class SharedPush {
    const header: IoHeader
    const body: Bytes
    var refs: nat

    constructor (header: IoHeader, body: Bytes)
      ensures this.header == header && this.body == body && refs == 1
    {
      this.header, this.body := header, body;
      refs := 1;
    }
  }

  /** A session as the registry sees it: a weak pointer that can be locked while the session is `live`.
      `posted` lists the broadcasts posted to its strand. */
  class ManagedSession {
    const id: nat
    var live: bool
    var posted: seq<SharedPush>

    constructor (id: nat)
      ensures this.id == id && live && posted == []
    {
      this.id := id;
      live, posted := true, [];
    }

    /** `send`: the posted handler shares the message. */
    method Send(push: SharedPush)
      modifies this`posted, push`refs
      ensures posted == old(posted) + [push] && push.refs == old(push.refs) + 1
    {
      posted := posted + [push];
      push.refs := push.refs + 1;
    }

    /** Lock the weak pointer, then `send`. */
    method SendIfLive(push: SharedPush) returns (sent: bool)
      modifies this`posted, push`refs
      ensures sent == live && posted == old(posted) + (if sent then [push] else [])
      ensures push.refs == old(push.refs) + if sent then 1 else 0
    {
      sent := live;
      if sent {
        Send(push);
      }
    }
  }

  class SessionManager {
    const maxSessions: nat
    /** The reference count of the manager, and its value before any session existed. */
    var useCount: int
    var subRefs: int
    var msgQueued: int
    var sessions: map<nat, ManagedSession>

    ghost predicate Valid()
      reads this
    {
      forall id :: id in sessions ==> sessions[id].id == id
    }

    constructor (maxSessions: nat, useCount: int)
      ensures Valid() && sessions == map[] && msgQueued == 0 && this.useCount == useCount
      ensures this.maxSessions == maxSessions && subRefs == 0
    {
      this.maxSessions := maxSessions;
      this.useCount, subRefs, msgQueued, sessions := useCount, 0, 0, map[];
    }

    /** `set_subtract_refs`; it counts its own temporary reference too. */
    method SetSubtractRefs()
      requires subRefs == 0
      modifies this`subRefs, this`useCount
      ensures subRefs == useCount + 1 && useCount == old(useCount)
    {
      useCount := useCount + 1;
      subRefs := useCount;
      useCount := useCount - 1;
    }

    ghost function Counted(): int
      reads this
    {
      if useCount + 1 - subRefs > 0 then useCount + 1 - subRefs else 0
    }

    method Connections() returns (n: int)
      modifies this`useCount
      ensures n == Counted() && useCount == old(useCount)
    {
      useCount := useCount + 1;
      n := useCount - subRefs;
      if n < 0 {
        n := 0;
      }
      useCount := useCount - 1;
    }

    method IsFull() returns (full: bool)
      modifies this`useCount
      ensures full == (Counted() >= maxSessions) && useCount == old(useCount)
    {
      var n := Connections();
      full := n >= maxSessions;
    }

    method AddSession(session: ManagedSession)
      requires Valid()
      modifies this`sessions
      ensures Valid() && sessions == old(sessions)[session.id := session]
    {
      sessions := sessions[session.id := session];
    }

    method RemoveSession(id: nat)
      requires Valid()
      modifies this`sessions
      ensures Valid() && sessions == old(sessions) - {id}
    {
      if id in sessions {
        sessions := sessions - {id};
      }
    }

    /** The ids a broadcast goes to. */
    ghost function Targets(ids: Option<seq<nat>>): (targets: set<nat>)
      reads this
    {
      set id | id in sessions && (ids.None? || id in ids.value)
    }

    /** The targets whose session is still alive. */
    ghost function LiveTargets(ids: Option<seq<nat>>): (targets: set<nat>)
      reads this, sessions.Values
    {
      set id | id in Targets(ids) && sessions[id].live
    }

    /** The registered sessions among those asked for; a repeated id is found again and changes nothing. */
    method Select(ids: seq<nat>) returns (found: map<nat, ManagedSession>)
      ensures found.Keys == Targets(Some(ids))
      ensures forall id :: id in found ==> found[id] == sessions[id]
    {
      found := map[];
      for i := 0 to |ids|
        invariant found.Keys == Targets(Some(ids[..i]))
        invariant forall id :: id in found ==> found[id] == sessions[id]
      {
        assert ids[..i + 1] == ids[..i] + [ids[i]];
        if ids[i] in sessions {
          found := found[ids[i] := sessions[ids[i]]];
        }
      }
      assert ids[..|ids|] == ids;
    }

    /** Posts the message to every session of the copy that is still alive, once. */
    method SendAll(push: SharedPush, targets: map<nat, ManagedSession>)
      requires forall id :: id in targets ==> targets[id].id == id
      modifies targets.Values`posted, push`refs
      ensures forall id :: id in targets ==>
        targets[id].posted == old(targets[id].posted) + (if targets[id].live then [push] else [])
      ensures push.refs == old(push.refs) + |set id | id in targets && targets[id].live|
    {
      var todo := targets.Keys;
      ghost var done: set<nat> := {};
      while todo != {}
        invariant todo <= targets.Keys
        invariant forall id :: id in targets ==>
          targets[id].posted == old(targets[id].posted) + (if id in done then [push] else [])
        invariant forall id :: id in done <==> id in targets && id !in todo && targets[id].live
        invariant push.refs == old(push.refs) + |done|
        decreases todo
      {
        var id :| id in todo;
        todo := todo - {id};
        var sent := targets[id].SendIfLive(push);
        done := if sent then done + {id} else done;
      }
      assert done == set id | id in targets && targets[id].live;
    }

    /** The registry is copied, wholly or in part, so that it is not locked while messages are posted. */
    method Distribute(push: SharedPush, ids: Option<seq<nat>>)
      requires Valid()
      modifies sessions.Values`posted, push`refs
      ensures push.refs == old(push.refs) + |LiveTargets(ids)|
      ensures forall id :: id in sessions ==>
        sessions[id].posted == old(sessions[id].posted) + (if id in LiveTargets(ids) then [push] else [])
    {
      var copy := sessions;
      if ids.Some? {
        copy := Select(ids.value);
      }
      assert copy.Keys == Targets(ids);
      SendAll(push, copy);
      assert (set id | id in copy && copy[id].live) == LiveTargets(ids);
    }

    /** The last owner of a message lets go of it: the counter goes down, and the message's own
        reference to the manager goes. */
    method OnMsgSent()
      modifies this`msgQueued, this`useCount
      ensures msgQueued == old(msgQueued) - 1 && useCount == old(useCount) - 1
    {
      msgQueued := msgQueued - 1;
      useCount := useCount - 1;
    }

    method Release(push: SharedPush)
      requires push.refs > 0
      modifies this`msgQueued, this`useCount, push`refs
      ensures push.refs == old(push.refs) - 1
      ensures var last := if push.refs == 0 then 1 else 0;
              msgQueued == old(msgQueued) - last && useCount == old(useCount) - last
    {
      push.refs := push.refs - 1;
      if push.refs == 0 {
        OnMsgSent();
      }
    }

    /** Without ids the message goes to all sessions. Exactly one message is posted to each live target,
        however often the list repeats its id, and none elsewhere; the message counts as queued exactly
        while one of them has it. */
    method Broadcast(callId: U32, body: Bytes, ids: Option<seq<nat>>) returns (push: SharedPush?)
      requires Valid()
      modifies this`msgQueued, this`useCount, sessions.Values`posted
      ensures Valid()
      ensures push == null <==> old(msgQueued) >= WritePump.QUEUE_SEND_MAX || old(Counted()) == 0
      ensures push == null ==> msgQueued == old(msgQueued) && useCount == old(useCount)
      ensures push != null ==>
        && fresh(push) && push.header == NewHeader(callId, 0) && push.body == body
        && push.refs == |LiveTargets(ids)|
        && msgQueued == old(msgQueued) + (if LiveTargets(ids) != {} then 1 else 0)
        && useCount == old(useCount) + (if LiveTargets(ids) != {} then 1 else 0)
      ensures forall id :: id in sessions ==>
        sessions[id].posted
           == old(sessions[id].posted) + (if push != null && id in LiveTargets(ids) then [push] else [])
    {
      if msgQueued >= WritePump.QUEUE_SEND_MAX {
        return null;
      }
      var n := Connections();
      if n == 0 {
        return null;
      }
      push := new SharedPush(NewHeader(callId, 0), body);
      useCount := useCount + 1;
      msgQueued := msgQueued + 1;
      Distribute(push, ids);
      Release(push);
    }
  }

  datatype AcceptResult = Accepted | Failed | Aborted

  class Listener {
    const manager: SessionManager
    var open: bool
    var accepting: bool

    /** The listener takes its reference to the manager, and from then on references count as connections. */
    constructor (manager: SessionManager)
      requires manager.subRefs == 0
      modifies manager`useCount, manager`subRefs
      ensures this.manager == manager && open && !accepting
      ensures manager.useCount == old(manager.useCount) + 1
      ensures manager.Counted() == 0
    {
      this.manager := manager;
      open, accepting := true, false;
      new;
      manager.useCount := manager.useCount + 1;
      manager.SetSubtractRefs();
    }

    method HandleAccept()
      modifies this`accepting
      ensures accepting == (old(accepting) || open)
    {
      if open {
        accepting := true;
      }
    }

    /** An accept completed; `listens` is the answer of the bound listen handler, true without one, and
        `id` the address of the new session. A connection becomes a session exactly when the manager is
        not full; unless the listener is shut down the next accept is started. */
    method OnAccept(result: AcceptResult, listens: bool, id: nat) returns (session: ManagedSession?)
      requires accepting
      modifies this`accepting, manager`useCount
      ensures session != null <==> result == Accepted && listens && old(manager.Counted()) < manager.maxSessions
      ensures session != null ==> fresh(session) && session.id == id && session.live && session.posted == []
      ensures manager.useCount == old(manager.useCount) + if session != null then 1 else 0
      ensures accepting == (result != Aborted && open)
    {
      accepting := false;
      session := null;
      if result == Aborted {
        return;
      }
      if result == Accepted {
        if listens {
          var full := manager.IsFull();
          if !full {
            session := new ManagedSession(id);
            manager.useCount := manager.useCount + 1;
          }
        }
      }
      HandleAccept();
    }
  }
}
