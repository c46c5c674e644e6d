/** The worker threads of a server: `start`, `async_start` and `stop`, called from any number of threads,
    and the workers themselves, at the granularity of the two locks. `m_mtx` is held through the whole of
    a start, and of a stop up to its return; `m_stop_mtx` guards the count of workers done. */
module Workers {
  import opened Wrappers
  import opened Wire

  /** `StopInside` is a `stop` called from a worker of the io context. */
  datatype Op = Start | AsyncStart(handler: bool) | Stop | StopInside

  /** Where a call stands. */
  datatype Pc =
    | WantStart           // waits for `m_mtx`
    | Starting            // holds it
    | Clearing            // `m_running` was false and is true now
    | Zeroing             // the old thread objects are gone; waits for `m_stop_mtx`
    | Spawning
    | Serving             // `start` runs the io context itself
    | Halting             // about to stop the io context
    | WantStop            // waits for `m_mtx`
    | Stopping            // holds it
    | WantCheck           // waits for `m_stop_mtx`
    | Checking            // holds both
    | Asleep              // in the condition variable
    | Joining(k: nat)     // holds both; about to join thread k
    | Returned

  datatype Actor = Actor(op: Op, pc: Pc)

  /** Where a worker stands: in `run`, about to count itself, about to notify, about to call the handler. */
  datatype Place = InIo | Left | Telling | Handling | Ended

  datatype Thread = Thread(place: Place, joined: bool)

  /** One start: its threads are those numbered from `base`. History: the worker that found itself the
      last one, and how often the handler ran. */
  datatype Launch = Launch(base: nat, count: nat, handler: bool, last: Option<nat>, runs: nat)

  /** `threads` lists all workers ever made; `m_workers` holds those of the last launch. `dropped` records
      a thread object destroyed while joinable. */
  datatype Server = Server(
    workers: U32, running: bool, asyncStart: bool, done: nat, ioStopped: bool,
    mtx: Option<nat>, stopMtx: Option<nat>,
    actors: seq<Actor>, threads: seq<Thread>, launches: seq<Launch>, dropped: bool)

  function Init(workers: U32): Server {
    Server(workers, false, false, 0, false, None, None, [], [], [], false)
  }

  /** The number of threads a start makes; unsigned, so that 0 - 1 wraps. */
  function Planned(s: Server): nat {
    if s.asyncStart then s.workers else (s.workers + U32_LIMIT - 1) % U32_LIMIT
  }

  function Base(launches: seq<Launch>): nat {
    if launches == [] then 0 else launches[|launches| - 1].base
  }

  function SetPc(s: Server, i: nat, pc: Pc): Server
    requires i < |s.actors|
  {
    s.(actors := s.actors[i := s.actors[i].(pc := pc)])
  }

  predicate AllJoined(threads: seq<Thread>) {
    forall t :: 0 <= t < |threads| ==> threads[t] == Thread(Ended, true)
  }

  datatype Action =
    | Call(op: Op)
    | Go(i: nat)
    | Spurious(i: nat)
    | Work(t: nat, outOfWork: bool)

  predicate CanGo(s: Server, i: nat) {
    i < |s.actors| &&
    match s.actors[i].pc
    case WantStart => s.mtx == None
    case Zeroing => s.stopMtx == None && s.launches != []
    case Spawning => s.launches != []
    case WantStop => s.mtx == None
    case WantCheck => s.stopMtx == None
    case Asleep => false
    case Joining(k) => k < |s.threads| ==> s.threads[k].place == Ended
    case Returned => false
    case _ => true
  }

  function NextPc(s: Server, i: nat): Pc
    requires CanGo(s, i)
  {
    var op := s.actors[i].op;
    match s.actors[i].pc
    case WantStart => Starting
    case Starting => if s.running then Returned else Clearing
    case Clearing => Zeroing
    case Zeroing => Spawning
    case Spawning => if SpawnsMore(s) then Spawning else if op.Start? then Serving else Returned
    case Serving => Returned
    case Halting => if op.StopInside? then Returned else WantStop
    case WantStop => Stopping
    case Stopping => if s.running then WantCheck else Returned
    case WantCheck => Checking
    case Checking => if s.done == Planned(s) then Joining(Base(s.launches)) else Asleep
    case Joining(k) => if k < |s.threads| then Joining(k + 1) else Returned
    case pc => pc
  }

  predicate SpawnsMore(s: Server)
    requires s.launches != []
  {
    |s.threads| < Base(s.launches) + s.launches[|s.launches| - 1].count
  }

  /** What a call's step does beside moving on. */
  function Effect(s: Server, i: nat): Server
    requires CanGo(s, i)
  {
    var op := s.actors[i].op;
    match s.actors[i].pc
    case WantStart => s.(mtx := Some(i))
    case Starting =>
      if s.running then s.(mtx := None) else s.(running := true, asyncStart := op.AsyncStart?)
    case Clearing =>
      s.(ioStopped := false,
         dropped := s.dropped || !AllJoined(s.threads[Min(Base(s.launches), |s.threads|)..]),
         launches := s.launches + [Launch(|s.threads|, Planned(s), op.AsyncStart? && op.handler, None, 0)])
    case Zeroing => s.(done := 0)
    case Spawning =>
      if SpawnsMore(s) then s.(threads := s.threads + [Thread(InIo, false)]) else s.(mtx := None)
    case Halting => s.(ioStopped := true)
    case WantStop => s.(mtx := Some(i))
    case Stopping => if s.running then s else s.(mtx := None)
    case WantCheck => s.(stopMtx := Some(i))
    case Checking => if s.done == Planned(s) then s else s.(stopMtx := None)
    case Joining(k) =>
      if k < |s.threads| then s.(threads := s.threads[k := Thread(Ended, true)])
      else s.(running := false, mtx := None, stopMtx := None)
    case _ => s
  }

  function Proceed(s: Server, i: nat): Server
    requires CanGo(s, i)
  {
    Effect(s, i).(actors := s.actors[i := s.actors[i].(pc := NextPc(s, i))])
  }

  function Min(a: nat, b: nat): nat {
    if a < b then a else b
  }

  predicate CanWork(s: Server, t: nat, outOfWork: bool) {
    t < |s.threads| && s.launches != [] &&
    match s.threads[t].place
    case InIo => s.ioStopped || outOfWork
    case Left => s.stopMtx == None
    case Ended => false
    case _ => true
  }

  /** `notify_all` on the condition variable. */
  function Notify(actors: seq<Actor>): seq<Actor> {
    seq(|actors|, i requires 0 <= i < |actors| =>
      if actors[i].pc == Asleep then actors[i].(pc := WantCheck) else actors[i])
  }

  /** A worker leaves `run` and counts itself; the last to do so notifies, then calls the handler. */
  function NextPlace(s: Server, t: nat): Place
    requires t < |s.threads| && s.launches != []
  {
    match s.threads[t].place
    case InIo => Left
    case Left => if s.done + 1 == s.launches[|s.launches| - 1].count then Telling else Ended
    case Telling => Handling
    case Handling => Ended
    case Ended => Ended
  }

  function NextLaunch(s: Server, t: nat): Launch
    requires t < |s.threads| && s.launches != []
  {
    var l := s.launches[|s.launches| - 1];
    if s.threads[t].place.Left? && s.done + 1 == l.count then l.(last := Some(t))
    else if s.threads[t].place.Handling? && l.handler then l.(runs := l.runs + 1)
    else l
  }

  function Advance(s: Server, t: nat): Server
    requires t < |s.threads| && s.launches != []
  {
    s.(threads := s.threads[t := s.threads[t].(place := NextPlace(s, t))],
       launches := s.launches[|s.launches| - 1 := NextLaunch(s, t)],
       done := if s.threads[t].place.Left? then s.done + 1 else s.done,
       actors := if s.threads[t].place.Telling? then Notify(s.actors) else s.actors)
  }

  predicate Enabled(s: Server, a: Action) {
    match a
    case Call(_) => true
    case Go(i) => CanGo(s, i)
    case Spurious(i) => i < |s.actors| && s.actors[i].pc == Asleep
    case Work(t, outOfWork) => CanWork(s, t, outOfWork)
  }

  function Step(s: Server, a: Action): Server {
    if !Enabled(s, a) then s else
    match a
    case Call(op) =>
      s.(actors := s.actors + [Actor(op, if op.Stop? || op.StopInside? then Halting else WantStart)])
    case Go(i) => Proceed(s, i)
    case Spurious(i) => SetPc(s, i, WantCheck)
    case Work(t, outOfWork) => Advance(s, t)
  }

  function Run(s: Server, acts: seq<Action>): Server
    decreases |acts|
  {
    if acts == [] then s else Run(Step(s, acts[0]), acts[1..])
  }

  // ----- the invariant, part by part -----

  predicate HoldsMtx(pc: Pc) {
    pc.Starting? || pc.Clearing? || pc.Zeroing? || pc.Spawning?
    || pc.Stopping? || pc.WantCheck? || pc.Checking? || pc.Asleep? || pc.Joining?
  }

  predicate HoldsStopMtx(pc: Pc) {
    pc.Checking? || pc.Joining?
  }

  ghost predicate Locks(actors: seq<Actor>, mtx: Option<nat>, stopMtx: Option<nat>) {
    && (forall i :: 0 <= i < |actors| ==> (HoldsMtx(actors[i].pc) <==> mtx == Some(i)))
    && (forall i :: 0 <= i < |actors| ==> (HoldsStopMtx(actors[i].pc) <==> stopMtx == Some(i)))
    && (mtx.Some? ==> mtx.value < |actors|)
    && (stopMtx.Some? ==> stopMtx.value < |actors|)
  }

  predicate Counted(thread: Thread) {
    !thread.place.InIo? && !thread.place.Left?
  }

  /** The workers of the last launch that have counted themselves. */
  function CountedFrom(threads: seq<Thread>, base: nat): set<nat> {
    set t | base <= t < |threads| && Counted(threads[t])
  }

  ghost predicate EarlierJoined(threads: seq<Thread>, base: nat) {
    && base <= |threads|
    && (forall t :: 0 <= t < base ==> threads[t] == Thread(Ended, true))
    && (forall t :: 0 <= t < |threads| && threads[t].joined ==> threads[t].place == Ended)
  }

  ghost predicate AllCounted(l: Launch, threads: seq<Thread>) {
    l.base + l.count <= |threads| && forall t :: l.base <= t < l.base + l.count ==> Counted(threads[t])
  }

  /** What a launch records fits its threads: the last worker is known once all have counted themselves,
      only it notifies and calls the handler, and the handler has run once it is through. */
  ghost predicate LaunchOk(l: Launch, threads: seq<Thread>) {
    && (l.last.Some? <==> l.count > 0 && AllCounted(l, threads))
    && (l.last.Some? ==> l.base <= l.last.value < l.base + l.count)
    && (forall t :: l.base <= t < l.base + l.count && t < |threads| && (threads[t].place.Telling? || threads[t].place.Handling?)
          ==> l.last == Some(t))
    && l.runs == (if l.handler && l.last.Some? && threads[l.last.value].place == Ended then 1 else 0)
  }

  ghost predicate Launches(launches: seq<Launch>, threads: seq<Thread>) {
    && (forall e :: 0 <= e < |launches| ==> LaunchOk(launches[e], threads))
    && (forall e :: 0 <= e < |launches| - 1 ==> launches[e].base + launches[e].count <= Base(launches))
    && (launches == [] ==> threads == [])
    && (launches != [] ==> |threads| <= Base(launches) + launches[|launches| - 1].count)
  }

  /** The stage of the one call that holds `m_mtx`. */
  ghost predicate Stage(pc: Pc, s: Server) {
    match pc
    case Starting => Settled(s)
    case Clearing => s.running && AllJoined(s.threads) && Complete(s.launches, s.threads, s.done)
    case Zeroing => s.running && s.launches != [] && |s.threads| == Base(s.launches) && Current(s)
    case Spawning => s.running && s.launches != [] && Current(s) && s.done == |CountedFrom(s.threads, Base(s.launches))|
    case Stopping => Settled(s)
    case WantCheck => s.running && Settled(s)
    case Checking => s.running && Settled(s)
    case Asleep => s.running && Settled(s) && (s.done == Planned(s) ==> SomeoneTells(s.threads, Base(s.launches)))
    case Joining(k) =>
      && s.running && Settled(s) && s.done == Planned(s)
      && Base(s.launches) <= k <= |s.threads|
      && forall t :: 0 <= t < k ==> s.threads[t] == Thread(Ended, true)
    case _ => true
  }

  ghost predicate Current(s: Server)
    requires s.launches != []
  {
    s.launches[|s.launches| - 1].count == Planned(s)
  }

  ghost predicate SomeoneTells(threads: seq<Thread>, base: nat) {
    exists t :: base <= t < |threads| && threads[t].place == Telling
  }

  /** The last launch has all its threads, and `done` counts those that have counted themselves. */
  ghost predicate Complete(launches: seq<Launch>, threads: seq<Thread>, done: nat) {
    && done == |CountedFrom(threads, Base(launches))|
    && (launches != [] ==> |threads| == Base(launches) + launches[|launches| - 1].count)
  }

  /** No start is under way. */
  ghost predicate Settled(s: Server) {
    && Complete(s.launches, s.threads, s.done)
    && (!s.running ==> AllJoined(s.threads))
    && (s.running ==> s.launches != [] && Current(s))
  }

  ghost predicate Inv(s: Server) {
    && Locks(s.actors, s.mtx, s.stopMtx)
    && EarlierJoined(s.threads, Base(s.launches))
    && Launches(s.launches, s.threads)
    && (s.mtx == None ==> Settled(s))
    && (s.mtx.Some? ==> Stage(s.actors[s.mtx.value].pc, s))
    && !s.dropped
  }

  // ----- the invariant is kept: calls -----

  lemma LocksAfter(actors: seq<Actor>, mtx: Option<nat>, stopMtx: Option<nat>, i: nat, pc: Pc,
                   mtx': Option<nat>, stopMtx': Option<nat>)
    requires Locks(actors, mtx, stopMtx) && i < |actors|
    requires mtx' == (if HoldsMtx(pc) then Some(i) else if HoldsMtx(actors[i].pc) then None else mtx)
    requires stopMtx' == (if HoldsStopMtx(pc) then Some(i) else if HoldsStopMtx(actors[i].pc) then None else stopMtx)
    requires HoldsMtx(pc) && !HoldsMtx(actors[i].pc) ==> mtx == None
    requires HoldsStopMtx(pc) && !HoldsStopMtx(actors[i].pc) ==> stopMtx == None
    ensures Locks(actors[i := actors[i].(pc := pc)], mtx', stopMtx')
  {
  }

  /** A call that moves without touching a thread or a launch. */
  predicate MovesOnly(pc: Pc) {
    pc.WantStart? || pc.Starting? || pc.Serving? || pc.Halting? || pc.WantStop? || pc.Stopping?
    || pc.WantCheck? || pc.Checking?
  }

  lemma MoveKeepsLocks(s: Server, i: nat)
    requires Inv(s) && CanGo(s, i) && MovesOnly(s.actors[i].pc)
    ensures var s' := Proceed(s, i);
            && Locks(s'.actors, s'.mtx, s'.stopMtx)
            && s'.threads == s.threads && s'.launches == s.launches && s'.dropped == s.dropped && s'.done == s.done
  {
    var s' := Proceed(s, i);
    LocksAfter(s.actors, s.mtx, s.stopMtx, i, s'.actors[i].pc, s'.mtx, s'.stopMtx);
  }

  /** What `Proceed` does to everything but the actors and the locks. */
  predicate SameWork(s: Server, s': Server) {
    && s'.workers == s.workers && s'.threads == s.threads && s'.launches == s.launches
    && s'.done == s.done && s'.dropped == s.dropped
  }

  lemma GetsLock(s: Server, i: nat)
    requires Inv(s) && CanGo(s, i)
    requires s.actors[i].pc.WantStart? || s.actors[i].pc.WantStop? || s.actors[i].pc.WantCheck?
    ensures var s' := Proceed(s, i);
            SameWork(s, s') && s'.mtx == Some(i) && Stage(s'.actors[i].pc, s')
  {
  }

  lemma Decides(s: Server, i: nat)
    requires Inv(s) && CanGo(s, i) && (s.actors[i].pc.Starting? || s.actors[i].pc.Stopping?)
    ensures var s' := Proceed(s, i);
            && SameWork(s, s')
            && (s'.mtx == None ==> Settled(s'))
            && (s'.mtx.Some? ==> s'.mtx == Some(i) && Stage(s'.actors[i].pc, s'))
  {
    assert s.mtx == Some(i) && Settled(s);
  }

  lemma Checks(s: Server, i: nat)
    requires Inv(s) && CanGo(s, i) && s.actors[i].pc.Checking?
    ensures var s' := Proceed(s, i);
            SameWork(s, s') && s'.mtx == Some(i) && Stage(s'.actors[i].pc, s')
  {
    assert s.mtx == Some(i) && Settled(s);
  }

  lemma StandsAside(s: Server, i: nat)
    requires Inv(s) && CanGo(s, i) && (s.actors[i].pc.Serving? || s.actors[i].pc.Halting?)
    ensures var s' := Proceed(s, i);
            SameWork(s, s') && s'.mtx == s.mtx && s'.running == s.running && s'.asyncStart == s.asyncStart
  {
  }

  lemma MoveKeepsInv(s: Server, i: nat)
    requires Inv(s) && CanGo(s, i) && MovesOnly(s.actors[i].pc)
    ensures Inv(Proceed(s, i))
  {
    var pc := s.actors[i].pc;
    if pc.Serving? || pc.Halting? {
      AsideKeepsInv(s, i);
    } else {
      HolderKeepsInv(s, i);
    }
  }

  lemma AsideKeepsInv(s: Server, i: nat)
    requires Inv(s) && CanGo(s, i) && (s.actors[i].pc.Serving? || s.actors[i].pc.Halting?)
    ensures Inv(Proceed(s, i))
  {
    MoveKeepsLocks(s, i);
    StandsAside(s, i);
    if s.mtx.Some? {
      OtherStage(s, Proceed(s, i));
    }
  }

  lemma HolderKeepsInv(s: Server, i: nat)
    requires Inv(s) && CanGo(s, i) && MovesOnly(s.actors[i].pc)
    requires !s.actors[i].pc.Serving? && !s.actors[i].pc.Halting?
    ensures Inv(Proceed(s, i))
  {
    MoveKeepsLocks(s, i);
    var pc := s.actors[i].pc;
    if pc.Checking? {
      Checks(s, i);
    } else if pc.Starting? || pc.Stopping? {
      Decides(s, i);
    } else {
      GetsLock(s, i);
    }
  }

  /** The stage of the call that holds `m_mtx` depends on nothing else. */
  lemma OtherStage(s: Server, s': Server)
    requires s.mtx.Some? && s.mtx.value < |s.actors| && Stage(s.actors[s.mtx.value].pc, s)
    requires s'.running == s.running && s'.asyncStart == s.asyncStart && s'.workers == s.workers
    requires s'.threads == s.threads && s'.launches == s.launches && s'.done == s.done
    ensures Stage(s.actors[s.mtx.value].pc, s')
  {
  }

  lemma TailJoined(threads: seq<Thread>, base: nat)
    requires AllJoined(threads) && base <= |threads|
    ensures AllJoined(threads[base..])
  {
    assert forall t :: 0 <= t < |threads| - base ==> threads[base..][t] == threads[base + t];
  }

  lemma ClearingKeepsInv(s: Server, i: nat)
    requires Inv(s) && CanGo(s, i) && s.actors[i].pc == Clearing
    ensures Inv(Proceed(s, i))
  {
    var s' := Proceed(s, i);
    LocksAfter(s.actors, s.mtx, s.stopMtx, i, Zeroing, s.mtx, s.stopMtx);
    TailJoined(s.threads, Min(Base(s.launches), |s.threads|));
    forall e | 0 <= e < |s'.launches| ensures LaunchOk(s'.launches[e], s.threads) {
      if e < |s.launches| { assert s'.launches[e] == s.launches[e]; }
    }
    NoGapBeforeStart(s);
  }

  /** The launch before the one that begins has all its threads. */
  lemma NoGapBeforeStart(s: Server)
    requires Inv(s) && s.mtx.Some? && s.actors[s.mtx.value].pc == Clearing
    ensures forall e :: 0 <= e < |s.launches| ==> s.launches[e].base + s.launches[e].count <= |s.threads|
  {
  }

  lemma NothingCounted(threads: seq<Thread>, base: nat)
    requires base == |threads|
    ensures CountedFrom(threads, base) == {}
  {
  }

  lemma ZeroingKeepsInv(s: Server, i: nat)
    requires Inv(s) && CanGo(s, i) && s.actors[i].pc == Zeroing
    ensures Inv(Proceed(s, i))
  {
    LocksAfter(s.actors, s.mtx, s.stopMtx, i, Spawning, s.mtx, s.stopMtx);
    NothingCounted(s.threads, Base(s.launches));
  }

  lemma LaunchAfterSpawn(l: Launch, threads: seq<Thread>)
    requires LaunchOk(l, threads) && l.base <= |threads|
    ensures LaunchOk(l, threads + [Thread(InIo, false)])
  {
    var threads' := threads + [Thread(InIo, false)];
    assert forall t :: 0 <= t < |threads| ==> threads'[t] == threads[t];
    assert !Counted(threads'[|threads|]);
    assert AllCounted(l, threads') <==> AllCounted(l, threads);
  }

  lemma SpawnKeepsInv(s: Server, i: nat)
    requires Inv(s) && CanGo(s, i) && s.actors[i].pc == Spawning
    requires SpawnsMore(s)
    ensures Inv(Proceed(s, i))
  {
    var s' := Proceed(s, i);
    forall e | 0 <= e < |s.launches| ensures LaunchOk(s.launches[e], s'.threads) {
      LaunchAfterSpawn(s.launches[e], s.threads);
    }
    assert CountedFrom(s'.threads, Base(s.launches)) == CountedFrom(s.threads, Base(s.launches));
  }

  lemma SpawnedKeepsInv(s: Server, i: nat)
    requires Inv(s) && CanGo(s, i) && s.actors[i].pc == Spawning
    requires !SpawnsMore(s)
    ensures Inv(Proceed(s, i))
  {
    var s' := Proceed(s, i);
    LocksAfter(s.actors, s.mtx, s.stopMtx, i, s'.actors[i].pc, None, s.stopMtx);
  }

  lemma LaunchAfterJoin(l: Launch, threads: seq<Thread>, k: nat)
    requires LaunchOk(l, threads) && k < |threads| && threads[k].place == Ended
    ensures LaunchOk(l, threads[k := Thread(Ended, true)])
  {
    var threads' := threads[k := Thread(Ended, true)];
    assert forall t :: 0 <= t < |threads| ==> threads'[t].place == threads[t].place;
    assert AllCounted(l, threads') <==> AllCounted(l, threads);
  }

  lemma JoinKeepsInv(s: Server, i: nat)
    requires Inv(s) && CanGo(s, i) && s.actors[i].pc.Joining? && s.actors[i].pc.k < |s.threads|
    ensures Inv(Proceed(s, i))
  {
    var s' := Proceed(s, i);
    LocksAfter(s.actors, s.mtx, s.stopMtx, i, s'.actors[i].pc, s.mtx, s.stopMtx);
    forall e | 0 <= e < |s.launches| ensures LaunchOk(s.launches[e], s'.threads) {
      LaunchAfterJoin(s.launches[e], s.threads, s.actors[i].pc.k);
    }
    assert CountedFrom(s'.threads, Base(s.launches)) == CountedFrom(s.threads, Base(s.launches));
  }

  lemma JoinedKeepsInv(s: Server, i: nat)
    requires Inv(s) && CanGo(s, i) && s.actors[i].pc.Joining? && s.actors[i].pc.k >= |s.threads|
    ensures Inv(Proceed(s, i))
  {
    LocksAfter(s.actors, s.mtx, s.stopMtx, i, Returned, None, None);
  }

  lemma LocksAfterCall(actors: seq<Actor>, mtx: Option<nat>, stopMtx: Option<nat>, a: Actor)
    requires Locks(actors, mtx, stopMtx) && !HoldsMtx(a.pc)
    ensures Locks(actors + [a], mtx, stopMtx)
    ensures mtx.Some? ==> (actors + [a])[mtx.value] == actors[mtx.value]
  {
    assert forall i :: 0 <= i < |actors| ==> (actors + [a])[i] == actors[i];
  }

  lemma CallKeepsInv(s: Server, op: Op)
    requires Inv(s)
    ensures Inv(Step(s, Call(op)))
  {
    var s' := Step(s, Call(op));
    LocksAfterCall(s.actors, s.mtx, s.stopMtx, s'.actors[|s.actors|]);
    if s.mtx.Some? {
      OtherStage(s, s');
    }
  }

  lemma SpuriousKeepsInv(s: Server, i: nat)
    requires Inv(s) && Enabled(s, Spurious(i))
    ensures Inv(Step(s, Spurious(i)))
  {
    LocksAfter(s.actors, s.mtx, s.stopMtx, i, WantCheck, s.mtx, s.stopMtx);
  }

  lemma GoKeepsInv(s: Server, i: nat)
    requires Inv(s) && CanGo(s, i)
    ensures Inv(Proceed(s, i))
  {
    var pc := s.actors[i].pc;
    if MovesOnly(pc) {
      MoveKeepsInv(s, i);
    } else if pc.Clearing? {
      ClearingKeepsInv(s, i);
    } else if pc.Zeroing? {
      ZeroingKeepsInv(s, i);
    } else if pc.Spawning? {
      if SpawnsMore(s) {
        SpawnKeepsInv(s, i);
      } else {
        SpawnedKeepsInv(s, i);
      }
    } else if pc.k < |s.threads| {
      JoinKeepsInv(s, i);
    } else {
      JoinedKeepsInv(s, i);
    }
  }

  // ----- the invariant is kept: workers -----

  /** Only the threads of the last launch have steps left. */
  lemma WorkerIsCurrent(s: Server, t: nat)
    requires Inv(s) && CanWork(s, t, true)
    ensures Base(s.launches) <= t < |s.threads| && !s.threads[t].joined
    ensures forall e :: 0 <= e < |s.launches| - 1 ==> s.launches[e].base + s.launches[e].count <= t
    ensures !AllJoined(s.threads)
  {
  }

  lemma OtherLaunch(l: Launch, threads: seq<Thread>, t: nat, thread: Thread)
    requires LaunchOk(l, threads) && l.base + l.count <= t < |threads|
    ensures LaunchOk(l, threads[t := thread])
  {
    assert forall u :: 0 <= u < |threads| && u != t ==> threads[t := thread][u] == threads[u];
    assert AllCounted(l, threads[t := thread]) <==> AllCounted(l, threads);
  }

  /** A thread of the last launch moves, without counting itself. */
  lemma LaunchAfterMove(l: Launch, threads: seq<Thread>, t: nat, place: Place)
    requires LaunchOk(l, threads) && l.base <= t < |threads| <= l.base + l.count
    requires Counted(threads[t]) <==> Counted(threads[t].(place := place))
    requires threads[t].place != Ended
    requires place.Telling? || place.Handling? ==> threads[t].place.Telling? || threads[t].place.Handling?
    ensures var ended := place == Ended && l.handler;
            LaunchOk(l.(runs := if ended then l.runs + 1 else l.runs), threads[t := threads[t].(place := place)])
  {
    var threads' := threads[t := threads[t].(place := place)];
    assert forall u :: 0 <= u < |threads| ==> (Counted(threads'[u]) <==> Counted(threads[u]));
    assert AllCounted(l, threads') <==> AllCounted(l, threads);
  }

  lemma LaunchesAfter(launches: seq<Launch>, threads: seq<Thread>, t: nat, thread: Thread, l: Launch)
    requires Launches(launches, threads) && launches != []
    requires Base(launches) <= t < |threads|
    requires l.base == Base(launches) && l.count == launches[|launches| - 1].count
    requires LaunchOk(l, threads[t := thread])
    ensures Launches(launches[|launches| - 1 := l], threads[t := thread])
  {
    var launches' := launches[|launches| - 1 := l];
    forall e | 0 <= e < |launches'| ensures LaunchOk(launches'[e], threads[t := thread]) {
      if e < |launches| - 1 {
        OtherLaunch(launches[e], threads, t, thread);
      }
    }
  }

  lemma {:induction false} CountBound(threads: seq<Thread>, base: nat)
    requires base <= |threads|
    ensures |CountedFrom(threads, base)| <= |threads| - base
    ensures |CountedFrom(threads, base)| == |threads| - base
       <==> forall t :: base <= t < |threads| ==> Counted(threads[t])
    decreases |threads| - base
  {
    if base < |threads| {
      CountBound(threads, base + 1);
      if Counted(threads[base]) {
        assert CountedFrom(threads, base) == CountedFrom(threads, base + 1) + {base};
      } else {
        assert CountedFrom(threads, base) == CountedFrom(threads, base + 1);
      }
    } else {
      assert CountedFrom(threads, base) == {};
    }
  }

  /** A launch is through with `run` exactly when as many workers as it has have counted themselves. */
  lemma CountsAll(l: Launch, threads: seq<Thread>)
    requires l.base <= |threads| <= l.base + l.count
    ensures |CountedFrom(threads, l.base)| == l.count <==> AllCounted(l, threads)
  {
    CountBound(threads, l.base);
  }

  lemma OneMoreCounted(threads: seq<Thread>, base: nat, t: nat, place: Place)
    requires base <= t < |threads| && !Counted(threads[t]) && Counted(threads[t].(place := place))
    ensures |CountedFrom(threads[t := threads[t].(place := place)], base)| == |CountedFrom(threads, base)| + 1
  {
    assert CountedFrom(threads[t := threads[t].(place := place)], base) == CountedFrom(threads, base) + {t};
  }

  lemma SameCounted(threads: seq<Thread>, base: nat, t: nat, place: Place)
    requires base <= t < |threads| && (Counted(threads[t]) <==> Counted(threads[t].(place := place)))
    ensures CountedFrom(threads[t := threads[t].(place := place)], base) == CountedFrom(threads, base)
  {
    var threads' := threads[t := threads[t].(place := place)];
    assert forall u :: 0 <= u < |threads| ==> (Counted(threads'[u]) <==> Counted(threads[u]));
  }

  lemma LaunchAfterCount(l: Launch, threads: seq<Thread>, t: nat, done: nat)
    requires LaunchOk(l, threads) && l.base <= t < |threads| <= l.base + l.count
    requires threads[t].place == Left && done == |CountedFrom(threads, l.base)|
    ensures var last := done + 1 == l.count;
            LaunchOk(if last then l.(last := Some(t)) else l,
                     threads[t := threads[t].(place := if last then Telling else Ended)])
  {
    var last := done + 1 == l.count;
    var place := if last then Telling else Ended;
    var threads' := threads[t := threads[t].(place := place)];
    OneMoreCounted(threads, l.base, t, place);
    CountsAll(l, threads');
    assert !AllCounted(l, threads) by {
      assert !Counted(threads[t]);
    }
  }

  lemma EarlierAfter(threads: seq<Thread>, base: nat, t: nat, place: Place)
    requires EarlierJoined(threads, base) && base <= t < |threads| && !threads[t].joined
    ensures EarlierJoined(threads[t := threads[t].(place := place)], base)
  {
  }

  /** The stage of the call that holds `m_mtx` survives a worker's step. */
  lemma StageAfterWork(pc: Pc, s: Server, s': Server, t: nat, place: Place)
    requires Stage(pc, s) && EarlierJoined(s.threads, Base(s.launches)) && s.launches != []
    requires Base(s.launches) <= t < |s.threads| && s.threads[t].place != Ended && !s.threads[t].joined
    requires s' == s.(threads := s'.threads, done := s'.done, launches := s'.launches, actors := s'.actors)
    requires s'.threads == s.threads[t := s.threads[t].(place := place)]
    requires s'.launches != [] && Base(s'.launches) == Base(s.launches)
    requires s'.launches[|s'.launches| - 1].count == s.launches[|s.launches| - 1].count
    requires s.done == |CountedFrom(s.threads, Base(s.launches))| ==> s'.done == |CountedFrom(s'.threads, Base(s.launches))|
    requires pc.Joining? ==> s'.done == s.done
    requires pc.Asleep? ==> s.threads[t].place != Telling
                            && (s'.done == s.done || place == Telling || s'.done != s.launches[|s.launches| - 1].count)
    ensures Stage(pc, s')
  {
    if pc.Asleep? && s'.done == Planned(s') {
      if place == Telling {
        assert s'.threads[t].place == Telling;
      } else {
        var u :| Base(s.launches) <= u < |s.threads| && s.threads[u].place == Telling;
        assert s'.threads[u].place == Telling;
      }
    }
  }

  lemma SettledAfterWork(s: Server, t: nat)
    requires Inv(s) && CanWork(s, t, true) && s.mtx == None
    requires Complete(Advance(s, t).launches, Advance(s, t).threads, Advance(s, t).done)
    ensures Settled(Advance(s, t))
  {
    WorkerIsCurrent(s, t);
  }

  lemma LocksAfterNotify(actors: seq<Actor>, mtx: Option<nat>, stopMtx: Option<nat>)
    requires Locks(actors, mtx, stopMtx)
    ensures Locks(Notify(actors), mtx, stopMtx)
  {
  }

  /** The launch after a worker's step. */
  lemma LaunchAfterWork(s: Server, t: nat)
    requires Inv(s) && CanWork(s, t, true)
    ensures LaunchOk(NextLaunch(s, t), s.threads[t := s.threads[t].(place := NextPlace(s, t))])
  {
    WorkerIsCurrent(s, t);
    LastLaunchOk(s);
    var l := s.launches[|s.launches| - 1];
    if s.threads[t].place.Left? {
      CountIsExact(s, t);
      LaunchAfterCount(l, s.threads, t, s.done);
    } else {
      LaunchAfterMove(l, s.threads, t, NextPlace(s, t));
    }
  }

  lemma LastLaunchOk(s: Server)
    requires Inv(s) && s.launches != []
    ensures var l := s.launches[|s.launches| - 1];
            LaunchOk(l, s.threads) && |s.threads| <= l.base + l.count && l.base == Base(s.launches)
  {
  }

  /** A worker counts itself only while the count is that of its own launch. */
  lemma CountIsExact(s: Server, t: nat)
    requires Inv(s) && CanWork(s, t, true)
    ensures s.done == |CountedFrom(s.threads, Base(s.launches))|
  {
    WorkerIsCurrent(s, t);
  }

  lemma CountAfterWork(s: Server, t: nat)
    requires Inv(s) && CanWork(s, t, true)
    ensures Advance(s, t).done == |CountedFrom(Advance(s, t).threads, Base(s.launches))|
  {
    WorkerIsCurrent(s, t);
    CountIsExact(s, t);
    if s.threads[t].place.Left? {
      OneMoreCounted(s.threads, Base(s.launches), t, NextPlace(s, t));
    } else {
      SameCounted(s.threads, Base(s.launches), t, NextPlace(s, t));
    }
  }

  lemma HolderAfterWork(s: Server, t: nat)
    requires Inv(s) && CanWork(s, t, true) && s.mtx.Some?
    ensures var pc := s.actors[s.mtx.value].pc;
            && (pc.Joining? ==> !s.threads[t].place.Left?)
            && Stage(pc, s)
            && Advance(s, t).actors[s.mtx.value].pc
               == if pc.Asleep? && s.threads[t].place.Telling? then WantCheck else pc
  {
    if s.actors[s.mtx.value].pc.Joining? {
      assert s.stopMtx == Some(s.mtx.value);
    }
  }

  lemma StageSurvives(s: Server, t: nat)
    requires Inv(s) && CanWork(s, t, true) && s.mtx.Some?
    ensures Stage(Advance(s, t).actors[s.mtx.value].pc, Advance(s, t))
  {
    HolderAfterWork(s, t);
    WorkerIsCurrent(s, t);
    CountAfterWork(s, t);
    var pc := s.actors[s.mtx.value].pc;
    var woken := pc.Asleep? && s.threads[t].place.Telling?;
    StageAfterWork(if woken then WantCheck else pc, s, Advance(s, t), t, NextPlace(s, t));
  }

  lemma LaunchesAfterWork(s: Server, t: nat)
    requires Inv(s) && CanWork(s, t, true)
    ensures Launches(Advance(s, t).launches, Advance(s, t).threads)
  {
    WorkerIsCurrent(s, t);
    LaunchAfterWork(s, t);
    LaunchesAfter(s.launches, s.threads, t, s.threads[t].(place := NextPlace(s, t)), NextLaunch(s, t));
  }

  lemma WorkKeepsInv(s: Server, t: nat)
    requires Inv(s) && CanWork(s, t, true)
    ensures Inv(Advance(s, t))
  {
    WorkerIsCurrent(s, t);
    CountAfterWork(s, t);
    LaunchesAfterWork(s, t);
    LocksAfterNotify(s.actors, s.mtx, s.stopMtx);
    EarlierAfter(s.threads, Base(s.launches), t, NextPlace(s, t));
    if s.mtx.Some? {
      StageSurvives(s, t);
    } else {
      CompleteAfterWork(s, t);
      SettledAfterWork(s, t);
    }
  }

  lemma CompleteAfterWork(s: Server, t: nat)
    requires Inv(s) && CanWork(s, t, true) && s.mtx == None
    ensures Complete(Advance(s, t).launches, Advance(s, t).threads, Advance(s, t).done)
  {
    CountAfterWork(s, t);
  }

  lemma StepKeepsInv(s: Server, a: Action)
    requires Inv(s)
    ensures Inv(Step(s, a))
  {
    if Enabled(s, a) {
      match a
      case Call(op) => CallKeepsInv(s, op);
      case Go(i) => GoKeepsInv(s, i);
      case Spurious(i) => SpuriousKeepsInv(s, i);
      case Work(t, _) => WorkKeepsInv(s, t);
    }
  }

  lemma {:induction false} RunKeepsInv(s: Server, acts: seq<Action>)
    requires Inv(s)
    ensures Inv(Run(s, acts))
    decreases |acts|
  {
    if acts != [] {
      StepKeepsInv(s, acts[0]);
      RunKeepsInv(Step(s, acts[0]), acts[1..]);
    }
  }

  lemma InitKeepsInv(workers: U32)
    ensures Inv(Init(workers))
  {
  }

  // ----- main results -----

  /** Whatever threads start and stop the server meanwhile: while it is not running every worker ever made
      has ended and is joined, and so no start ever destroys a joinable thread. */
  lemma RestartDropsNothing(workers: U32, acts: seq<Action>)
    ensures var s := Run(Init(workers), acts);
            !s.dropped && (!s.running ==> AllJoined(s.threads))
  {
    InitKeepsInv(workers);
    RunKeepsInv(Init(workers), acts);
  }

  /** When a `stop` called outside the io context returns, every worker of every start up to then, the
      current one included, has ended and is joined. */
  lemma StopAwaitsWorkers(workers: U32, acts: seq<Action>, i: nat)
    requires var s := Run(Init(workers), acts);
             CanGo(s, i) && s.actors[i].op.Stop? && Proceed(s, i).actors[i].pc == Returned
    ensures var s' := Proceed(Run(Init(workers), acts), i);
            AllJoined(s'.threads) && !s'.running && s'.mtx == None
  {
    InitKeepsInv(workers);
    RunKeepsInv(Init(workers), acts);
    var s := Run(Init(workers), acts);
    StopStaysInStop(Init(workers), acts);
    assert InStop(s.actors[i].pc);
    StopReturns(s, i);
  }

  lemma StopReturns(s: Server, i: nat)
    requires Inv(s) && CanGo(s, i) && InStop(s.actors[i].pc) && s.actors[i].op.Stop?
    requires Proceed(s, i).actors[i].pc == Returned
    ensures AllJoined(Proceed(s, i).threads) && !Proceed(s, i).running && Proceed(s, i).mtx == None
  {
    assert s.mtx == Some(i) && Stage(s.actors[i].pc, s);
  }

  /** A `stop` only ever stands in the code of `stop`. */
  ghost predicate StopPlaces(actors: seq<Actor>) {
    forall i :: 0 <= i < |actors| && actors[i].op.Stop? ==> InStop(actors[i].pc)
  }

  predicate InStop(pc: Pc) {
    pc.Halting? || pc.WantStop? || pc.Stopping? || pc.WantCheck? || pc.Checking? || pc.Asleep?
    || pc.Joining? || pc.Returned?
  }

  lemma {:induction false} StopStaysInStop(s: Server, acts: seq<Action>)
    requires StopPlaces(s.actors)
    ensures StopPlaces(Run(s, acts).actors)
    decreases |acts|
  {
    if acts != [] {
      StopPlacesStep(s, acts[0]);
      StopStaysInStop(Step(s, acts[0]), acts[1..]);
    }
  }

  lemma InStopGo(s: Server, i: nat)
    requires CanGo(s, i) && s.actors[i].op.Stop? && InStop(s.actors[i].pc)
    ensures InStop(Proceed(s, i).actors[i].pc)
  {
  }

  lemma StopPlacesGo(s: Server, i: nat)
    requires StopPlaces(s.actors) && CanGo(s, i)
    ensures StopPlaces(Proceed(s, i).actors)
  {
    if s.actors[i].op.Stop? {
      InStopGo(s, i);
    }
  }

  lemma StopPlacesStep(s: Server, a: Action)
    requires StopPlaces(s.actors)
    ensures StopPlaces(Step(s, a).actors)
  {
    if Enabled(s, a) && a.Go? {
      StopPlacesGo(s, a.i);
    }
  }

  // ----- what a start makes -----

  /** `async_start` leaves all the work to its threads; `start` works itself, and has one thread less.
      The number is unsigned: without any configured worker `start` makes 2^32 - 1 threads. */
  function ThreadsOf(op: Op, workers: U32): nat {
    if op.AsyncStart? then workers else if workers == 0 then 0xFFFF_FFFF else workers - 1
  }

  predicate IsStart(op: Op) {
    op.Start? || op.AsyncStart?
  }

  predicate Fits(l: Launch, op: Op, workers: U32, base: nat) {
    l.base == base && l.count == ThreadsOf(op, workers) && l.handler == (op.AsyncStart? && op.handler)
  }

  /** Where the call `actor` is that found the server not running when `n` launches and `base` threads had
      been made: it has yet to make launch `n`, is about to give it its threads, or has done so. */
  ghost predicate Tracks(s: Server, actor: Actor, workers: U32, n: nat, base: nat) {
    && s.workers == workers
    && match actor.pc
       case Clearing => |s.launches| == n && |s.threads| == base && s.asyncStart == actor.op.AsyncStart?
       case Zeroing => |s.launches| == n + 1 && Fits(s.launches[n], actor.op, workers, base)
       case Spawning => |s.launches| == n + 1 && Fits(s.launches[n], actor.op, workers, base)
       case Serving => actor.op.Start? && HasThreads(s, actor.op, workers, n, base)
       case Returned => HasThreads(s, actor.op, workers, n, base)
       case _ => false
  }

  ghost predicate HasThreads(s: Server, op: Op, workers: U32, n: nat, base: nat) {
    n < |s.launches| && Fits(s.launches[n], op, workers, base) && base + ThreadsOf(op, workers) <= |s.threads|
  }

  /** What a step leaves of launches and threads while call `i` stands still. */
  ghost predicate Keeps(s: Server, s': Server) {
    && s'.workers == s.workers && |s.launches| <= |s'.launches| && |s.threads| <= |s'.threads|
    && forall e :: 0 <= e < |s.launches| ==>
         s'.launches[e] == s.launches[e].(last := s'.launches[e].last, runs := s'.launches[e].runs)
  }

  lemma MakingKeeps(s: Server, i: nat)
    requires CanGo(s, i) && (s.actors[i].pc.Clearing? || s.actors[i].pc.Spawning?)
    ensures Keeps(s, Effect(s, i))
  {
  }

  lemma JoiningKeeps(s: Server, i: nat)
    requires CanGo(s, i) && s.actors[i].pc.Joining?
    ensures Keeps(s, Effect(s, i))
  {
  }

  lemma RestKeeps(s: Server, i: nat)
    requires CanGo(s, i)
    requires !s.actors[i].pc.Clearing? && !s.actors[i].pc.Spawning? && !s.actors[i].pc.Joining?
    ensures SameThreads(s, Effect(s, i))
  {
  }

  predicate SameThreads(s: Server, s': Server) {
    s'.workers == s.workers && s'.launches == s.launches && s'.threads == s.threads
  }

  lemma GoKeeps(s: Server, i: nat)
    requires CanGo(s, i)
    ensures Keeps(s, Proceed(s, i))
  {
    var pc := s.actors[i].pc;
    if pc.Clearing? || pc.Spawning? {
      MakingKeeps(s, i);
    } else if pc.Joining? {
      JoiningKeeps(s, i);
    } else {
      RestKeeps(s, i);
    }
  }

  lemma StepKeeps(s: Server, a: Action)
    ensures Keeps(s, Step(s, a)) && |s.actors| <= |Step(s, a).actors|
    ensures forall i :: 0 <= i < |s.actors| ==> Step(s, a).actors[i].op == s.actors[i].op
  {
    if Enabled(s, a) && a.Go? {
      GoKeeps(s, a.i);
    }
  }

  /** While one call holds `m_mtx` inside a start, no other makes a launch or a thread. */
  lemma OthersMakeNothing(s: Server, a: Action, i: nat)
    requires Inv(s) && i < |s.actors| && !(a.Go? && a.i == i)
    requires s.actors[i].pc.Clearing? || s.actors[i].pc.Zeroing? || s.actors[i].pc.Spawning?
    ensures var s' := Step(s, a);
            && i < |s'.actors| && s'.actors[i] == s.actors[i] && |s'.launches| == |s.launches|
            && |s'.threads| == |s.threads| && s'.asyncStart == s.asyncStart
  {
    assert s.mtx == Some(i);
    if a.Go? && Enabled(s, a) {
      OtherGoMakesNothing(s, a.i);
    }
  }

  lemma OtherGoMakesNothing(s: Server, j: nat)
    requires CanGo(s, j) && !s.actors[j].pc.Clearing? && !s.actors[j].pc.Spawning? && !s.actors[j].pc.Starting?
    ensures var s' := Proceed(s, j);
            && |s'.launches| == |s.launches| && |s'.threads| == |s.threads| && s'.asyncStart == s.asyncStart
  {
  }

  lemma OthersLeaveDone(s: Server, a: Action, i: nat)
    requires i < |s.actors| && (s.actors[i].pc.Serving? || s.actors[i].pc.Returned?)
    ensures var s' := Step(s, a);
            i < |s'.actors| && (s'.actors[i] == s.actors[i] || s'.actors[i].pc.Returned?)
  {
  }

  lemma OwnStepTracks(s: Server, i: nat, workers: U32, n: nat, base: nat)
    requires CanGo(s, i) && IsStart(s.actors[i].op) && Tracks(s, s.actors[i], workers, n, base)
    ensures Tracks(Proceed(s, i), Proceed(s, i).actors[i], workers, n, base)
  {
    if s.actors[i].pc == Spawning {
      assert s.launches[|s.launches| - 1] == s.launches[n];
    }
  }

  lemma TracksAtStep(s: Server, a: Action, i: nat, workers: U32, n: nat, base: nat)
    requires Inv(s) && i < |s.actors| && IsStart(s.actors[i].op) && Tracks(s, s.actors[i], workers, n, base)
    ensures i < |Step(s, a).actors| && Step(s, a).actors[i].op == s.actors[i].op
    ensures Tracks(Step(s, a), Step(s, a).actors[i], workers, n, base)
  {
    StepKeeps(s, a);
    if s.actors[i].pc.Serving? || s.actors[i].pc.Returned? {
      OthersLeaveDone(s, a, i);
    } else if a == Go(i) {
      if Enabled(s, a) {
        OwnStepTracks(s, i, workers, n, base);
      }
    } else {
      OthersMakeNothing(s, a, i);
    }
  }

  lemma {:induction false} TracksOverRun(s: Server, acts: seq<Action>, i: nat, workers: U32, n: nat, base: nat)
    requires Inv(s) && i < |s.actors| && IsStart(s.actors[i].op) && Tracks(s, s.actors[i], workers, n, base)
    ensures var s' := Run(s, acts);
            && i < |s'.actors| && s'.actors[i].op == s.actors[i].op
            && Tracks(s', s'.actors[i], workers, n, base)
    decreases |acts|
  {
    if acts != [] {
      StepKeepsInv(s, acts[0]);
      TracksAtStep(s, acts[0], i, workers, n, base);
      TracksOverRun(Step(s, acts[0]), acts[1..], i, workers, n, base);
    }
  }

  lemma {:induction false} WorkersStay(s: Server, acts: seq<Action>)
    ensures Run(s, acts).workers == s.workers
    decreases |acts|
  {
    if acts != [] {
      StepKeeps(s, acts[0]);
      WorkersStay(Step(s, acts[0]), acts[1..]);
    }
  }

  /** The call has made its launch, with all its threads, by the time it returns or serves itself. */
  ghost predicate LaunchesAll(s: Server, op: Op, i: nat, workers: U32, n: nat, base: nat) {
    && i < |s.actors| && s.actors[i].op == op
    && (s.actors[i].pc.Clearing? || s.actors[i].pc.Zeroing? || s.actors[i].pc.Spawning?
        || HasThreads(s, op, workers, n, base))
    && (s.actors[i].pc.Serving? ==> op.Start?)
  }

  /** In every run, a start that finds the server not running makes one launch; when `async_start` returns,
      the launch has exactly the configured number of threads, and when `start` comes to serve it has one
      less; it keeps the handler if one was given to `async_start`. */
  lemma StartMakesItsThreads(workers: U32, before: seq<Action>, i: nat, after: seq<Action>)
    requires var s := Run(Init(workers), before);
             i < |s.actors| && IsStart(s.actors[i].op) && s.actors[i].pc == Starting && !s.running
    ensures var s := Run(Init(workers), before);
            LaunchesAll(Run(Step(s, Go(i)), after), s.actors[i].op, i, workers, |s.launches|, |s.threads|)
  {
    InitKeepsInv(workers);
    RunKeepsInv(Init(workers), before);
    WorkersStay(Init(workers), before);
    StartTracks(Run(Init(workers), before), i, workers, after);
  }

  lemma StartTracks(s: Server, i: nat, workers: U32, after: seq<Action>)
    requires Inv(s) && s.workers == workers
    requires i < |s.actors| && IsStart(s.actors[i].op) && s.actors[i].pc == Starting && !s.running
    ensures LaunchesAll(Run(Step(s, Go(i)), after), s.actors[i].op, i, workers, |s.launches|, |s.threads|)
  {
    StepKeepsInv(s, Go(i));
    TracksOverRun(Step(s, Go(i)), after, i, workers, |s.launches|, |s.threads|);
  }

  /** With its threads made, `start` goes on to serve on its caller's own thread, and `async_start` returns;
      the lock is free either way. */
  lemma ThreadsMade(workers: U32, acts: seq<Action>, i: nat)
    requires var s := Run(Init(workers), acts);
             i < |s.actors| && s.actors[i].pc == Spawning && s.launches != []
             && |s.threads| == s.launches[|s.launches| - 1].base + s.launches[|s.launches| - 1].count
    ensures var s := Run(Init(workers), acts);
            var s' := Step(s, Go(i));
            && s'.actors[i].pc == (if s.actors[i].op.Start? then Serving else Returned)
            && s'.mtx == None && s'.running && s'.threads == s.threads
  {
    InitKeepsInv(workers);
    RunKeepsInv(Init(workers), acts);
    AllSpawned(Run(Init(workers), acts), i);
  }

  lemma AllSpawned(s: Server, i: nat)
    requires Inv(s) && i < |s.actors| && s.actors[i].pc == Spawning && s.launches != []
    requires |s.threads| == s.launches[|s.launches| - 1].base + s.launches[|s.launches| - 1].count
    ensures var s' := Step(s, Go(i));
            && s'.actors[i].pc == (if s.actors[i].op.Start? then Serving else Returned)
            && s'.mtx == None && s'.running && s'.threads == s.threads
  {
    assert s.mtx == Some(i) && Stage(Spawning, s);
  }

  /** A start lets go of the io context. */
  predicate Restarts(s: Server, a: Action) {
    a.Go? && a.i < |s.actors| && s.actors[a.i].pc == Clearing
  }

  ghost predicate NoRestart(s: Server, acts: seq<Action>)
    decreases |acts|
  {
    acts != [] ==> !Restarts(s, acts[0]) && NoRestart(Step(s, acts[0]), acts[1..])
  }

  lemma {:induction false} StaysStopped(s: Server, acts: seq<Action>)
    requires s.ioStopped && NoRestart(s, acts)
    ensures Run(s, acts).ioStopped
    decreases |acts|
  {
    if acts != [] {
      assert Step(s, acts[0]).ioStopped;
      StaysStopped(Step(s, acts[0]), acts[1..]);
    }
  }

  /** A `stop`, from within the io context or not, lets every worker leave `run`: from its first step on,
      until a start lets go of the io context again, each one in it can go, whatever work there is. */
  lemma StopLetsWorkersGo(workers: U32, before: seq<Action>, i: nat, after: seq<Action>, t: nat)
    requires var s := Run(Init(workers), before);
             i < |s.actors| && s.actors[i].pc == Halting && NoRestart(Step(s, Go(i)), after)
    requires var s' := Run(Step(Run(Init(workers), before), Go(i)), after);
             t < |s'.threads| && s'.threads[t].place == InIo
    ensures var s' := Run(Step(Run(Init(workers), before), Go(i)), after);
            CanWork(s', t, false) && Step(s', Work(t, false)).threads[t].place == Left
  {
    InitKeepsInv(workers);
    RunKeepsInv(Init(workers), before);
    StepKeepsInv(Run(Init(workers), before), Go(i));
    RunKeepsInv(Step(Run(Init(workers), before), Go(i)), after);
    StaysStopped(Step(Run(Init(workers), before), Go(i)), after);
    InIoLeaves(Run(Step(Run(Init(workers), before), Go(i)), after), t);
  }

  lemma InIoLeaves(s: Server, t: nat)
    requires Inv(s) && s.ioStopped && t < |s.threads| && s.threads[t].place == InIo
    ensures CanWork(s, t, false) && Step(s, Work(t, false)).threads[t].place == Left
  {
  }

  /** A `stop` stops the io context. */
  predicate Halts(s: Server, a: Action) {
    a.Go? && a.i < |s.actors| && s.actors[a.i].pc == Halting
  }

  ghost predicate NoHalt(s: Server, acts: seq<Action>)
    decreases |acts|
  {
    acts != [] ==> !Halts(s, acts[0]) && NoHalt(Step(s, acts[0]), acts[1..])
  }

  lemma {:induction false} StaysRestarted(s: Server, acts: seq<Action>)
    requires !s.ioStopped && NoHalt(s, acts)
    ensures !Run(s, acts).ioStopped
    decreases |acts|
  {
    if acts != [] {
      assert !Step(s, acts[0]).ioStopped;
      StaysRestarted(Step(s, acts[0]), acts[1..]);
    }
  }

  /** A start makes the io context run again: from its first step on, until a `stop` stops it, a worker in it
      stays there as long as it has work, also after any number of stops before. */
  lemma StartLetsWorkersStay(workers: U32, before: seq<Action>, i: nat, after: seq<Action>, t: nat)
    requires var s := Run(Init(workers), before);
             i < |s.actors| && s.actors[i].pc == Clearing && NoHalt(Step(s, Go(i)), after)
    requires var s' := Run(Step(Run(Init(workers), before), Go(i)), after);
             t < |s'.threads| && s'.threads[t].place == InIo
    ensures var s' := Run(Step(Run(Init(workers), before), Go(i)), after);
            !CanWork(s', t, false)
  {
    StaysRestarted(Step(Run(Init(workers), before), Go(i)), after);
  }

  /** The io-stopped handler of launch `e` runs at most once; it has run exactly when a handler was given,
      the launch has at least one worker, all of them have left `run` and counted themselves, and the last
      to do so, which is the one that calls it, has ended. */
  lemma HandlerRunsOnceByLast(workers: U32, acts: seq<Action>, e: nat)
    requires e < |Run(Init(workers), acts).launches|
    ensures var s := Run(Init(workers), acts);
            var l := s.launches[e];
            && l.runs <= 1
            && (l.runs == 1 <==> && l.handler && l.count > 0 && AllCounted(l, s.threads)
                                 && forall t :: l.base <= t < l.base + l.count ==> s.threads[t].place == Ended)
            && (forall t :: 0 <= t < |s.threads| && l.base <= t < l.base + l.count && s.threads[t].place == Handling
                  ==> AllCounted(l, s.threads) && l.last == Some(t))
  {
    InitKeepsInv(workers);
    RunKeepsInv(Init(workers), acts);
    var s := Run(Init(workers), acts);
    assert LaunchOk(s.launches[e], s.threads);
  }

  /** A `stop` asleep in the condition variable is not forgotten: when all workers are done, the last one
      is about to notify; and once `stop` joins, no worker is in need of a lock. */
  lemma StopIsWoken(workers: U32, acts: seq<Action>, i: nat)
    requires i < |Run(Init(workers), acts).actors|
    ensures var s := Run(Init(workers), acts);
            && (s.actors[i].pc.Asleep? && s.done == Planned(s) ==> SomeoneTells(s.threads, Base(s.launches)))
            && (s.actors[i].pc.Joining? ==>
                  forall t :: 0 <= t < |s.threads| ==> s.threads[t].place != InIo && s.threads[t].place != Left)
  {
    InitKeepsInv(workers);
    RunKeepsInv(Init(workers), acts);
    var s := Run(Init(workers), acts);
    if s.actors[i].pc.Joining? {
      assert s.mtx == Some(i);
      CountsAll(s.launches[|s.launches| - 1], s.threads);
    }
  }
}
