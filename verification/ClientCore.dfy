/** The sending half of a client session: the write pump over `data_send` entries, together with the
    promises their callers wait on. */
module ClientCore {
  import opened Wrappers
  import opened Wire
  import opened WritePump

  /** `data_send`; `caller` names the call whose promise and bytes the entry refers to. */
  datatype Entry = Entry(callId: U32, resultId: U64, caller: nat, body: Bytes)

  function EntryHeader(e: Entry): IoHeader {
    NewHeader(e.callId, e.resultId)
  }

  /** What `write` hands to `async_write`. */
  function EntryFrame(e: Entry): Bytes {
    Frame(EntryHeader(e), e.body)
  }

  /** A `promise<bool>`, which an entry reaches through a weak pointer: `held` while its caller keeps it. */
  datatype Promise = Promise(held: bool, value: Option<bool>)

  /** Lock the weak pointer, then `set_value`; setting a second time throws, which is ignored. */
  function Fulfil(p: Promise, v: bool): Promise {
    if p.held && p.value.None? then p.(value := Some(v)) else p
  }

  ghost predicate Calls(entries: seq<Entry>, caller: nat) {
    exists k :: 0 <= k < |entries| && entries[k].caller == caller
  }

  /** Fulfils the promise of every entry listed. */
  ghost function FulfilAll(ps: seq<Promise>, entries: seq<Entry>, v: bool): (qs: seq<Promise>) {
    seq(|ps|, i requires 0 <= i < |ps| => if Calls(entries, i) then Fulfil(ps[i], v) else ps[i])
  }

  /** The promises after `on_write`: `write_next` fulfils the front one with true, `clear` fulfils all
      with false. */
  ghost function PromisesAfterWrite(p: Pump<Entry>, ps: seq<Promise>, failed: bool): (qs: seq<Promise>)
    ensures |qs| == |ps|
  {
    if WriteGivesUp(p, failed) then FulfilAll(ps, p.queue, false)
    else if p.queue == [] then ps
    else FulfilAll(ps, [p.queue[0]], true)
  }

  // ----- runs: conservation of promises -----

  datatype Outcome = Written | Failed | Expired

  /** `outcomes[i]` says what became of accepted entry `i` when it left the queue. `sent` holds the
      callers whose posted `handle_send` has run. */
  datatype Sender = Sender(pump: Pump<Entry>, promises: seq<Promise>, ran: set<nat>, outcomes: seq<Outcome>)

  datatype Action =
    | MakePromise
    | DropPromise(caller: nat)
    | RunSend(e: Entry)
    | Deliver
    | WriteDone(failed: bool)
    | ReadError
    | PeerClose
    | Close

  function OutcomeOf(p: Promise, v: bool): Outcome {
    if !p.held then Expired else if v then Written else Failed
  }

  ghost function OutcomesAfterWrite(s: Sender, failed: bool): seq<Outcome>
    requires forall k :: 0 <= k < |s.pump.queue| ==> s.pump.queue[k].caller < |s.promises|
  {
    var q := s.pump.queue;
    if WriteGivesUp(s.pump, failed)
    then s.outcomes + seq(|q|, k requires 0 <= k < |q| => OutcomeOf(s.promises[q[k].caller], false))
    else if q == [] then s.outcomes
    else s.outcomes + [OutcomeOf(s.promises[q[0].caller], true)]
  }

  ghost predicate Enabled(s: Sender, a: Action) {
    match a
    case RunSend(e) => e.caller < |s.promises| && e.caller !in s.ran
    case DropPromise(caller) => caller < |s.promises|
    case Deliver => s.pump.writing && !s.pump.onWire
    case WriteDone(failed) =>
      && s.pump.writing && (failed || s.pump.onWire)
      && forall k :: 0 <= k < |s.pump.queue| ==> s.pump.queue[k].caller < |s.promises|
    case _ => true
  }

  ghost function Step(s: Sender, a: Action): Sender {
    if !Enabled(s, a) then s else
    match a
    case MakePromise => s.(promises := s.promises + [Promise(true, None)])
    case DropPromise(caller) => s.(promises := s.promises[caller := s.promises[caller].(held := false)])
    case RunSend(e) => s.(pump := HandleSend(s.pump, e), ran := s.ran + {e.caller})
    case Deliver => s.(pump := Transmit(s.pump))
    case WriteDone(failed) =>
      Sender(OnWrite(s.pump, failed, true), PromisesAfterWrite(s.pump, s.promises, failed),
             s.ran, OutcomesAfterWrite(s, failed))
    case ReadError => s.(pump := ReadFails(s.pump, true))
    case PeerClose => s.(pump := CloseFrame(s.pump))
    case Close => s.(pump := CloseNow(s.pump))
  }

  ghost function Run(s: Sender, acts: seq<Action>): Sender
    decreases |acts|
  {
    if acts == [] then s else Run(Step(s, acts[0]), acts[1..])
  }

  function NewSender(): Sender {
    Sender(NewPump(), [], {}, [])
  }

  /** Every accepted entry belongs to its own promise. */
  ghost predicate Distinct(s: Sender) {
    var acc := s.pump.accepted;
    && (forall k :: 0 <= k < |acc| ==> acc[k].caller < |s.promises| && acc[k].caller in s.ran)
    && (forall j, k :: 0 <= j < k < |acc| ==> acc[j].caller != acc[k].caller)
  }

  /** What the promise behind accepted entry `k` holds, read off from where the entry went. */
  ghost predicate Settled(s: Sender, k: nat)
    requires k < |s.pump.accepted| && s.pump.accepted[k].caller < |s.promises|
  {
    var p := s.promises[s.pump.accepted[k].caller];
    if k < |s.outcomes| then
      match s.outcomes[k]
      case Written => p.value == Some(true) && k < s.pump.popped
      case Failed => p.value == Some(false) && k >= s.pump.popped
      case Expired => p.value == None && !p.held
    else p.value == None
  }

  ghost predicate Inv(s: Sender) {
    && WritePump.Inv(s.pump)
    && Distinct(s)
    && |s.outcomes| == s.pump.popped + s.pump.dropped
    && (forall k :: 0 <= k < |s.pump.accepted| ==> Settled(s, k))
    && (forall i :: 0 <= i < |s.promises| && !Calls(s.pump.accepted, i) ==> s.promises[i].value == None)
  }

  lemma CallsOfAppend(entries: seq<Entry>, e: Entry, caller: nat)
    ensures Calls(entries + [e], caller) <==> Calls(entries, caller) || e.caller == caller
  {
    var all := entries + [e];
    assert all[|entries|] == e;
    assert forall k :: 0 <= k < |entries| ==> all[k] == entries[k];
  }

  lemma AcceptedAfterSend(p: Pump<Entry>, e: Entry)
    requires WritePump.Inv(p)
    ensures var q := HandleSend(p, e);
            && WritePump.Inv(q)
            && q.accepted == (if Accepts(p) then p.accepted + [e] else p.accepted)
            && q.popped == p.popped && q.dropped == p.dropped
  {
    WritePump.StepKeepsInv(p, Send(e));
  }

  lemma AppendStaysDistinct(s: Sender, s': Sender, e: Entry)
    requires Distinct(s) && e.caller < |s.promises| && e.caller !in s.ran
    requires s'.pump.accepted == s.pump.accepted + [e] && s'.promises == s.promises && s'.ran == s.ran + {e.caller}
    ensures Distinct(s') && !Calls(s.pump.accepted, e.caller)
  {
  }

  lemma RunSendKeepsInv(s: Sender, e: Entry)
    requires Inv(s) && Enabled(s, RunSend(e))
    ensures Inv(Step(s, RunSend(e)))
  {
    var pump := HandleSend(s.pump, e);
    var s' := Step(s, RunSend(e));
    AcceptedAfterSend(s.pump, e);
    assert s'.pump == pump;
    if Accepts(s.pump) {
      AppendStaysDistinct(s, s', e);
      forall i ensures Calls(s'.pump.accepted, i) <==> Calls(s.pump.accepted, i) || e.caller == i {
        CallsOfAppend(s.pump.accepted, e, i);
      }
    }
    forall k | 0 <= k < |pump.accepted| ensures Settled(s', k) {
      if k < |s.pump.accepted| { assert Settled(s, k); }
    }
  }

  /** The entries whose promises one completion fulfils: the front one, or all of them. */
  function Leaving(p: Pump<Entry>, failed: bool): seq<Entry>
    requires p.queue != []
  {
    if WriteGivesUp(p, failed) then p.queue else [p.queue[0]]
  }

  /** They are the accepted entries right after those that already left. */
  lemma LeavingIsNext(s: Sender, failed: bool)
    requires Inv(s) && s.pump.queue != []
    ensures var n, left := |s.outcomes|, Leaving(s.pump, failed);
            && n + |left| <= |s.pump.accepted|
            && left == s.pump.accepted[n..n + |left|]
            && forall k :: 0 <= k < |s.pump.accepted|
                 ==> (Calls(left, s.pump.accepted[k].caller) <==> n <= k < n + |left|)
  {
    var acc, n, left := s.pump.accepted, |s.outcomes|, Leaving(s.pump, failed);
    forall k | 0 <= k < |acc|
      ensures Calls(left, acc[k].caller) <==> n <= k < n + |left|
    {
      if n <= k < n + |left| {
        assert left[k - n].caller == acc[k].caller;
      }
    }
  }

  lemma WriteSettles(s: Sender, failed: bool, k: nat)
    requires Inv(s) && Enabled(s, Action.WriteDone(failed)) && k < |s.pump.accepted|
    requires Distinct(Step(s, Action.WriteDone(failed)))
    requires Step(s, Action.WriteDone(failed)).pump.accepted == s.pump.accepted
    ensures Settled(Step(s, Action.WriteDone(failed)), k)
  {
    LeavingIsNext(s, failed);
    assert Settled(s, k);
  }

  lemma WriteDoneKeepsInv(s: Sender, failed: bool)
    requires Inv(s) && Enabled(s, Action.WriteDone(failed))
    ensures Inv(Step(s, Action.WriteDone(failed)))
  {
    var s' := Step(s, Action.WriteDone(failed));
    WritePump.StepKeepsInv(s.pump, WritePump.Action.WriteDone(failed, true));
    assert s'.pump.accepted == s.pump.accepted;
    LeavingIsNext(s, failed);
    forall k | 0 <= k < |s.pump.accepted| ensures Settled(s', k) {
      WriteSettles(s, failed, k);
    }
    forall i | 0 <= i < |s.promises| && !Calls(s.pump.accepted, i) ensures s'.promises[i].value == None {
      assert !Calls(Leaving(s.pump, failed), i);
    }
  }

  lemma PromiseStepKeepsInv(s: Sender, a: Action)
    requires Inv(s) && Enabled(s, a) && (a.MakePromise? || a.DropPromise?)
    ensures Inv(Step(s, a))
  {
    var s' := Step(s, a);
    forall k | 0 <= k < |s.pump.accepted| ensures Settled(s', k) {
      assert Settled(s, k);
    }
    if a.MakePromise? {
      assert !Calls(s.pump.accepted, |s.promises|);
    }
  }

  lemma QuietStepKeepsInv(s: Sender, a: Action)
    requires Inv(s) && Enabled(s, a) && (a.Deliver? || a.ReadError? || a.PeerClose? || a.Close?)
    ensures Inv(Step(s, a))
  {
    var s' := Step(s, a);
    forall k | 0 <= k < |s.pump.accepted| ensures Settled(s', k) {
      assert Settled(s, k);
    }
  }

  lemma StepKeepsInv(s: Sender, a: Action)
    requires Inv(s)
    ensures Inv(Step(s, a))
  {
    if Enabled(s, a) {
      match a
      case RunSend(e) => RunSendKeepsInv(s, e);
      case WriteDone(failed) => WriteDoneKeepsInv(s, failed);
      case MakePromise => PromiseStepKeepsInv(s, a);
      case DropPromise(_) => PromiseStepKeepsInv(s, a);
      case _ => QuietStepKeepsInv(s, a);
    }
  }

  lemma {:induction false} RunKeepsInv(s: Sender, acts: seq<Action>)
    requires Inv(s)
    ensures Inv(Run(s, acts))
    decreases |acts|
  {
    if acts != [] {
      StepKeepsInv(s, acts[0]);
      RunKeepsInv(Step(s, acts[0]), acts[1..]);
    }
  }

  /** What the promise behind accepted entry `k` holds. */
  function ValueOf(s: Sender, k: nat): Option<bool>
    requires k < |s.pump.accepted| && s.pump.accepted[k].caller < |s.promises|
  {
    s.promises[s.pump.accepted[k].caller].value
  }

  /** The outcome of every entry that left the queue says what its promise holds. */
  ghost predicate OutcomesTell(s: Sender) {
    forall k :: 0 <= k < |s.outcomes| ==>
      && k < |s.pump.accepted| && s.pump.accepted[k].caller < |s.promises|
      && (s.outcomes[k] == Written <==> ValueOf(s, k) == Some(true))
      && (s.outcomes[k] == Failed <==> ValueOf(s, k) == Some(false))
      && (s.outcomes[k] == Expired <==> ValueOf(s, k) == None)
      && (s.outcomes[k] == Expired ==> !s.promises[s.pump.accepted[k].caller].held)
  }

  /** The number of entries whose promise holds `v`. */
  function Holding(entries: seq<Entry>, ps: seq<Promise>, v: Option<bool>): nat
    requires forall k :: 0 <= k < |entries| ==> entries[k].caller < |ps|
  {
    if entries == [] then 0 else (if ps[entries[0].caller].value == v then 1 else 0) + Holding(entries[1..], ps, v)
  }

  /** Of the entries accepted, those at the end are still queued and unresolved; each of the others holds
      true or false, or its caller has let go of it. */
  ghost predicate Conserved(s: Sender) {
    var gone := |s.pump.accepted| - |s.pump.queue|;
    && 0 <= gone && s.pump.queue == s.pump.accepted[gone..]
    && (forall k :: 0 <= k < |s.pump.accepted| ==> s.pump.accepted[k].caller < |s.promises|)
    && (forall k :: gone <= k < |s.pump.accepted| ==> ValueOf(s, k) == None)
    && (forall k :: 0 <= k < gone && ValueOf(s, k) == None ==> !s.promises[s.pump.accepted[k].caller].held)
    && |s.pump.accepted| == Holding(s.pump.accepted[..gone], s.promises, Some(true))
                            + Holding(s.pump.accepted[..gone], s.promises, Some(false))
                            + Holding(s.pump.accepted[..gone], s.promises, None)
                            + |s.pump.queue|
  }

  lemma {:induction false} HoldingAddsUp(entries: seq<Entry>, ps: seq<Promise>)
    requires forall k :: 0 <= k < |entries| ==> entries[k].caller < |ps|
    ensures Holding(entries, ps, Some(true)) + Holding(entries, ps, Some(false)) + Holding(entries, ps, None) == |entries|
  {
    if entries != [] {
      match ps[entries[0].caller].value {
        case None =>
        case Some(v) => assert v || Some(v) == Some(false);
      }
      HoldingAddsUp(entries[1..], ps);
    }
  }

  lemma InvGivesConserved(s: Sender)
    requires Inv(s)
    ensures Conserved(s) && OutcomesTell(s)
  {
    var gone := |s.outcomes|;
    forall k | 0 <= k < |s.pump.accepted| ensures s.pump.accepted[k].caller < |s.promises| && Settled(s, k) {}
    HoldingAddsUp(s.pump.accepted[..gone], s.promises);
  }

  /** Conservation, over every run: accepted = resolved true + resolved false + expired + still queued,
      counted over the promises themselves. */
  lemma PromiseConservation(acts: seq<Action>)
    ensures Conserved(Run(NewSender(), acts)) && OutcomesTell(Run(NewSender(), acts))
  {
    InitKeepsInv();
    RunKeepsInv(NewSender(), acts);
    InvGivesConserved(Run(NewSender(), acts));
  }

  lemma InitKeepsInv()
    ensures Inv(NewSender())
  {
    NewPumpKeepsInv<Entry>();
  }

  /** True means transmitted; of the messages transmitted at most one, the head at shutdown, is
      resolved false; a promise whose entry is still queued is not resolved, and one whose entry has
      left the queue is, unless the caller had let go of it. */
  ghost predicate Meaning(s: Sender, k: nat)
    requires k < |s.pump.accepted|
  {
    var caller := s.pump.accepted[k].caller;
    && caller < |s.promises|
    && var value := s.promises[caller].value;
    && (value == Some(true) ==> k < s.pump.popped <= s.pump.sent)
    && (value == Some(false) && k < s.pump.sent ==> k == s.pump.popped == s.pump.sent - 1)
    && (k >= s.pump.popped + s.pump.dropped ==> value == None)
    && (k < s.pump.popped + s.pump.dropped && s.promises[caller].held ==> value.Some?)
  }

  lemma PromiseMeaning(acts: seq<Action>, k: nat)
    requires k < |Run(NewSender(), acts).pump.accepted|
    ensures Meaning(Run(NewSender(), acts), k)
  {
    InitKeepsInv();
    RunKeepsInv(NewSender(), acts);
    InvGivesMeaning(Run(NewSender(), acts), k);
  }

  lemma InvGivesMeaning(s: Sender, k: nat)
    requires Inv(s) && k < |s.pump.accepted|
    ensures Meaning(s, k)
  {
    assert Settled(s, k);
  }

  lemma RefusedIsNeverResolved(acts: seq<Action>, caller: nat)
    requires var s := Run(NewSender(), acts);
             caller < |s.promises| && !Calls(s.pump.accepted, caller)
    ensures Run(NewSender(), acts).promises[caller].value == None
  {
    InitKeepsInv();
    RunKeepsInv(NewSender(), acts);
  }

  lemma ValueStaysAtStep(s: Sender, a: Action, caller: nat)
    requires caller < |s.promises| && s.promises[caller].value.Some?
    ensures caller < |Step(s, a).promises|
    ensures Step(s, a).promises[caller].value == s.promises[caller].value
  {
  }

  /** A promise is set at most once: a value never changes again. */
  lemma {:induction false} ResolvedOnce(s: Sender, acts: seq<Action>, caller: nat)
    requires caller < |s.promises| && s.promises[caller].value.Some?
    ensures caller < |Run(s, acts).promises|
    ensures Run(s, acts).promises[caller].value == s.promises[caller].value
    decreases |acts|
  {
    if acts != [] {
      ValueStaysAtStep(s, acts[0], caller);
      ResolvedOnce(Step(s, acts[0]), acts[1..], caller);
    }
  }

  // ----- a `send` that ends without an error need not have written anything -----

  /** Some completion finds the guard of `on_write`'s failing branch true while entry `k` is queued: the
      write failed, or a close was started or received, or a read had failed. */
  ghost predicate GivesUpOn(s: Sender, acts: seq<Action>, k: nat)
    decreases |acts|
  {
    acts != [] && (GivesUpAt(s, acts[0], k) || GivesUpOn(Step(s, acts[0]), acts[1..], k))
  }

  ghost predicate GivesUpAt(s: Sender, a: Action, k: nat) {
    && a.WriteDone? && Enabled(s, a) && s.pump.popped + s.pump.dropped <= k
    && var f := s.pump.flags;
       a.failed || f.close || f.closeReceived || f.readError
  }

  predicate Ready(s: Sender, k: nat) {
    && k < |s.pump.accepted| && s.pump.accepted[k].caller < |s.promises|
    && s.promises[s.pump.accepted[k].caller].value.Some?
  }

  lemma LeavesAtStep(s: Sender, a: Action, k: nat)
    requires Inv(s) && s.pump.popped + s.pump.dropped <= k < |s.pump.accepted|
    ensures k < |Step(s, a).pump.accepted| && Step(s, a).pump.accepted[k] == s.pump.accepted[k]
    ensures k < |Step(s, a).outcomes| ==>
      a.WriteDone? && Enabled(s, a) && (Step(s, a).outcomes[k] == Written ==> !GivesUpAt(s, a, k))
      && (Step(s, a).outcomes[k] == Failed ==> GivesUpAt(s, a, k))
    ensures GivesUpAt(s, a, k) ==> k < |Step(s, a).outcomes|
  {
    if a.RunSend? && Enabled(s, a) {
      AcceptedAfterSend(s.pump, a.e);
    }
  }

  lemma {:induction false} NothingAfterLeaving(s: Sender, acts: seq<Action>, k: nat)
    requires Inv(s) && k < |s.outcomes|
    ensures !GivesUpOn(s, acts, k)
    decreases |acts|
  {
    if acts != [] {
      StepKeepsInv(s, acts[0]);
      OutcomesGrow(s, acts[0]);
      NothingAfterLeaving(Step(s, acts[0]), acts[1..], k);
    }
  }

  lemma OutcomesGrow(s: Sender, a: Action)
    ensures s.outcomes <= Step(s, a).outcomes
  {
  }

  lemma ReadyFromOutcome(s: Sender, k: nat)
    requires Inv(s) && Ready(s, k)
    ensures k < |s.outcomes|
    ensures s.outcomes[k] == if ValueOf(s, k) == Some(true) then Written else Failed
  {
    assert Settled(s, k);
  }

  lemma {:induction false} OutcomesKept(s: Sender, acts: seq<Action>)
    ensures s.outcomes <= Run(s, acts).outcomes
    decreases |acts|
  {
    if acts != [] {
      OutcomesGrow(s, acts[0]);
      OutcomesKept(Step(s, acts[0]), acts[1..]);
    }
  }

  /** `send` reports no error as soon as its promise is ready, whatever it holds. From any reachable state
      in which entry `k` is queued, and whatever happens then: when its promise is ready it holds true if
      and only if no completion up to the one that took it off the queue found the write failed, a close
      started or received, or a read error. */
  lemma {:induction false} ReadyMeansWrittenIff(s: Sender, acts: seq<Action>, k: nat)
    requires Inv(s) && s.pump.popped + s.pump.dropped <= k < |s.pump.accepted| && Ready(Run(s, acts), k)
    ensures ValueOf(Run(s, acts), k) == Some(true) <==> !GivesUpOn(s, acts, k)
    decreases |acts|
  {
    RunKeepsInv(s, acts);
    ReadyFromOutcome(Run(s, acts), k);
    var s' := Step(s, acts[0]);
    StepKeepsInv(s, acts[0]);
    LeavesAtStep(s, acts[0], k);
    if k < |s'.outcomes| {
      OutcomesKept(s', acts[1..]);
      NothingAfterLeaving(s', acts[1..], k);
    } else {
      ReadyMeansWrittenIff(s', acts[1..], k);
    }
  }

  /** The bytes of a ready message are out exactly when its promise holds true, or it was the one in flight
      when the session gave up and had just gone out. */
  ghost predicate SentTells(s: Sender, k: nat) {
    Ready(s, k) ==>
      (k < s.pump.sent <==> ValueOf(s, k) == Some(true) || (k == s.pump.popped && s.pump.sent == s.pump.popped + 1))
  }

  lemma ReadyMeansSentIff(acts: seq<Action>, k: nat)
    ensures SentTells(Run(NewSender(), acts), k)
  {
    InitKeepsInv();
    RunKeepsInv(NewSender(), acts);
    InvGivesSent(Run(NewSender(), acts), k);
  }

  lemma InvGivesSent(s: Sender, k: nat)
    requires Inv(s)
    ensures SentTells(s, k)
  {
    if Ready(s, k) {
      ReadyFromOutcome(s, k);
      assert Settled(s, k);
    }
  }

  lemma RunOf(s: Sender, a: Action, rest: seq<Action>)
    ensures Run(s, [a] + rest) == Run(Step(s, a), rest)
  {
    assert ([a] + rest)[1..] == rest;
  }

  /** One message on its way. */
  lemma OneQueued(e: Entry)
    requires e.caller == 0
    ensures var s := Step(Step(NewSender(), MakePromise), RunSend(e));
            && s.promises == [Promise(true, None)] && s.pump.accepted == s.pump.queue == [e]
            && s.pump.writing && !s.pump.onWire && s.pump.sent == s.pump.popped == s.pump.dropped == 0
            && s.pump.flags == Flags(false, false, false, false)
    ensures FulfilAll([Promise(true, None)], [e], false) == [Promise(true, Some(false))]
  {
    assert Calls([e], 0) by { assert [e][0].caller == 0; }
  }

  /** For instance: one message, whose write fails before a byte of it is out. The promise is ready. */
  lemma ReadyWithoutWriting(callId: U32, body: Bytes)
    ensures var e := Entry(callId, 0, 0, body);
            var s := Run(NewSender(), [MakePromise] + ([RunSend(e)] + ([Action.WriteDone(true)] + [])));
            && s.pump.accepted == [e] && s.promises == [Promise(true, Some(false))] && s.pump.sent == 0
  {
    var e := Entry(callId, 0, 0, body);
    var s1 := Step(NewSender(), MakePromise);
    var s2 := Step(s1, RunSend(e));
    OneQueued(e);
    RunOf(NewSender(), MakePromise, [RunSend(e)] + ([Action.WriteDone(true)] + []));
    RunOf(s1, RunSend(e), [Action.WriteDone(true)] + []);
    RunOf(s2, Action.WriteDone(true), []);
  }

  /** And one whose bytes are out when its write is reported as failed: sent, and resolved false. */
  lemma SentButResolvedFalse(callId: U32, body: Bytes)
    ensures var e := Entry(callId, 0, 0, body);
            var s := Run(NewSender(), [MakePromise] + ([RunSend(e)] + ([Action.Deliver] + ([Action.WriteDone(true)] + []))));
            && s.pump.accepted == [e] && s.promises == [Promise(true, Some(false))] && s.pump.sent == 1
  {
    var e := Entry(callId, 0, 0, body);
    var s1 := Step(NewSender(), MakePromise);
    var s2 := Step(s1, RunSend(e));
    var s3 := Step(s2, Action.Deliver);
    OneQueued(e);
    RunOf(NewSender(), MakePromise, [RunSend(e)] + ([Action.Deliver] + ([Action.WriteDone(true)] + [])));
    RunOf(s1, RunSend(e), [Action.Deliver] + ([Action.WriteDone(true)] + []));
    RunOf(s2, Action.Deliver, [Action.WriteDone(true)] + []);
    RunOf(s3, Action.WriteDone(true), []);
  }
}
