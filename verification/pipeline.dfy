/**
 * The listener chain of natsMessage/natsMessage.go as ordered data, run
 * sequentially. Each stage listens on one subject; its handler keeps a value
 * for the final record, transforms what it received, forwards the result to
 * the next stage's subject (the last stage forwards nothing) and calls `Done`
 * on the shared WaitGroup. The broker is abstracted to whether a subscribe or
 * a publish call returned an error.
 */
module Pipeline {
  import opened Results
  import opened Runes
  import opened WaitGroups

  /** `strings.ToUpper` and `strings.ToLower`, taken as given total functions. */
  datatype CaseMapping = CaseMapping(upper: Text -> Text, lower: Text -> Text)

  /** The transform a stage applies before forwarding. */
  datatype Transform = UpperCase | Reversal | LowerCase

  function Apply(t: Transform, cm: CaseMapping, data: Text): Text
  {
    match t
    case UpperCase => cm.upper(data)
    case Reversal => Reverse(data)
    case LowerCase => cm.lower(data)
  }

  /** Which value a handler keeps for the record: what it received, or what it produced. */
  datatype Keep = Received | Transformed

  /** One listener: its name in error messages, its subject, its transform, what it keeps, where it forwards. */
  datatype Stage = Stage(listener: string, subject: string, transform: Transform, keep: Keep, next: Option<string>)

  /**
   * A linear chain: at least one stage, pairwise distinct subjects, every
   * stage but the last forwards to its successor's subject, the last to none.
   */
  ghost predicate WellFormed(c: seq<Stage>)
  {
    && |c| > 0
    && (forall i, j :: 0 <= i < j < |c| ==> c[i].subject != c[j].subject)
    && (forall i :: 0 <= i < |c| - 1 ==> c[i].next == Some(c[i + 1].subject))
    && c[|c| - 1].next == None
  }

  datatype Msg = Msg(subject: string, data: Text)

  /** What one handler invocation computes from the payload it received. */
  datatype Handled = Handled(stored: Text, output: Text)

  function Handle(s: Stage, cm: CaseMapping, received: Text): (h: Handled)
    ensures h.output == Apply(s.transform, cm, received)
    ensures s.keep == Received ==> h.stored == received
    ensures s.keep == Transformed ==> h.stored == h.output
  {
    var output := Apply(s.transform, cm, received);
    Handled(if s.keep == Received then received else output, output)
  }

  /** The broker, reduced to the error (if any) each call returns. */
  datatype Broker = Broker(subscribeErr: string -> Option<string>, publishErr: (string, Text) -> Option<string>)

  /** The error `forwardMessage` wraps around a failed publish. */
  datatype ForwardError = ForwardError(listener: string, cause: string)

  /** forwardMessage: nil when the publish succeeds, otherwise an error tagged with the forwarding listener. */
  function ForwardMessage(b: Broker, subject: string, listener: string, data: Text): (err: Option<ForwardError>)
    ensures err.None? <==> b.publishErr(subject, data).None?
    ensures err.Some? ==> err.value.listener == listener && Some(err.value.cause) == b.publishErr(subject, data)
    ensures err.Some? ==> ErrorText(err.value)[..|listener|] == listener
  {
    match b.publishErr(subject, data)
    case None => None
    case Some(cause) => Some(ForwardError(listener, cause))
  }

  /** The text of a forwarding error: the listener's name comes first. */
  function ErrorText(e: ForwardError): (s: string)
    ensures |s| > |e.listener| + 1 + |e.cause|
    ensures s[..|e.listener|] == e.listener && s[|e.listener|] == ':'
    ensures s[|s| - |e.cause|..] == e.cause
  {
    e.listener + ": error publishing message: " + e.cause
  }

  /** What the handlers and the setup write to the log instead of failing. */
  datatype LogEntry = SubscribeFailed(listener: string, cause: string) | PublishFailed(error: ForwardError)

  /** Which stages got a live subscription, and the errors logged for the others. */
  datatype Subscriptions = Subscriptions(active: seq<bool>, log: seq<LogEntry>)

  /** One entry per stage whose subscribe call failed, in chain order, naming the listener and the cause. */
  ghost function Failures(c: seq<Stage>, b: Broker): (log: seq<LogEntry>)
    ensures |log| <= |c|
  {
    if |c| == 0 then []
    else
      var first := b.subscribeErr(c[0].subject);
      (if first.Some? then [SubscribeFailed(c[0].listener, first.value)] else []) + Failures(c[1..], b)
  }

  /** Subscribing each stage in order; a failure is logged and the setup carries on. */
  function SubscribeAll(c: seq<Stage>, b: Broker): (s: Subscriptions)
    ensures |s.active| == |c|
    ensures forall i :: 0 <= i < |c| ==> (s.active[i] <==> b.subscribeErr(c[i].subject).None?)
    ensures |s.log| == 0 <==> forall i :: 0 <= i < |c| ==> s.active[i]
    ensures s.log == Failures(c, b)
  {
    if |c| == 0 then Subscriptions([], [])
    else
      var rest := SubscribeAll(c[1..], b);
      match b.subscribeErr(c[0].subject)
      case None => Subscriptions([true] + rest.active, rest.log)
      case Some(cause) => Subscriptions([false] + rest.active, [SubscribeFailed(c[0].listener, cause)] + rest.log)
  }

  /** The first stage listening on the subject, or |c| when there is none. */
  function StageFor(c: seq<Stage>, subject: string): (i: nat)
    ensures i <= |c|
    ensures i < |c| ==> c[i].subject == subject
    ensures forall j :: 0 <= j < i ==> c[j].subject != subject
  {
    if |c| == 0 then 0
    else if c[0].subject == subject then 0
    else 1 + StageFor(c[1..], subject)
  }

  /** Run-scoped state: one slot per stage, the WaitGroup, the message in flight, the log. */
  datatype RunState = RunState(slots: seq<Option<Text>>, wg: WaitGroup, inflight: Option<Msg>, log: seq<LogEntry>)

  /** What a handler leaves behind after forwarding: the next message in flight, and the log. */
  datatype Forwarded = Forwarded(inflight: Option<Msg>, log: seq<LogEntry>)

  /** The last stage forwards nothing; a failed publish is logged and leaves nothing in flight. */
  function Forward(s: Stage, b: Broker, output: Text, log: seq<LogEntry>): (f: Forwarded)
    ensures f.inflight.Some? <==> s.next.Some? && b.publishErr(s.next.value, output).None?
    ensures f.inflight.Some? ==> f.inflight.value == Msg(s.next.value, output)
    ensures f.log == log <==> s.next.None? || b.publishErr(s.next.value, output).None?
    ensures f.log != log ==> f.log == log + [PublishFailed(ForwardError(s.listener, b.publishErr(s.next.value, output).value))]
  {
    match s.next
    case None => Forwarded(None, log)
    case Some(subject) =>
      match ForwardMessage(b, subject, s.listener, output)
      case None => Forwarded(Some(Msg(subject, output)), log)
      case Some(e) => Forwarded(None, log + [PublishFailed(e)])
  }

  /** Stage i's handler on a received payload: store, transform, forward, then the deferred `Done`. */
  function RunHandler(c: seq<Stage>, i: nat, cm: CaseMapping, b: Broker, st: RunState, received: Text): (r: Result<RunState, WaitGroupError>)
    requires i < |c| == |st.slots|
    ensures r.Success? ==> |r.value.slots| == |c|
    ensures r.Success? <==> st.wg.counter > 0
    ensures r.Success? ==> r.value.wg.counter == st.wg.counter - 1
    ensures r.Success? ==> r.value.slots[i] == Some(Handle(c[i], cm, received).stored)
    ensures r.Success? ==> forall j :: 0 <= j < |c| && j != i ==> r.value.slots[j] == st.slots[j]
  {
    var h := Handle(c[i], cm, received);
    var f := Forward(c[i], b, h.output, st.log);
    match Done(st.wg)
    case Failure(e) => Failure(e)
    case Success(wg) => Success(RunState(st.slots[i := Some(h.stored)], wg, f.inflight, f.log))
  }

  /**
   * Deliver the message in flight, if any. A subject nobody listens on (no
   * stage, or a stage whose subscription failed) drops it; otherwise the
   * stage's handler runs.
   */
  function Step(c: seq<Stage>, cm: CaseMapping, b: Broker, active: seq<bool>, st: RunState): (r: Result<RunState, WaitGroupError>)
    requires |active| == |c| && |st.slots| == |c|
    ensures r.Success? ==> |r.value.slots| == |c|
    ensures st.inflight.None? ==> r == Success(st)
    ensures r.Failure? ==> st.wg.counter == 0
  {
    match st.inflight
    case None => Success(st)
    case Some(m) =>
      var i := StageFor(c, m.subject);
      if i == |c| || !active[i] then Success(st.(inflight := None))
      else RunHandler(c, i, cm, b, st, m.data)
  }

  /**
   * Routing: a delivery writes only the slot of a subscribed stage listening
   * on the subject of the message in flight, and leaves every other slot alone.
   */
  lemma StepRoutes(c: seq<Stage>, cm: CaseMapping, b: Broker, active: seq<bool>, st: RunState)
    requires |active| == |c| && |st.slots| == |c|
    ensures var r := Step(c, cm, b, active, st);
            r.Success? ==> forall j :: 0 <= j < |c| && r.value.slots[j] != st.slots[j] ==>
              active[j] && st.inflight.Some? && c[j].subject == st.inflight.value.subject
  {
  }

  /** Up to `fuel` deliveries in a row. */
  function Deliver(c: seq<Stage>, cm: CaseMapping, b: Broker, active: seq<bool>, st: RunState, fuel: nat): (r: Result<RunState, WaitGroupError>)
    requires |active| == |c| && |st.slots| == |c|
    ensures r.Success? ==> |r.value.slots| == |c|
    decreases fuel
  {
    if fuel == 0 then Success(st)
    else
      match Step(c, cm, b, active, st)
      case Failure(e) => Failure(e)
      case Success(st') => Deliver(c, cm, b, active, st', fuel - 1)
  }

  /** The values of all slots, or None when some slot was never written (a nil pointer). */
  function Unwrap(slots: seq<Option<Text>>): (r: Option<seq<Text>>)
    ensures r.Some? <==> forall i :: 0 <= i < |slots| ==> slots[i].Some?
    ensures r.Some? ==> |r.value| == |slots| && forall i :: 0 <= i < |slots| ==> Some(r.value[i]) == slots[i]
  {
    if |slots| == 0 then Some([])
    else
      match (slots[0], Unwrap(slots[1..]))
      case (Some(v), Some(rest)) => Some([v] + rest)
      case _ => None
  }

  datatype Panic = WaitGroupPanic(error: WaitGroupError) | NilDereference

  datatype RunOutcome =
    | Completed(values: seq<Text>, log: seq<LogEntry>)   // Wait returned and every slot was set
    | DeadlineExceeded(remaining: nat, log: seq<LogEntry>) // Wait never returns; the 10-second context fires
    | Panicked(reason: Panic)

  /**
   * One run: create the WaitGroup with one count per stage, subscribe every
   * stage, let the seed arrive on the first stage's subject, deliver until
   * the chain is quiet, then wait and read every slot.
   */
  function RunChain(c: seq<Stage>, cm: CaseMapping, b: Broker, seed: Text): (r: RunOutcome)
    requires |c| > 0
    ensures r.Completed? ==> |r.values| == |c|
    ensures r.DeadlineExceeded? ==> r.remaining > 0
  {
    var subs := SubscribeAll(c, b);
    var st0 := RunState(seq(|c|, _ => None), WaitGroup(|c|), Some(Msg(c[0].subject, seed)), subs.log);
    match Deliver(c, cm, b, subs.active, st0, |c| + 1)
    case Failure(e) => Panicked(WaitGroupPanic(e))
    case Success(st) =>
      if !Released(st.wg) then DeadlineExceeded(st.wg.counter, st.log)
      else
        match Unwrap(st.slots)
        case None => Panicked(NilDereference)
        case Some(values) => Completed(values, st.log)
  }

  // ---------------------------------------------------------------------
  // Reference semantics of a well-formed chain and its correctness proof.
  // ---------------------------------------------------------------------

  /** The payload stage k receives when every earlier stage forwarded. */
  ghost function Payload(c: seq<Stage>, cm: CaseMapping, seed: Text, k: nat): Text
    requires k <= |c|
  {
    if k == 0 then seed else Apply(c[k - 1].transform, cm, Payload(c, cm, seed, k - 1))
  }

  /** The value stage k keeps for the record. */
  ghost function Stored(c: seq<Stage>, cm: CaseMapping, seed: Text, k: nat): Text
    requires k < |c|
  {
    Handle(c[k], cm, Payload(c, cm, seed, k)).stored
  }

  /** Every stage from k on is subscribed and every forward after k-1 is published. */
  ghost predicate HealthyFrom(c: seq<Stage>, cm: CaseMapping, b: Broker, seed: Text, k: nat)
    requires k <= |c|
    decreases |c| - k
  {
    k == |c| ||
    (&& b.subscribeErr(c[k].subject).None?
     && (k + 1 < |c| ==> b.publishErr(c[k + 1].subject, Payload(c, cm, seed, k + 1)).None?)
     && HealthyFrom(c, cm, b, seed, k + 1))
  }

  /**
   * What the handlers from stage k on log: the chain stops at the first
   * unsubscribed stage or at the first failed forward, and only the latter
   * leaves an entry, naming the forwarding listener and the publish error.
   */
  ghost function ForwardLog(c: seq<Stage>, cm: CaseMapping, b: Broker, seed: Text, k: nat): (log: seq<LogEntry>)
    requires k <= |c|
    ensures |log| <= 1
    ensures HealthyFrom(c, cm, b, seed, k) ==> log == []
    decreases |c| - k
  {
    if k == |c| || b.subscribeErr(c[k].subject).Some? || k + 1 == |c| then []
    else
      match b.publishErr(c[k + 1].subject, Payload(c, cm, seed, k + 1))
      case Some(cause) => [PublishFailed(ForwardError(c[k].listener, cause))]
      case None => ForwardLog(c, cm, b, seed, k + 1)
  }

  /** Stages before k have run and stored their values; the rest have not. */
  ghost predicate AtStage(c: seq<Stage>, cm: CaseMapping, seed: Text, st: RunState, k: nat)
  {
    && k <= |c|
    && |st.slots| == |c|
    && st.wg.counter == |c| - k
    && (forall i :: 0 <= i < k ==> st.slots[i] == Some(Stored(c, cm, seed, i)))
    && (forall i :: k <= i < |c| ==> st.slots[i] == None)
  }

  /** In a chain with distinct subjects, stage k is the one listening on its own subject. */
  lemma StageForOwnSubject(c: seq<Stage>, k: nat)
    requires WellFormed(c) && k < |c|
    ensures StageFor(c, c[k].subject) == k
  {
  }

  /** With nothing in flight, further deliveries change nothing. */
  lemma {:induction false} DeliverQuiet(c: seq<Stage>, cm: CaseMapping, b: Broker, active: seq<bool>, st: RunState, fuel: nat)
    requires |active| == |c| && |st.slots| == |c| && st.inflight == None
    ensures Deliver(c, cm, b, active, st, fuel) == Success(st)
    decreases fuel
  {
    if fuel > 0 {
      DeliverQuiet(c, cm, b, active, st, fuel - 1);
    }
  }

  /** The payload stage k+1 receives is what stage k's handler produced. */
  ghost function Pending(c: seq<Stage>, cm: CaseMapping, seed: Text, k: nat): Option<Msg>
    requires k <= |c|
  {
    if k < |c| then Some(Msg(c[k].subject, Payload(c, cm, seed, k))) else None
  }

  /** `active` records which stages' subscriptions succeeded. */
  ghost predicate Subscribed(c: seq<Stage>, b: Broker, active: seq<bool>)
  {
    && |active| == |c|
    && forall i :: 0 <= i < |c| ==> (active[i] <==> b.subscribeErr(c[i].subject).None?)
  }

  /** One delivery to a subscribed stage k moves the run to stage k+1. */
  lemma StepAt(c: seq<Stage>, cm: CaseMapping, b: Broker, active: seq<bool>, seed: Text, st: RunState, k: nat)
    requires WellFormed(c) && k < |c| && |active| == |c| && active[k]
    requires AtStage(c, cm, seed, st, k) && st.inflight == Pending(c, cm, seed, k)
    ensures var r := Step(c, cm, b, active, st);
            && r.Success?
            && AtStage(c, cm, seed, r.value, k + 1)
            && r.value.inflight ==
                 (if k + 1 < |c| && b.publishErr(c[k + 1].subject, Payload(c, cm, seed, k + 1)).None?
                  then Pending(c, cm, seed, k + 1) else None)
            && st.log <= r.value.log
            && (r.value.log == st.log <==>
                  (k + 1 == |c| || b.publishErr(c[k + 1].subject, Payload(c, cm, seed, k + 1)).None?))
            && (k + 1 < |c| && b.publishErr(c[k + 1].subject, Payload(c, cm, seed, k + 1)).Some? ==>
                  r.value.log == st.log + [PublishFailed(ForwardError(c[k].listener,
                                             b.publishErr(c[k + 1].subject, Payload(c, cm, seed, k + 1)).value))])
  {
    StageForOwnSubject(c, k);
    var h := Handle(c[k], cm, Payload(c, cm, seed, k));
    assert h.stored == Stored(c, cm, seed, k);
    assert k + 1 < |c| ==> c[k].next == Some(c[k + 1].subject);
  }

  /** Once the chain is quiet, the WaitGroup is released exactly when every stage has run. */
  lemma QuietAt(c: seq<Stage>, cm: CaseMapping, b: Broker, active: seq<bool>, seed: Text, st: RunState, k: nat, fuel: nat)
    requires AtStage(c, cm, seed, st, k) && |active| == |c| && st.inflight == None
    ensures var r := Deliver(c, cm, b, active, st, fuel);
            && r == Success(st)
            && (Released(st.wg) <==> k == |c|)
            && (Released(st.wg) ==> forall i :: 0 <= i < |c| ==> st.slots[i] == Some(Stored(c, cm, seed, i)))
  {
    DeliverQuiet(c, cm, b, active, st, fuel);
  }

  /**
   * From stage k with stage k's payload in flight, enough deliveries leave
   * the chain quiet without a WaitGroup panic; the WaitGroup is released
   * exactly when the rest of the chain is healthy, and then every slot holds
   * its stage's reference value.
   */
  lemma {:induction false} DeliverFrom(c: seq<Stage>, cm: CaseMapping, b: Broker, active: seq<bool>, seed: Text, st: RunState, k: nat, fuel: nat)
    requires WellFormed(c) && Subscribed(c, b, active)
    requires AtStage(c, cm, seed, st, k) && st.inflight == Pending(c, cm, seed, k)
    requires fuel > |c| - k
    ensures var r := Deliver(c, cm, b, active, st, fuel);
            && r.Success?
            && r.value.inflight == None
            && (Released(r.value.wg) <==> HealthyFrom(c, cm, b, seed, k))
            && (Released(r.value.wg) ==> forall i :: 0 <= i < |c| ==> r.value.slots[i] == Some(Stored(c, cm, seed, i)))
            && st.log <= r.value.log
            && (HealthyFrom(c, cm, b, seed, k) ==> r.value.log == st.log)
            && (!HealthyFrom(c, cm, b, seed, k) && (forall j :: k <= j < |c| ==> active[j]) ==> |r.value.log| > |st.log|)
            && r.value.log == st.log + ForwardLog(c, cm, b, seed, k)
    decreases |c| - k
  {
    if k == |c| {
      QuietAt(c, cm, b, active, seed, st, k, fuel);
    } else if !active[k] {
      StageForOwnSubject(c, k);
      var st' := st.(inflight := None);
      assert Step(c, cm, b, active, st) == Success(st');
      assert Deliver(c, cm, b, active, st, fuel) == Deliver(c, cm, b, active, st', fuel - 1);
      QuietAt(c, cm, b, active, seed, st', k, fuel - 1);
      assert ForwardLog(c, cm, b, seed, k) == [];
    } else {
      StepAt(c, cm, b, active, seed, st, k);
      var st' := Step(c, cm, b, active, st).value;
      assert Deliver(c, cm, b, active, st, fuel) == Deliver(c, cm, b, active, st', fuel - 1);
      if st'.inflight == None {
        QuietAt(c, cm, b, active, seed, st', k + 1, fuel - 1);
      } else {
        DeliverFrom(c, cm, b, active, seed, st', k + 1, fuel - 1);
        assert ForwardLog(c, cm, b, seed, k) == ForwardLog(c, cm, b, seed, k + 1);
      }
    }
  }

  /** A healthy rest of the chain has every one of its stages subscribed. */
  lemma {:induction false} HealthySubscribed(c: seq<Stage>, cm: CaseMapping, b: Broker, seed: Text, k: nat)
    requires k <= |c| && HealthyFrom(c, cm, b, seed, k)
    ensures forall j :: k <= j < |c| ==> b.subscribeErr(c[j].subject).None?
    decreases |c| - k
  {
    if k < |c| {
      HealthySubscribed(c, cm, b, seed, k + 1);
    }
  }

  /**
   * Chain correctness for any well-formed chain: the run never panics, it
   * completes exactly when every stage is subscribed and every forward is
   * published, and then stage i's value is its reference value.
   */
  lemma RunChainCorrect(c: seq<Stage>, cm: CaseMapping, b: Broker, seed: Text)
    requires WellFormed(c)
    ensures var r := RunChain(c, cm, b, seed);
            && !r.Panicked?
            && (r.Completed? <==> HealthyFrom(c, cm, b, seed, 0))
            && (r.Completed? ==> forall i :: 0 <= i < |c| ==> r.values[i] == Stored(c, cm, seed, i))
            && (r.Completed? ==> r.log == [])
            && (r.DeadlineExceeded? ==> |r.log| > 0)
            && (!r.Panicked? ==> r.log == Failures(c, b) + ForwardLog(c, cm, b, seed, 0))
  {
    var subs := SubscribeAll(c, b);
    var st0 := RunState(seq(|c|, _ => None), WaitGroup(|c|), Some(Msg(c[0].subject, seed)), subs.log);
    assert AtStage(c, cm, seed, st0, 0) && st0.inflight == Pending(c, cm, seed, 0);
    DeliverFrom(c, cm, b, subs.active, seed, st0, 0, |c| + 1);
    if HealthyFrom(c, cm, b, seed, 0) {
      HealthySubscribed(c, cm, b, seed, 0);
      assert subs.log == [];
    }
  }
}
