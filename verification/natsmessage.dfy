/**
 * The fixed three-listener chain of natsMessage/natsMessage.go and the run
 * `NatsOps` performs with it, ending in the `EventResponse` that is handed
 * to the database.
 */
module NatsMessage {
  import opened Results
  import opened Runes
  import opened Pipeline
  import Env
  import WaitGroups

  const ListenerOneSubject: string := "events.chain"
  const ListenerTwoSubject: string := "events.chain.listener2"
  const ListenerThreeSubject: string := "events.chain.listener3"

  /**
   * Listener one keeps the seed and forwards it upper-cased; listener two
   * keeps what it received and forwards it reversed; listener three keeps
   * the lower-cased payload and forwards nothing.
   */
  const Chain: seq<Stage> := [
    Stage("listener1", ListenerOneSubject, UpperCase, Received, Some(ListenerTwoSubject)),
    Stage("listener2", ListenerTwoSubject, Reversal, Received, Some(ListenerThreeSubject)),
    Stage("listener3", ListenerThreeSubject, LowerCase, Transformed, None)
  ]

  /** The record built once the WaitGroup is released; the time is the caller's clock reading. */
  datatype EventResponse = EventResponse(listener1: Text, listener2: Text, listener3: Text, eventTime: int)

  datatype OpsOutcome =
    | Recorded(response: EventResponse)
    | ConfigFailed(error: Env.EnvError)  // LoadEnv("NATS_URL") failed: logger.Fatal
    | TimedOut(remaining: nat)           // the 10-second context fired first: logger.Fatal
    | Crashed(reason: Panic)

  /** The subjects are distinct and each non-final listener forwards to the next one's subject. */
  lemma ChainIsLinear()
    ensures WellFormed(Chain)
    ensures ListenerOneSubject != ListenerTwoSubject && ListenerTwoSubject != ListenerThreeSubject && ListenerOneSubject != ListenerThreeSubject
    ensures Chain[0].next == Some(Chain[1].subject) && Chain[1].next == Some(Chain[2].subject)
    ensures Chain[2].next == None
  {
  }

  /** What each listener's handler stores and forwards, for any received payload d. */
  lemma ListenerHandlers(cm: CaseMapping, d: Text)
    ensures Handle(Chain[0], cm, d) == Handled(d, cm.upper(d))
    ensures Handle(Chain[1], cm, d) == Handled(d, Reverse(d))
    ensures Handle(Chain[2], cm, d) == Handled(cm.lower(d), cm.lower(d))
  {
  }

  /**
   * NatsOps with the log file opened and `nats.Connect` taken to succeed:
   * read the URL, run the chain, assemble the record.
   */
  function NatsOps(loaded: Env.Loaded, cm: CaseMapping, b: Broker, seed: Text, now: int): (r: OpsOutcome)
    ensures r.ConfigFailed? <==> Env.LoadEnv(loaded, ["NATS_URL"]).Failure?
    ensures r.Recorded? ==> r.response.eventTime == now
  {
    match Env.LoadEnv(loaded, ["NATS_URL"])
    case Failure(e) => ConfigFailed(e)
    case Success(_) =>
      match RunChain(Chain, cm, b, seed)
      case Completed(values, _) => Recorded(EventResponse(values[0], values[1], values[2], now))
      case DeadlineExceeded(remaining, _) => TimedOut(remaining)
      case Panicked(reason) => Crashed(reason)
  }

  /** Every subscription succeeds and both forwards of the seed's payloads are published. */
  ghost predicate ChainHealthy(cm: CaseMapping, b: Broker, seed: Text)
  {
    && b.subscribeErr(ListenerOneSubject).None?
    && b.subscribeErr(ListenerTwoSubject).None?
    && b.subscribeErr(ListenerThreeSubject).None?
    && b.publishErr(ListenerTwoSubject, cm.upper(seed)).None?
    && b.publishErr(ListenerThreeSubject, Reverse(cm.upper(seed))).None?
  }

  /**
   * The record is (P, Upper(P), Lower(Reverse(Upper(P)))) for seed P; it is
   * produced exactly when the URL is configured and the chain is healthy,
   * and the run never panics.
   */
  lemma NatsOpsRecord(loaded: Env.Loaded, cm: CaseMapping, b: Broker, seed: Text, now: int)
    ensures var r := NatsOps(loaded, cm, b, seed, now);
            && !r.Crashed?
            && (r.Recorded? <==> Env.LoadEnv(loaded, ["NATS_URL"]).Success? && ChainHealthy(cm, b, seed))
            && (r.Recorded? ==>
                  r.response == EventResponse(seed, cm.upper(seed), cm.lower(Reverse(cm.upper(seed))), now))
  {
    ChainIsLinear();
    ListenerHandlers(cm, seed);
    RunChainCorrect(Chain, cm, b, seed);
    assert Payload(Chain, cm, seed, 1) == cm.upper(seed);
    assert Payload(Chain, cm, seed, 2) == Reverse(cm.upper(seed));
    assert HealthyFrom(Chain, cm, b, seed, 2) <==> b.subscribeErr(ListenerThreeSubject).None?;
    assert HealthyFrom(Chain, cm, b, seed, 1) <==>
             && b.subscribeErr(ListenerTwoSubject).None?
             && b.publishErr(ListenerThreeSubject, Reverse(cm.upper(seed))).None?
             && HealthyFrom(Chain, cm, b, seed, 2);
    assert HealthyFrom(Chain, cm, b, seed, 0) <==> ChainHealthy(cm, b, seed);
  }

  /**
   * Listener three with the first of the two commented-out forwards of the
   * source enabled, the one back to listener one's subject (the second, to
   * listener two's subject, would need a second `next`). The chain is no
   * longer linear, and the fourth handler call drives the WaitGroup below zero.
   */
  const CyclicChain: seq<Stage> := Chain[2 := Chain[2].(next := Some(ListenerOneSubject))]

  lemma CyclicChainPanics(cm: CaseMapping, seed: Text)
    ensures var healthy := Broker(_ => None, (_, _) => None);
            RunChain(CyclicChain, cm, healthy, seed) == Panicked(WaitGroupPanic(WaitGroups.NegativeCounter))
  {
    var b := Broker(_ => None, (_, _) => None);
    var c := CyclicChain;
    var active := SubscribeAll(c, b).active;
    assert active == [true, true, true];
    var p1 := cm.upper(seed);
    var p2 := Reverse(p1);
    var p3 := cm.lower(p2);
    assert c[0].subject == ListenerOneSubject && c[1].subject == ListenerTwoSubject && c[2].subject == ListenerThreeSubject;
    assert c[2].next == Some(ListenerOneSubject);
    assert StageFor(c, ListenerOneSubject) == 0;
    assert StageFor(c, ListenerTwoSubject) == 1;
    assert StageFor(c, ListenerThreeSubject) == 2;
    var st0 := RunState([None, None, None], WaitGroups.WaitGroup(3), Some(Msg(ListenerOneSubject, seed)), []);
    var st1 := RunState([Some(seed), None, None], WaitGroups.WaitGroup(2), Some(Msg(ListenerTwoSubject, p1)), []);
    var st2 := RunState([Some(seed), Some(p1), None], WaitGroups.WaitGroup(1), Some(Msg(ListenerThreeSubject, p2)), []);
    var st3 := RunState([Some(seed), Some(p1), Some(p3)], WaitGroups.WaitGroup(0), Some(Msg(ListenerOneSubject, p3)), []);
    assert seq(|c|, _ => None) == st0.slots;
    assert Handle(c[0], cm, seed) == Handled(seed, p1);
    assert Forward(c[0], b, p1, []) == Forwarded(Some(Msg(ListenerTwoSubject, p1)), []);
    assert st0.slots[0 := Some(seed)] == st1.slots;
    assert st1.slots[1 := Some(p1)] == st2.slots;
    assert st2.slots[2 := Some(p3)] == st3.slots;
    assert Step(c, cm, b, active, st0) == RunHandler(c, 0, cm, b, st0, seed);
    assert Step(c, cm, b, active, st0) == Success(st1);
    assert Handle(c[1], cm, p1) == Handled(p1, p2);
    assert Forward(c[1], b, p2, []) == Forwarded(Some(Msg(ListenerThreeSubject, p2)), []);
    assert Handle(c[2], cm, p2) == Handled(p3, p3);
    assert Forward(c[2], b, p3, []) == Forwarded(Some(Msg(ListenerOneSubject, p3)), []);
    assert Step(c, cm, b, active, st1) == RunHandler(c, 1, cm, b, st1, p1);
    assert Step(c, cm, b, active, st1) == Success(st2);
    assert Step(c, cm, b, active, st2) == RunHandler(c, 2, cm, b, st2, p2);
    assert Step(c, cm, b, active, st2) == Success(st3);
    assert Step(c, cm, b, active, st3) == Failure(WaitGroups.NegativeCounter);
    assert Deliver(c, cm, b, active, st3, 1) == Failure(WaitGroups.NegativeCounter);
    assert Deliver(c, cm, b, active, st2, 2) == Failure(WaitGroups.NegativeCounter);
    assert Deliver(c, cm, b, active, st1, 3) == Failure(WaitGroups.NegativeCounter);
    assert Deliver(c, cm, b, active, st0, 4) == Failure(WaitGroups.NegativeCounter);
  }
}
