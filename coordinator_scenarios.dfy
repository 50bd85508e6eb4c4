module CoordinatorScenarios {
  import opened Wrappers
  import opened CoordinatorModel
  import CoordinatorProperties

  function Leader(): Broker { Broker("leader", 5552) }
  function WithLeader(b: Broker): StreamMetadata { StreamMetadata(ResponseOk, Some(b)) }
  function NoLeader(): StreamMetadata { StreamMetadata(ResponseOk, None) }

  lemma BrokersCons(pool: seq<Client>)
    requires pool != []
    ensures Brokers(pool) == {pool[0].broker} + Brokers(pool[1..])
  {
    forall b | b in Brokers(pool) ensures b in {pool[0].broker} + Brokers(pool[1..]) {
      var k :| 0 <= k < |pool| && pool[k].broker == b;
      if k > 0 {
        assert pool[1..][k - 1].broker == b;
      }
    }
    forall b | b in Brokers(pool[1..]) ensures b in Brokers(pool) {
      var k :| 0 <= k < |pool[1..]| && pool[1..][k].broker == b;
      assert pool[k + 1].broker == b;
    }
    assert pool[0].broker in Brokers(pool);
  }

  datatype Registration = Registration(kind: Kind, stream: string, isOpen: bool)

  function RegisterAll(cfg: Config, st: State, regs: seq<Registration>): State
    requires ConfigOk(cfg)
    decreases |regs|
  {
    if regs == [] then st
    else RegisterAll(cfg, Register(cfg, st, regs[0].kind, regs[0].stream, regs[0].isOpen).1, regs[1..])
  }

  predicate ShutdownConfig(cfg: Config) {
    2 <= cfg.maxProducers <= 256 && 1 <= cfg.maxTrackingConsumers && cfg.recoveryAttempts >= 3 &&
    cfg.script == map["stream" := [WithLeader(Leader()), WithLeader(Leader()), WithLeader(Leader()),
                                   NoLeader(), NoLeader(), WithLeader(Leader())]]
  }

  /** The locator's k-th answer about "stream" names the leader. */
  predicate AnswersLeader(cfg: Config, k: nat) {
    "stream" in cfg.script && k < |cfg.script["stream"]| && cfg.script["stream"][k] == WithLeader(Leader())
  }

  function P(isOpen: bool, client: Option<nat>, id: PublisherId, calls: Calls): Agent {
    Agent(Producer, "stream", isOpen, client, id, calls)
  }

  function T(isOpen: bool, client: Option<nat>, calls: Calls): Agent {
    Agent(TrackingConsumer, "stream", isOpen, client, 0, calls)
  }

  function S1(open: bool): State {
    State([Client(0, Leader(), map[0 := 0], {})], [P(open, Some(0), 0, Calls(1, 0, 0, 0))], 1, map["stream" := 1])
  }

  function S2(open: bool): State {
    State([Client(0, Leader(), map[0 := 0], {1})],
          [P(open, Some(0), 0, Calls(1, 0, 0, 0)), T(open, Some(0), Calls(1, 0, 0, 0))], 1, map["stream" := 2])
  }

  function S3(): State {
    State([Client(0, Leader(), map[0 := 0, 1 := 2], {1})],
          [P(true, Some(0), 0, Calls(1, 0, 0, 0)), T(true, Some(0), Calls(1, 0, 0, 0)),
           P(false, Some(0), 1, Calls(1, 0, 0, 0))], 1, map["stream" := 3])
  }

  /** The exhaustion test never stubs isOpen, so both of its agents report closed. */
  function ExhaustionRegs(): seq<Registration> {
    [Registration(Producer, "stream", false), Registration(TrackingConsumer, "stream", false)]
  }

  function ShutdownRegs(): seq<Registration> {
    [Registration(Producer, "stream", true), Registration(TrackingConsumer, "stream", true),
     Registration(Producer, "stream", false)]
  }

  lemma Registered(cfg: Config)
    requires ShutdownConfig(cfg)
    ensures RegisterAll(cfg, Init(), ShutdownRegs()) == S3()
  {
    Step1(cfg, true);
    Step2(cfg, true);
    Step3(cfg);
    var regs := ShutdownRegs();
    assert RegisterAll(cfg, S3(), regs[3..]) == S3();
    assert RegisterAll(cfg, S2(true), regs[2..]) == RegisterAll(cfg, S3(), regs[3..]);
    assert RegisterAll(cfg, S1(true), regs[1..]) == RegisterAll(cfg, S2(true), regs[2..]);
  }

  lemma Step1(cfg: Config, open: bool)
    requires ConfigOk(cfg) && AnswersLeader(cfg, 0)
    ensures Register(cfg, Init(), Producer, "stream", open) == (Ok(0), S1(open))
  {
    var (answer, q) := Query(cfg, Init(), "stream");
    assert answer == Some(WithLeader(Leader()));
    assert q.served == map["stream" := 1];
    var q2 := q.(agents := q.agents + [NewAgent(Producer, "stream", open)]);
    assert FirstFit(cfg, q2.pool, Producer, Leader()) == 0;
    CoordinatorProperties.LowestFreeIdIs(map[], cfg.maxProducers, 0);
    var r := Attach(cfg, q2, 0, Leader());
    assert r.pool == S1(open).pool;
    assert r.agents == S1(open).agents;
  }

  lemma Step2(cfg: Config, open: bool)
    requires ConfigOk(cfg) && AnswersLeader(cfg, 1)
    ensures Register(cfg, S1(open), TrackingConsumer, "stream", open) == (Ok(1), S2(open))
  {
    var (answer, q) := Query(cfg, S1(open), "stream");
    assert answer == Some(WithLeader(Leader()));
    assert q.served == map["stream" := 2];
    var q2 := q.(agents := q.agents + [NewAgent(TrackingConsumer, "stream", open)]);
    assert FirstFit(cfg, q2.pool, TrackingConsumer, Leader()) == 0;
    var r := Attach(cfg, q2, 1, Leader());
    assert r.pool == S2(open).pool;
    assert r.agents == S2(open).agents;
  }

  lemma Step3(cfg: Config)
    requires ConfigOk(cfg) && 2 <= cfg.maxProducers && AnswersLeader(cfg, 2)
    ensures Register(cfg, S2(true), Producer, "stream", false) == (Ok(2), S3())
  {
    CoordinatorProperties.LowestFreeIdIs(map[0 := 0], cfg.maxProducers, 1);
    var (answer, q) := Query(cfg, S2(true), "stream");
    assert answer == Some(WithLeader(Leader()));
    assert q.served == map["stream" := 3];
    var q2 := q.(agents := q.agents + [NewAgent(Producer, "stream", false)]);
    assert FirstFit(cfg, q2.pool, Producer, Leader()) == 0;
    var r := Attach(cfg, q2, 2, Leader());
    assert r.pool == S3().pool;
    assert r.agents == S3().agents;
  }

  /** The three agents after the shutdown marked them unavailable and unbound them. */
  function Paused(): State {
    State([], [P(true, None, 0, Calls(1, 1, 0, 0)), T(true, None, Calls(1, 1, 0, 0)),
               P(false, None, 1, Calls(1, 1, 0, 0))], 1, map["stream" := 3])
  }

  function R0(): State {
    State([Client(1, Leader(), map[0 := 0], {})],
          [P(true, Some(1), 0, Calls(2, 1, 1, 0)), T(true, None, Calls(1, 1, 0, 0)),
           P(false, None, 1, Calls(1, 1, 0, 0))], 2, map["stream" := 6])
  }

  function R1(): State {
    State([Client(1, Leader(), map[0 := 0], {1})],
          [P(true, Some(1), 0, Calls(2, 1, 1, 0)), T(true, Some(1), Calls(2, 1, 1, 0)),
           P(false, None, 1, Calls(1, 1, 0, 0))], 2, map["stream" := 7])
  }

  function R2(): State {
    R1().(served := map["stream" := 8])
  }

  lemma AffectedStep()
    ensures AffectedAgents(S3().agents, 0, None) == [0, 1, 2]
  {
    var a := S3().agents;
    assert AffectedUpTo(a, 0, None, 0) == [];
    assert AffectedUpTo(a, 0, None, 1) == [0];
    assert AffectedUpTo(a, 0, None, 2) == [0, 1];
  }

  lemma PauseStep()
    ensures Pause(S3().agents, [0, 1, 2]) == Paused().agents
  {
    var a := S3().agents;
    var paused := Pause(a, [0, 1, 2]);
    assert paused[0] == Unavailable(a[0]);
    assert paused[1] == Unavailable(a[1]);
    assert paused[2] == Unavailable(a[2]);
    assert paused == [Unavailable(a[0]), Unavailable(a[1]), Unavailable(a[2])];
    assert Unavailable(a[0]) == Paused().agents[0];
    assert Unavailable(a[1]) == Paused().agents[1];
    assert Unavailable(a[2]) == Paused().agents[2];
  }

  lemma Recover0(cfg: Config)
    requires ShutdownConfig(cfg)
    ensures Recover(cfg, Paused(), 0, cfg.recoveryAttempts) == R0()
  {
    var n := cfg.recoveryAttempts;
    var p3 := Paused();
    var p4 := p3.(served := map["stream" := 4]);
    var p5 := p3.(served := map["stream" := 5]);
    var p6 := p3.(served := map["stream" := 6]);
    assert Query(cfg, p3, "stream") == (Some(NoLeader()), p4) by {
      assert p3.served["stream" := 4] == map["stream" := 4];
    }
    assert Query(cfg, p4, "stream") == (Some(NoLeader()), p5) by {
      assert p4.served["stream" := 5] == map["stream" := 5];
    }
    assert Query(cfg, p5, "stream") == (Some(WithLeader(Leader())), p6) by {
      assert p5.served["stream" := 6] == map["stream" := 6];
    }
    assert LookupLeader(cfg, p5, "stream", n - 2) == (Some(Leader()), p6);
    assert LookupLeader(cfg, p4, "stream", n - 1) == (Some(Leader()), p6);
    var l := LookupLeader(cfg, p3, "stream", n);
    assert l == (Some(Leader()), p6);
    var r := Attach(cfg, l.1, 0, Leader());
    assert r.pool == R0().pool;
  }

  lemma Recover1(cfg: Config)
    requires ShutdownConfig(cfg)
    ensures Recover(cfg, R0(), 1, cfg.recoveryAttempts) == R1()
  {
    assert Query(cfg, R0(), "stream") == (Some(WithLeader(Leader())), R0().(served := map["stream" := 7])) by {
      assert R0().served["stream" := 7] == map["stream" := 7];
    }
    var l := LookupLeader(cfg, R0(), "stream", cfg.recoveryAttempts);
    assert l == (Some(Leader()), R0().(served := map["stream" := 7]));
    var r := Attach(cfg, l.1, 1, Leader());
    assert r.pool == R1().pool;
  }

  lemma Recover2(cfg: Config)
    requires ShutdownConfig(cfg)
    ensures Recover(cfg, R1(), 2, cfg.recoveryAttempts) == R2()
  {
    assert Query(cfg, R1(), "stream") == (Some(WithLeader(Leader())), R2()) by {
      assert R1().served["stream" := 8] == map["stream" := 8];
    }
    var l := LookupLeader(cfg, R1(), "stream", cfg.recoveryAttempts);
    assert l == (Some(Leader()), R1().(served := map["stream" := 8]));
  }

  lemma RecoveredLast(cfg: Config)
    requires ShutdownConfig(cfg)
    ensures RecoverAll(cfg, R1(), [2], cfg.recoveryAttempts) == R2()
  {
    Recover2(cfg);
    assert RecoverAll(cfg, R1(), [2], cfg.recoveryAttempts) == RecoverAll(cfg, R2(), [], cfg.recoveryAttempts);
  }

  lemma RecoveredTwo(cfg: Config)
    requires ShutdownConfig(cfg)
    ensures RecoverAll(cfg, R0(), [1, 2], cfg.recoveryAttempts) == R2()
  {
    Recover1(cfg);
    RecoveredLast(cfg);
    assert [1, 2][1..] == [2];
  }

  lemma RecoveredInTurn(cfg: Config)
    requires ShutdownConfig(cfg)
    ensures RecoverAll(cfg, Paused(), [0, 1, 2], cfg.recoveryAttempts) == R2()
  {
    Recover0(cfg);
    RecoveredTwo(cfg);
    assert [0, 1, 2][1..] == [1, 2];
  }

  lemma ShutdownRecovered(cfg: Config)
    requires ShutdownConfig(cfg)
    ensures OnShutdown(cfg, S3(), 0) == R2()
  {
    AffectedStep();
    PauseStep();
    RecoveredInTurn(cfg);
    var s3 := S3();
    assert IndexOfClient(s3.pool, 0) == 0;
    assert Remove(s3.pool, 0) == [];
    var p := s3.(pool := [], agents := Pause(s3.agents, [0, 1, 2]));
    assert p == Paused();
  }

  lemma OneBroker(pool: seq<Client>)
    requires |pool| == 1
    ensures |Brokers(pool)| == 1
  {
    BrokersCons(pool);
    assert Brokers(pool[1..]) == {};
  }

  /**
   * Two producers, one of them already closed, and a tracking consumer share one client;
   * the client shuts down and the locator answers twice without a leader before naming
   * it again. Each agent is marked unavailable once; the open ones are bound a second
   * time and signalled running once; the closed producer is not bound again and never
   * running; one client on one node remains.
   */
  lemma ShutdownRecovery(cfg: Config)
    requires ShutdownConfig(cfg)
    ensures var s := RegisterAll(cfg, Init(), ShutdownRegs());
            |s.agents| == 3 && |s.pool| == 1 && s.pool[0].id == 0 &&
            s.agents[0].calls.setClient == 1 && s.agents[1].calls.setClient == 1 && s.agents[2].calls.setClient == 1 &&
            ClientCount(s) == 1 && NodesConnected(s) == 1 &&
            var r := OnShutdown(cfg, s, 0);
            |r.agents| == 3 &&
            r.agents[0].calls == Calls(2, 1, 1, 0) && r.agents[1].calls == Calls(2, 1, 1, 0) &&
            r.agents[2].calls == Calls(1, 1, 0, 0) &&
            ClientCount(r) == 1 && NodesConnected(r) == 1
  {
    Registered(cfg);
    ShutdownRecovered(cfg);
    OneBroker(S3().pool);
    OneBroker(R2().pool);
  }

  // ------------------------------------------------- recovery that runs out of attempts

  /** The locator names the leader for the two registrations and never again. */
  predicate ExhaustionConfig(cfg: Config) {
    ConfigOk(cfg) &&
    cfg.script == map["stream" := [WithLeader(Leader()), WithLeader(Leader()), NoLeader()]]
  }

  /** Once the scripted leaders are used up, a lookup spends its whole budget and gives up. */
  lemma {:induction false} LookupExhausted(cfg: Config, st: State, attempts: nat)
    requires ExhaustionConfig(cfg) && Served(st, "stream") >= 2
    ensures LookupLeader(cfg, st, "stream", attempts) ==
            (None, st.(served := st.served["stream" := Served(st, "stream") + attempts]))
    decreases attempts
  {
    if attempts > 0 {
      var (answer, st1) := Query(cfg, st, "stream");
      assert answer == Some(NoLeader());
      assert Classify(answer) == Err(IllegalStateError);
      assert LookupLeader(cfg, st, "stream", attempts) == LookupLeader(cfg, st1, "stream", attempts - 1);
      assert Served(st1, "stream") == Served(st, "stream") + 1;
      LookupExhausted(cfg, st1, attempts - 1);
      var m := st.served["stream" := Served(st, "stream") + attempts];
      assert st1.served["stream" := Served(st1, "stream") + (attempts - 1)] == m;
      assert st1.(served := m) == st.(served := m);
    } else {
      assert st.served["stream" := Served(st, "stream")] == st.served;
    }
  }

  /** The producer and the tracking consumer once their client is gone: unbound and
      signalled unavailable once. */
  function PausedPair(): State {
    State([], [P(false, None, 0, Calls(1, 1, 0, 0)), T(false, None, Calls(1, 1, 0, 0))], 1, map["stream" := 2])
  }

  /** The same after a give-up: the producer was closed after stream deletion. */
  function GaveUp(served: nat): State {
    State([], [P(false, None, 0, Calls(1, 1, 0, 1)), T(false, None, Calls(1, 1, 0, 0))], 1, map["stream" := served])
  }

  lemma PausePair()
    ensures Pause(S2(false).agents, [0, 1]) == PausedPair().agents
  {
    var a := S2(false).agents;
    var paused := Pause(a, [0, 1]);
    assert paused[0] == Unavailable(a[0]);
    assert paused[1] == Unavailable(a[1]);
  }

  /** Both agents are bound to client 0 and on "stream". */
  lemma AffectedPair(stream: Option<string>)
    requires stream == None || stream == Some("stream")
    ensures AffectedAgents(S2(false).agents, 0, stream) == [0, 1]
  {
    var a := S2(false).agents;
    assert AffectedUpTo(a, 0, stream, 0) == [];
    assert AffectedUpTo(a, 0, stream, 1) == [0];
  }

  lemma ProducerGaveUp(cfg: Config, attempts: nat)
    requires ExhaustionConfig(cfg)
    ensures Recover(cfg, PausedPair(), 0, attempts) ==
            GaveUp(2 + attempts).(agents := [GaveUp(0).agents[0], PausedPair().agents[1]])
  {
    LookupExhausted(cfg, PausedPair(), attempts);
  }

  lemma TrackerGaveUp(cfg: Config, attempts: nat)
    requires ExhaustionConfig(cfg)
    ensures Recover(cfg, GaveUp(2 + attempts).(agents := [GaveUp(0).agents[0], PausedPair().agents[1]]), 1, attempts) ==
            GaveUp(2 + 2 * attempts)
  {
    var st := GaveUp(2 + attempts).(agents := [GaveUp(0).agents[0], PausedPair().agents[1]]);
    LookupExhausted(cfg, st, attempts);
    assert st.served["stream" := 2 + attempts + attempts] == map["stream" := 2 + 2 * attempts];
  }

  lemma {:induction false} RecoveredNone(cfg: Config, attempts: nat)
    requires ExhaustionConfig(cfg)
    ensures RecoverAll(cfg, PausedPair(), [0, 1], attempts) == GaveUp(2 + 2 * attempts)
  {
    ProducerGaveUp(cfg, attempts);
    TrackerGaveUp(cfg, attempts);
    var st1 := GaveUp(2 + attempts).(agents := [GaveUp(0).agents[0], PausedPair().agents[1]]);
    var st2 := GaveUp(2 + 2 * attempts);
    assert RecoverAll(cfg, st1, [1], attempts) == RecoverAll(cfg, st2, [], attempts);
    assert [0, 1][1..] == [1];
  }

  lemma ShutdownPaused(cfg: Config)
    requires ExhaustionConfig(cfg)
    ensures OnShutdown(cfg, S2(false), 0) == RecoverAll(cfg, PausedPair(), [0, 1], cfg.recoveryAttempts)
  {
    AffectedPair(None);
    PausePair();
    assert IndexOfClient(S2(false).pool, 0) == 0;
    assert Remove(S2(false).pool, 0) == [];
  }

  lemma MetadataPaused(cfg: Config)
    requires ExhaustionConfig(cfg)
    ensures OnMetadataUpdate(cfg, S2(false), 0, "stream") ==
            RecoverAll(cfg, PausedPair(), [0, 1], cfg.topologyUpdateAttempts)
  {
    AffectedPair(Some("stream"));
    PausePair();
    assert IndexOfClient(S2(false).pool, 0) == 0;
    var c := WithoutAgents(S2(false).pool[0], [0, 1]);
    assert c.producers == map[];
    assert c.trackers == {};
    assert Evict(S2(false).pool, 0, c) == [];
  }

  /**
   * A producer and a tracking consumer share one client; then the client shuts down, or
   * the stream's metadata changes, and the locator never names a leader again. Each agent
   * is marked unavailable once and never bound again nor signalled running; the producer
   * is closed after stream deletion and the tracking consumer is not; no client and no
   * node remain.
   */
  lemma RecoveryExhausted(cfg: Config)
    requires ExhaustionConfig(cfg)
    ensures var s := RegisterAll(cfg, Init(), ExhaustionRegs());
            |s.agents| == 2 && |s.pool| == 1 && s.pool[0].id == 0 &&
            s.agents[0].calls == Calls(1, 0, 0, 0) && s.agents[1].calls == Calls(1, 0, 0, 0) &&
            ClientCount(s) == 1 && NodesConnected(s) == 1 &&
            forall r :: r == OnShutdown(cfg, s, 0) || r == OnMetadataUpdate(cfg, s, 0, "stream") ==>
              |r.agents| == 2 &&
              r.agents[0].calls == Calls(1, 1, 0, 1) && r.agents[1].calls == Calls(1, 1, 0, 0) &&
              ClientCount(r) == 0 && NodesConnected(r) == 0
  {
    Step1(cfg, false);
    Step2(cfg, false);
    var regs := ExhaustionRegs();
    assert RegisterAll(cfg, S2(false), regs[2..]) == S2(false);
    assert RegisterAll(cfg, S1(false), regs[1..]) == RegisterAll(cfg, S2(false), regs[2..]);
    OneBroker(S2(false).pool);
    ShutdownPaused(cfg);
    MetadataPaused(cfg);
    RecoveredNone(cfg, cfg.recoveryAttempts);
    RecoveredNone(cfg, cfg.topologyUpdateAttempts);
  }
}
