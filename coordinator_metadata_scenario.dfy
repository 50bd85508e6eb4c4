/**
 * Replay of the redistribution on a metadata update: two streams share one client on
 * leader-1; the "moving" stream's leader moves to leader-2, the "fixed" stream stays.
 */
module CoordinatorMetadataScenario {
  import opened Wrappers
  import opened CoordinatorModel
  import CoordinatorProperties
  import opened CoordinatorScenarios

  function L1(): Broker { Broker("leader-1", 5552) }
  function L2(): Broker { Broker("leader-2", 5552) }
  function Moving(): string { "moving-stream" }
  function Fixed(): string { "fixed-stream" }

  /** Three answers naming leader-1 for the registrations on the moving stream, one
      without a leader, then leader-2; the fixed stream always names leader-1. */
  predicate MetadataConfig(cfg: Config) {
    3 <= cfg.maxProducers <= 256 && 2 <= cfg.maxTrackingConsumers && 2 <= cfg.topologyUpdateAttempts &&
    cfg.script == map[Moving() := [WithLeader(L1()), WithLeader(L1()), WithLeader(L1()),
                                   NoLeader(), WithLeader(L2())],
                      Fixed() := [WithLeader(L1())]]
  }

  /** Registration order of the test; the producer closed after disconnection reports closed. */
  function MetadataRegs(): seq<Registration> {
    [Registration(Producer, Moving(), true), Registration(Producer, Fixed(), true),
     Registration(Producer, Moving(), false), Registration(TrackingConsumer, Moving(), true),
     Registration(TrackingConsumer, Fixed(), true)]
  }

  function Once(): Calls { Calls(1, 0, 0, 0) }

  function MovingProducer(): Agent { Agent(Producer, Moving(), true, Some(0), 0, Once()) }
  function FixedProducer(): Agent { Agent(Producer, Fixed(), true, Some(0), 1, Once()) }
  function ClosedProducer(): Agent { Agent(Producer, Moving(), false, Some(0), 2, Once()) }
  function MovingTracker(): Agent { Agent(TrackingConsumer, Moving(), true, Some(0), 0, Once()) }
  function FixedTracker(): Agent { Agent(TrackingConsumer, Fixed(), true, Some(0), 0, Once()) }

  function M1(): State {
    State([Client(0, L1(), map[0 := 0], {})], [MovingProducer()], 1, map[Moving() := 1])
  }

  function M2(): State {
    State([Client(0, L1(), map[0 := 0, 1 := 1], {})], [MovingProducer(), FixedProducer()], 1,
          map[Moving() := 1, Fixed() := 1])
  }

  function M3(): State {
    State([Client(0, L1(), map[0 := 0, 1 := 1, 2 := 2], {})],
          [MovingProducer(), FixedProducer(), ClosedProducer()], 1, map[Moving() := 2, Fixed() := 1])
  }

  function M4(): State {
    State([Client(0, L1(), map[0 := 0, 1 := 1, 2 := 2], {3})],
          [MovingProducer(), FixedProducer(), ClosedProducer(), MovingTracker()], 1,
          map[Moving() := 3, Fixed() := 1])
  }

  /** All five agents on one client on leader-1. */
  function M5(): State {
    State([Client(0, L1(), map[0 := 0, 1 := 1, 2 := 2], {3, 4})],
          [MovingProducer(), FixedProducer(), ClosedProducer(), MovingTracker(), FixedTracker()], 1,
          map[Moving() := 3, Fixed() := 2])
  }

  lemma Reg1(cfg: Config)
    requires MetadataConfig(cfg)
    ensures Register(cfg, Init(), Producer, Moving(), true) == (Ok(0), M1())
  {
    var (answer, q) := Query(cfg, Init(), Moving());
    assert answer == Some(WithLeader(L1()));
    assert q.served == M1().served;
    var q2 := q.(agents := q.agents + [NewAgent(Producer, Moving(), true)]);
    assert FirstFit(cfg, q2.pool, Producer, L1()) == 0;
    CoordinatorProperties.LowestFreeIdIs(map[], cfg.maxProducers, 0);
    var r := Attach(cfg, q2, 0, L1());
    assert r.pool == M1().pool;
    assert r.agents == M1().agents;
  }

  lemma Reg2(cfg: Config)
    requires MetadataConfig(cfg)
    ensures Register(cfg, M1(), Producer, Fixed(), true) == (Ok(1), M2())
  {
    var (answer, q) := Query(cfg, M1(), Fixed());
    assert answer == Some(WithLeader(L1()));
    assert q.served == M2().served;
    var q2 := q.(agents := q.agents + [NewAgent(Producer, Fixed(), true)]);
    assert FirstFit(cfg, q2.pool, Producer, L1()) == 0;
    CoordinatorProperties.LowestFreeIdIs(map[0 := 0], cfg.maxProducers, 1);
    var r := Attach(cfg, q2, 1, L1());
    assert r.pool == M2().pool;
    assert r.agents == M2().agents;
  }

  lemma Reg3(cfg: Config)
    requires MetadataConfig(cfg)
    ensures Register(cfg, M2(), Producer, Moving(), false) == (Ok(2), M3())
  {
    var (answer, q) := Query(cfg, M2(), Moving());
    assert answer == Some(WithLeader(L1()));
    assert q.served == M3().served;
    var q2 := q.(agents := q.agents + [NewAgent(Producer, Moving(), false)]);
    assert |q2.pool[0].producers| == 2;
    assert FirstFit(cfg, q2.pool, Producer, L1()) == 0;
    CoordinatorProperties.LowestFreeIdIs(map[0 := 0, 1 := 1], cfg.maxProducers, 2);
    var r := Attach(cfg, q2, 2, L1());
    assert r.pool == M3().pool;
    assert r.agents == M3().agents;
  }

  lemma Reg4(cfg: Config)
    requires MetadataConfig(cfg)
    ensures Register(cfg, M3(), TrackingConsumer, Moving(), true) == (Ok(3), M4())
  {
    var (answer, q) := Query(cfg, M3(), Moving());
    assert answer == Some(WithLeader(L1()));
    assert q.served == M4().served;
    var q2 := q.(agents := q.agents + [NewAgent(TrackingConsumer, Moving(), true)]);
    assert FirstFit(cfg, q2.pool, TrackingConsumer, L1()) == 0;
    var r := Attach(cfg, q2, 3, L1());
    assert r.pool == M4().pool;
    assert r.agents == M4().agents;
  }

  lemma Reg5(cfg: Config)
    requires MetadataConfig(cfg)
    ensures Register(cfg, M4(), TrackingConsumer, Fixed(), true) == (Ok(4), M5())
  {
    var (answer, q) := Query(cfg, M4(), Fixed());
    assert answer == Some(WithLeader(L1()));
    assert q.served == M5().served;
    var q2 := q.(agents := q.agents + [NewAgent(TrackingConsumer, Fixed(), true)]);
    assert |q2.pool[0].trackers| == 1;
    assert FirstFit(cfg, q2.pool, TrackingConsumer, L1()) == 0;
    var r := Attach(cfg, q2, 4, L1());
    assert q2.pool[0].trackers + {4} == {3, 4};
    assert r.pool == M5().pool;
    assert r.agents == M5().agents;
  }

  lemma RegisteredFive(cfg: Config)
    requires MetadataConfig(cfg)
    ensures RegisterAll(cfg, Init(), MetadataRegs()) == M5()
  {
    Reg1(cfg);
    Reg2(cfg);
    Reg3(cfg);
    Reg4(cfg);
    Reg5(cfg);
    var regs := MetadataRegs();
    assert RegisterAll(cfg, M5(), regs[5..]) == M5();
    assert RegisterAll(cfg, M4(), regs[4..]) == RegisterAll(cfg, M5(), regs[5..]);
    assert RegisterAll(cfg, M3(), regs[3..]) == RegisterAll(cfg, M4(), regs[4..]);
    assert RegisterAll(cfg, M2(), regs[2..]) == RegisterAll(cfg, M3(), regs[3..]);
    assert RegisterAll(cfg, M1(), regs[1..]) == RegisterAll(cfg, M2(), regs[2..]);
  }

  // ------------------------------------------------------------ the update

  /** The client keeps the fixed stream's agents only. */
  function Kept(): Client { Client(0, L1(), map[1 := 1], {4}) }

  /** The moving stream's agents detached and marked unavailable once. */
  function Detached(): State {
    State([Kept()],
          [Unavailable(MovingProducer()), FixedProducer(), Unavailable(ClosedProducer()),
           Unavailable(MovingTracker()), FixedTracker()], 1, M5().served)
  }

  function Moved(): Agent { Running(Bound(Unavailable(MovingProducer()), 1, 0)) }
  function MovedTracker(): Agent { Running(Bound(Unavailable(MovingTracker()), 1, 0)) }

  /** After the moving producer found leader-2 on its second lookup. */
  function D0(): State {
    State([Kept(), Client(1, L2(), map[0 := 0], {})],
          [Moved(), FixedProducer(), Unavailable(ClosedProducer()),
           Unavailable(MovingTracker()), FixedTracker()], 2, map[Moving() := 5, Fixed() := 2])
  }

  /** The closed producer only consumed one more answer. */
  function D1(): State {
    D0().(served := map[Moving() := 6, Fixed() := 2])
  }

  /** The moving tracking consumer joined the new client on leader-2. */
  function D2(): State {
    State([Kept(), Client(1, L2(), map[0 := 0], {3})],
          [Moved(), FixedProducer(), Unavailable(ClosedProducer()),
           MovedTracker(), FixedTracker()], 2, map[Moving() := 7, Fixed() := 2])
  }

  lemma AffectedMoving()
    ensures AffectedAgents(M5().agents, 0, Some(Moving())) == [0, 2, 3]
  {
    var a := M5().agents;
    assert AffectedUpTo(a, 0, Some(Moving()), 0) == [];
    assert AffectedUpTo(a, 0, Some(Moving()), 1) == [0];
    assert AffectedUpTo(a, 0, Some(Moving()), 2) == [0];
    assert AffectedUpTo(a, 0, Some(Moving()), 3) == [0, 2];
    assert AffectedUpTo(a, 0, Some(Moving()), 4) == [0, 2, 3];
  }

  lemma PauseMoving()
    ensures Pause(M5().agents, [0, 2, 3]) == Detached().agents
  {
    var a := M5().agents;
    var paused := Pause(a, [0, 2, 3]);
    assert paused[0] == Detached().agents[0];
    assert paused[1] == Detached().agents[1];
    assert paused[2] == Detached().agents[2];
    assert paused[3] == Detached().agents[3];
    assert paused[4] == Detached().agents[4];
  }

  lemma KeepFixed()
    ensures Evict(M5().pool, 0, WithoutAgents(M5().pool[0], [0, 2, 3])) == [Kept()]
  {
    var c := WithoutAgents(M5().pool[0], [0, 2, 3]);
    assert c.producers == map[1 := 1];
    assert c.trackers == {4};
  }

  lemma Detach(cfg: Config)
    requires MetadataConfig(cfg)
    ensures OnMetadataUpdate(cfg, M5(), 0, Moving()) ==
            RecoverAll(cfg, Detached(), [0, 2, 3], cfg.topologyUpdateAttempts)
  {
    AffectedMoving();
    PauseMoving();
    KeepFixed();
    assert IndexOfClient(M5().pool, 0) == 0;
  }

  lemma RecoverMoved(cfg: Config)
    requires MetadataConfig(cfg)
    ensures Recover(cfg, Detached(), 0, cfg.topologyUpdateAttempts) == D0()
  {
    var n := cfg.topologyUpdateAttempts;
    var p3 := Detached();
    var p4 := p3.(served := map[Moving() := 4, Fixed() := 2]);
    var p5 := p3.(served := map[Moving() := 5, Fixed() := 2]);
    assert Query(cfg, p3, Moving()) == (Some(NoLeader()), p4) by {
      assert p3.served[Moving() := 4] == map[Moving() := 4, Fixed() := 2];
    }
    assert Query(cfg, p4, Moving()) == (Some(WithLeader(L2())), p5) by {
      assert p4.served[Moving() := 5] == map[Moving() := 5, Fixed() := 2];
    }
    assert LookupLeader(cfg, p4, Moving(), n - 1) == (Some(L2()), p5);
    var l := LookupLeader(cfg, p3, Moving(), n);
    assert l == (Some(L2()), p5);
    assert FirstFit(cfg, p5.pool, Producer, L2()) == 1;
    CoordinatorProperties.LowestFreeIdIs(map[], cfg.maxProducers, 0);
    var r := Attach(cfg, p5, 0, L2());
    assert r.pool == D0().pool;
  }

  lemma RecoverClosed(cfg: Config)
    requires MetadataConfig(cfg)
    ensures Recover(cfg, D0(), 2, cfg.topologyUpdateAttempts) == D1()
  {
    assert Query(cfg, D0(), Moving()) == (Some(WithLeader(L2())), D1()) by {
      assert D0().served[Moving() := 6] == map[Moving() := 6, Fixed() := 2];
    }
    var l := LookupLeader(cfg, D0(), Moving(), cfg.topologyUpdateAttempts);
    assert l == (Some(L2()), D1());
  }

  lemma RecoverTracker(cfg: Config)
    requires MetadataConfig(cfg)
    ensures Recover(cfg, D1(), 3, cfg.topologyUpdateAttempts) == D2()
  {
    var d := D1().(served := map[Moving() := 7, Fixed() := 2]);
    assert Query(cfg, D1(), Moving()) == (Some(WithLeader(L2())), d) by {
      assert D1().served[Moving() := 7] == map[Moving() := 7, Fixed() := 2];
    }
    var l := LookupLeader(cfg, D1(), Moving(), cfg.topologyUpdateAttempts);
    assert l == (Some(L2()), d);
    assert FirstFit(cfg, d.pool, TrackingConsumer, L2()) == 1;
    var r := Attach(cfg, d, 3, L2());
    assert r.pool == D2().pool;
  }

  lemma RecoveredLastTwo(cfg: Config)
    requires MetadataConfig(cfg)
    ensures RecoverAll(cfg, D0(), [2, 3], cfg.topologyUpdateAttempts) == D2()
  {
    RecoverClosed(cfg);
    RecoverTracker(cfg);
    assert [2, 3][1..] == [3];
    assert RecoverAll(cfg, D1(), [3], cfg.topologyUpdateAttempts) == RecoverAll(cfg, D2(), [], cfg.topologyUpdateAttempts);
  }

  lemma Redistributed(cfg: Config)
    requires MetadataConfig(cfg)
    ensures OnMetadataUpdate(cfg, M5(), 0, Moving()) == D2()
  {
    Detach(cfg);
    RecoverMoved(cfg);
    RecoveredLastTwo(cfg);
    assert [0, 2, 3][1..] == [2, 3];
  }

  lemma TwoBrokers()
    ensures |Brokers(D2().pool)| == 2
  {
    var pool := D2().pool;
    BrokersCons(pool);
    BrokersCons(pool[1..]);
    assert Brokers(pool[1..][1..]) == {};
    assert Brokers(pool) == {L1(), L2()};
  }

  lemma OneClient()
    ensures |M5().agents| == 5 && ClientCount(M5()) == 1
    ensures forall h :: 0 <= h < 5 ==> M5().agents[h].calls == Calls(1, 0, 0, 0)
  {
  }

  lemma MovedOnce()
    ensures |D2().agents| == 5
    ensures D2().agents[0].calls == Calls(2, 1, 1, 0) && D2().agents[3].calls == Calls(2, 1, 1, 0)
    ensures D2().agents[0].client == D2().agents[3].client == Some(1)
    ensures D2().agents[2].calls == Calls(1, 1, 0, 0) && D2().agents[2].client.None?
    ensures D2().agents[1] == M5().agents[1] && D2().agents[4] == M5().agents[4]
    ensures ClientCount(D2()) == 2 && NodesConnected(D2()) == 2
  {
    TwoBrokers();
  }

  /**
   * Producers and tracking consumers of a moving and a fixed stream share one client;
   * the moving stream's leader changes. Only the moving stream's agents are marked
   * unavailable, once each; the open ones are bound a second time, to a new client on
   * the new leader, and signalled running once; the closed producer is not bound again
   * and never running; the fixed stream's agents are untouched; two clients on two
   * nodes remain.
   */
  lemma MetadataRecovery(cfg: Config)
    requires MetadataConfig(cfg)
    ensures var s := RegisterAll(cfg, Init(), MetadataRegs());
            |s.agents| == 5 && ClientCount(s) == 1 &&
            (forall h :: 0 <= h < 5 ==> s.agents[h].calls == Calls(1, 0, 0, 0)) &&
            var r := OnMetadataUpdate(cfg, s, 0, Moving());
            |r.agents| == 5 &&
            r.agents[0].calls == Calls(2, 1, 1, 0) && r.agents[3].calls == Calls(2, 1, 1, 0) &&
            r.agents[0].client == r.agents[3].client == Some(1) &&
            r.agents[2].calls == Calls(1, 1, 0, 0) && r.agents[2].client.None? &&
            r.agents[1] == s.agents[1] && r.agents[4] == s.agents[4] &&
            ClientCount(r) == 2 && NodesConnected(r) == 2
  {
    RegisteredFive(cfg);
    Redistributed(cfg);
    OneClient();
    MovedOnce();
  }
}
