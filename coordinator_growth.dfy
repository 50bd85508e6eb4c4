/**
 * The pool of one broker grows and shrinks with its producers and tracking consumers:
 * while agents are registered in turn and cleaned up last first, the pool is packed
 * (module CoordinatorPacking), so the client count is the number of clients the more
 * numerous kind needs, and one node is connected.
 */
module CoordinatorGrowth {
  import opened Wrappers
  import opened CoordinatorModel
  import opened CoordinatorInvariants
  import opened CoordinatorProperties
  import opened CoordinatorPacking

  /**
   * Every client is connected to the broker, and the producers ps and the tracking
   * consumers ts, in registration order, fill the clients in turn.
   */
  ghost predicate Packed(cfg: Config, st: State, broker: Broker, ps: seq<nat>, ts: seq<nat>) {
    Inv(cfg, st) && OnBroker(st.pool, broker) &&
    ProducerSlots(cfg.maxProducers, st.pool, ps) && TrackerSlots(cfg.maxTrackingConsumers, st.pool, ts)
  }

  /** Packed, from its parts. */
  lemma FoldPacked(cfg: Config, st: State, broker: Broker, ps: seq<nat>, ts: seq<nat>)
    requires Inv(cfg, st) && OnBroker(st.pool, broker)
    requires ProducerSlots(cfg.maxProducers, st.pool, ps) && TrackerSlots(cfg.maxTrackingConsumers, st.pool, ts)
    ensures Packed(cfg, st, broker, ps, ts)
  {
  }

  /** Packed depends on the producer and consumer sequences only through their values. */
  lemma PackedSame(cfg: Config, st: State, broker: Broker, ps: seq<nat>, ts: seq<nat>, ps2: seq<nat>, ts2: seq<nat>)
    requires Packed(cfg, st, broker, ps, ts) && ps == ps2 && ts == ts2
    ensures Packed(cfg, st, broker, ps2, ts2)
  {
  }

  /** The locator always names the broker as the stream's leader. */
  predicate Leads(cfg: Config, stream: string, broker: Broker) {
    stream in cfg.script && cfg.script[stream] == [StreamMetadata(ResponseOk, Some(broker))]
  }

  /** The empty coordinator is packed, with no agent. */
  lemma InitPacked(cfg: Config, broker: Broker)
    requires ConfigOk(cfg)
    ensures Packed(cfg, Init(), broker, [], [])
  {
    InitInv(cfg);
  }

  /** First fit is the client before which none fits and which fits, if pooled. */
  lemma FirstFitIs(cfg: Config, pool: seq<Client>, kind: Kind, broker: Broker, q: nat)
    requires q <= |pool|
    requires forall j :: 0 <= j < q ==> !Fits(cfg, pool[j], kind, broker)
    requires q < |pool| ==> Fits(cfg, pool[q], kind, broker)
    ensures FirstFit(cfg, pool, kind, broker) == q
  {
  }

  // ------------------------------------------------------------ counters

  /**
   * A packed pool has exactly as many clients as the more numerous kind needs:
   * ceil(|ps| / maxProducers) or ceil(|ts| / maxTrackingConsumers).
   */
  lemma PoolSize(cfg: Config, st: State, broker: Broker, ps: seq<nat>, ts: seq<nat>)
    requires Packed(cfg, st, broker, ps, ts)
    ensures ClientCount(st) == Max(Needed(|ps|, cfg.maxProducers), Needed(|ts|, cfg.maxTrackingConsumers))
    ensures ClientCount(st) == Max((|ps| + cfg.maxProducers - 1) / cfg.maxProducers,
                                   (|ts| + cfg.maxTrackingConsumers - 1) / cfg.maxTrackingConsumers)
  {
    var np, nt := Needed(|ps|, cfg.maxProducers), Needed(|ts|, cfg.maxTrackingConsumers);
    if |st.pool| > Max(np, nt) {
      var j := |st.pool| - 1;
      ShareLoad(|ps|, cfg.maxProducers, j);
      ShareLoad(|ts|, cfg.maxTrackingConsumers, j);
      assert false;
    }
    NeededIsCeil(|ps|, cfg.maxProducers);
    NeededIsCeil(|ts|, cfg.maxTrackingConsumers);
  }

  /** Clients all on one broker make one node connected, unless there is none. */
  lemma SingleNode(pool: seq<Client>, broker: Broker)
    requires OnBroker(pool, broker)
    ensures |Brokers(pool)| == if pool == [] then 0 else 1
  {
    if pool != [] {
      assert Brokers(pool) == {broker} by {
        assert pool[0].broker in Brokers(pool);
      }
    }
  }

  /** What a packed state's counters read. */
  lemma PackedCounts(cfg: Config, st: State, broker: Broker, ps: seq<nat>, ts: seq<nat>)
    requires Packed(cfg, st, broker, ps, ts)
    ensures ClientCount(st) == Max(Needed(|ps|, cfg.maxProducers), Needed(|ts|, cfg.maxTrackingConsumers))
    ensures NodesConnected(st) == if ClientCount(st) == 0 then 0 else 1
  {
    PoolSize(cfg, st, broker, ps, ts);
    SingleNode(st.pool, broker);
  }

  // ------------------------------------------------------------ registration

  /**
   * The next producer of a packed broker goes to client Pos(|ps|): every client before
   * it is full, and it has room, or it is the new client opened at the end; there the
   * lowest free publisher id is Slot(|ps|).
   */
  lemma ProducerFirstFit(cfg: Config, pool: seq<Client>, broker: Broker, ps: seq<nat>)
    requires ConfigOk(cfg) && OnBroker(pool, broker) && ProducerSlots(cfg.maxProducers, pool, ps)
    ensures FirstFit(cfg, pool, Producer, broker) == Pos(|ps|, cfg.maxProducers)
    ensures Pos(|ps|, cfg.maxProducers) == |pool| ==> Slot(|ps|, cfg.maxProducers) == 0
    ensures Pos(|ps|, cfg.maxProducers) < |pool| ==>
              |pool[Pos(|ps|, cfg.maxProducers)].producers| < cfg.maxProducers &&
              LowestFreeId(pool[Pos(|ps|, cfg.maxProducers)].producers, cfg.maxProducers) == Slot(|ps|, cfg.maxProducers)
  {
    var cap, n := cfg.maxProducers, |ps|;
    var q, s := Pos(n, cap), Slot(n, cap);
    forall j | 0 <= j < q ensures !Fits(cfg, pool[j], Producer, broker) {
      assert |pool[j].producers| == Share(n, cap, j);
    }
    if q < |pool| {
      assert |pool[q].producers| == Share(n, cap, q);
      assert forall k: PublisherId :: k in pool[q].producers <==> k < s;
      LowestFreeIdIs(pool[q].producers, cap, s);
    } else {
      ShareLoad(n, cap, q);
    }
    FirstFitIs(cfg, pool, Producer, broker, q);
  }

  /** Attaching a producer whose first fit is client q, or a new client when q is the
      pool's size, under publisher id s. */
  lemma AttachProducerAt(cfg: Config, st: State, h: nat, broker: Broker, q: nat, s: PublisherId)
    requires ConfigOk(cfg) && h < |st.agents| && st.agents[h].kind == Producer
    requires FirstFit(cfg, st.pool, Producer, broker) == q
    requires q < |st.pool| ==> |st.pool[q].producers| < cfg.maxProducers &&
                                LowestFreeId(st.pool[q].producers, cfg.maxProducers) == s
    requires q == |st.pool| ==> s == 0
    ensures var r := Attach(cfg, st, h, broker);
            var c := if q < |st.pool| then st.pool[q] else NewClient(st.nextClientId, broker);
            |r.pool| == (if q < |st.pool| then |st.pool| else |st.pool| + 1) &&
            (forall j :: 0 <= j < |st.pool| && j != q ==> r.pool[j] == st.pool[j]) &&
            r.pool[q] == c.(producers := c.producers[s := h]) &&
            r.agents[h].publisherId == s && r.agents[h].client == Some(c.id)
  {
    if q == |st.pool| {
      LowestFreeIdIs(map[], cfg.maxProducers, 0);
    }
  }

  /** A pool that gained the next producer at client Pos(|ps|), under id Slot(|ps|), is
      still packed. */
  lemma ProducerAdded(cfg: Config, pool: seq<Client>, pool2: seq<Client>, broker: Broker,
                      ps: seq<nat>, ts: seq<nat>, h: nat)
    requires ConfigOk(cfg) && OnBroker(pool, broker)
    requires ProducerSlots(cfg.maxProducers, pool, ps) && TrackerSlots(cfg.maxTrackingConsumers, pool, ts)
    requires |pool2| == if Pos(|ps|, cfg.maxProducers) < |pool| then |pool| else |pool| + 1
    requires forall j :: 0 <= j < |pool| && j != Pos(|ps|, cfg.maxProducers) ==> pool2[j] == pool[j]
    requires pool2[Pos(|ps|, cfg.maxProducers)].broker == broker
    requires pool2[Pos(|ps|, cfg.maxProducers)].producers ==
               (if Pos(|ps|, cfg.maxProducers) < |pool| then pool[Pos(|ps|, cfg.maxProducers)].producers else map[])
                 [Slot(|ps|, cfg.maxProducers) := h]
    requires pool2[Pos(|ps|, cfg.maxProducers)].trackers ==
               if Pos(|ps|, cfg.maxProducers) < |pool| then pool[Pos(|ps|, cfg.maxProducers)].trackers else {}
    ensures OnBroker(pool2, broker)
    ensures ProducerSlots(cfg.maxProducers, pool2, ps + [h]) && TrackerSlots(cfg.maxTrackingConsumers, pool2, ts)
  {
    OnBrokerAt(pool, pool2, broker, Pos(|ps|, cfg.maxProducers));
    ProducerSlotsAdd(cfg.maxProducers, pool, pool2, ps, h);
    TrackerSlotsKeep(cfg.maxTrackingConsumers, pool, pool2, ts);
  }

  /**
   * Attaching the next producer of a packed broker: first fit is client Pos(|ps|), or a
   * new client at the end when every client is full, and the producer takes its lowest
   * free publisher id, Slot(|ps|).
   */
  lemma AttachProducerPacked(cfg: Config, st: State, h: nat, broker: Broker, ps: seq<nat>, ts: seq<nat>)
    requires ConfigOk(cfg) && h < |st.agents| && st.agents[h].kind == Producer
    requires OnBroker(st.pool, broker)
    requires ProducerSlots(cfg.maxProducers, st.pool, ps) && TrackerSlots(cfg.maxTrackingConsumers, st.pool, ts)
    ensures var r := Attach(cfg, st, h, broker);
            OnBroker(r.pool, broker) &&
            ProducerSlots(cfg.maxProducers, r.pool, ps + [h]) && TrackerSlots(cfg.maxTrackingConsumers, r.pool, ts) &&
            Pos(|ps|, cfg.maxProducers) < |r.pool| &&
            r.agents[h].publisherId == Slot(|ps|, cfg.maxProducers) &&
            r.agents[h].client == Some(r.pool[Pos(|ps|, cfg.maxProducers)].id)
  {
    var cap, n := cfg.maxProducers, |ps|;
    var q, s := Pos(n, cap), Slot(n, cap);
    ProducerFirstFit(cfg, st.pool, broker, ps);
    AttachProducerAt(cfg, st, h, broker, q, s);
    ProducerAdded(cfg, st.pool, Attach(cfg, st, h, broker).pool, broker, ps, ts, h);
  }

  /** The next tracking consumer of a packed broker goes to client Pos(|ts|), every client
      before it being full. */
  lemma TrackerFirstFit(cfg: Config, pool: seq<Client>, broker: Broker, ts: seq<nat>)
    requires ConfigOk(cfg) && OnBroker(pool, broker) && TrackerSlots(cfg.maxTrackingConsumers, pool, ts)
    ensures FirstFit(cfg, pool, TrackingConsumer, broker) == Pos(|ts|, cfg.maxTrackingConsumers)
  {
    var cap, n := cfg.maxTrackingConsumers, |ts|;
    var q := Pos(n, cap);
    forall j | 0 <= j < q ensures !Fits(cfg, pool[j], TrackingConsumer, broker) {
      assert |pool[j].trackers| == Share(n, cap, j);
    }
    if q < |pool| {
      assert |pool[q].trackers| == Share(n, cap, q);
    }
    FirstFitIs(cfg, pool, TrackingConsumer, broker, q);
  }

  /** Attaching a tracking consumer whose first fit is client q, or a new client when q is
      the pool's size. */
  lemma AttachTrackerAt(cfg: Config, st: State, h: nat, broker: Broker, q: nat)
    requires ConfigOk(cfg) && h < |st.agents| && st.agents[h].kind == TrackingConsumer
    requires FirstFit(cfg, st.pool, TrackingConsumer, broker) == q
    ensures var r := Attach(cfg, st, h, broker);
            var c := if q < |st.pool| then st.pool[q] else NewClient(st.nextClientId, broker);
            |r.pool| == (if q < |st.pool| then |st.pool| else |st.pool| + 1) &&
            (forall j :: 0 <= j < |st.pool| && j != q ==> r.pool[j] == st.pool[j]) &&
            r.pool[q] == c.(trackers := c.trackers + {h}) &&
            r.agents[h].client == Some(c.id)
  {
  }

  /** A pool that gained a new tracking consumer at client Pos(|ts|) is still packed. */
  lemma TrackerAdded(cfg: Config, pool: seq<Client>, pool2: seq<Client>, broker: Broker,
                     ps: seq<nat>, ts: seq<nat>, h: nat)
    requires ConfigOk(cfg) && OnBroker(pool, broker)
    requires ProducerSlots(cfg.maxProducers, pool, ps) && TrackerSlots(cfg.maxTrackingConsumers, pool, ts)
    requires forall j, t :: 0 <= j < |pool| && t in pool[j].trackers ==> t != h
    requires |pool2| == if Pos(|ts|, cfg.maxTrackingConsumers) < |pool| then |pool| else |pool| + 1
    requires forall j :: 0 <= j < |pool| && j != Pos(|ts|, cfg.maxTrackingConsumers) ==> pool2[j] == pool[j]
    requires pool2[Pos(|ts|, cfg.maxTrackingConsumers)].broker == broker
    requires pool2[Pos(|ts|, cfg.maxTrackingConsumers)].trackers ==
               (if Pos(|ts|, cfg.maxTrackingConsumers) < |pool| then pool[Pos(|ts|, cfg.maxTrackingConsumers)].trackers else {})
               + {h}
    requires pool2[Pos(|ts|, cfg.maxTrackingConsumers)].producers ==
               if Pos(|ts|, cfg.maxTrackingConsumers) < |pool| then pool[Pos(|ts|, cfg.maxTrackingConsumers)].producers else map[]
    ensures OnBroker(pool2, broker)
    ensures ProducerSlots(cfg.maxProducers, pool2, ps) && TrackerSlots(cfg.maxTrackingConsumers, pool2, ts + [h])
  {
    assert forall y :: 0 <= y < |ts| ==> ts[y] != h;
    assert forall j :: 0 <= j < |pool| && j < |pool2| ==> pool2[j].producers == pool[j].producers;
    OnBrokerAt(pool, pool2, broker, Pos(|ts|, cfg.maxTrackingConsumers));
    TrackerSlotsAdd(cfg.maxTrackingConsumers, pool, pool2, ts, h);
    ProducerSlotsKeep(cfg.maxProducers, pool, pool2, ps);
  }

  /** Attaching a new tracking consumer of a packed broker: it goes to client Pos(|ts|). */
  lemma AttachTrackerPacked(cfg: Config, st: State, h: nat, broker: Broker, ps: seq<nat>, ts: seq<nat>)
    requires ConfigOk(cfg) && h < |st.agents| && st.agents[h].kind == TrackingConsumer
    requires forall j, t :: 0 <= j < |st.pool| && t in st.pool[j].trackers ==> t != h
    requires OnBroker(st.pool, broker)
    requires ProducerSlots(cfg.maxProducers, st.pool, ps) && TrackerSlots(cfg.maxTrackingConsumers, st.pool, ts)
    ensures var r := Attach(cfg, st, h, broker);
            OnBroker(r.pool, broker) &&
            ProducerSlots(cfg.maxProducers, r.pool, ps) && TrackerSlots(cfg.maxTrackingConsumers, r.pool, ts + [h]) &&
            Pos(|ts|, cfg.maxTrackingConsumers) < |r.pool| &&
            r.agents[h].client == Some(r.pool[Pos(|ts|, cfg.maxTrackingConsumers)].id)
  {
    var q := Pos(|ts|, cfg.maxTrackingConsumers);
    TrackerFirstFit(cfg, st.pool, broker, ts);
    AttachTrackerAt(cfg, st, h, broker, q);
    TrackerAdded(cfg, st.pool, Attach(cfg, st, h, broker).pool, broker, ps, ts, h);
  }

  /** Every tracking-consumer slot holds a registered agent. */
  lemma TrackersRegistered(cfg: Config, st: State)
    requires Inv(cfg, st)
    ensures forall j, t :: 0 <= j < |st.pool| && t in st.pool[j].trackers ==> t < |st.agents|
  {
    forall j, t | 0 <= j < |st.pool| && t in st.pool[j].trackers ensures t < |st.agents| {
      assert ClientInv(cfg, st, st.pool[j]);
    }
  }

  /**
   * Registering a producer on a packed broker whose stream the locator places there
   * succeeds with the next handle, bound once to client Pos(|ps|) under publisher id
   * Slot(|ps|), and the broker stays packed with the producer appended.
   */
  lemma RegisterProducerPacked(cfg: Config, st: State, broker: Broker, ps: seq<nat>, ts: seq<nat>,
                               stream: string, isOpen: bool)
    requires Packed(cfg, st, broker, ps, ts) && Leads(cfg, stream, broker)
    ensures var (res, r) := Register(cfg, st, Producer, stream, isOpen);
            var h := |st.agents|;
            res == Ok(h) && |r.agents| == h + 1 && r.agents[..h] == st.agents &&
            Packed(cfg, r, broker, ps + [h], ts) &&
            Pos(|ps|, cfg.maxProducers) < |r.pool| &&
            r.agents[h].publisherId == Slot(|ps|, cfg.maxProducers) &&
            r.agents[h].client == Some(r.pool[Pos(|ps|, cfg.maxProducers)].id) &&
            r.agents[h].calls == Calls(1, 0, 0, 0)
  {
    var (answer, st1) := Query(cfg, st, stream);
    assert answer == Some(StreamMetadata(ResponseOk, Some(broker)));
    var h := |st1.agents|;
    var st2 := st1.(agents := st1.agents + [NewAgent(Producer, stream, isOpen)]);
    AttachProducerPacked(cfg, st2, h, broker, ps, ts);
    RegisterInv(cfg, st, Producer, stream, isOpen);
    RegisterOutcome(cfg, st, Producer, stream, isOpen);
  }

  /**
   * Registering a tracking consumer on a packed broker whose stream the locator places
   * there succeeds with the next handle, bound once to client Pos(|ts|), and the broker
   * stays packed with the consumer appended.
   */
  lemma RegisterTrackerPacked(cfg: Config, st: State, broker: Broker, ps: seq<nat>, ts: seq<nat>,
                              stream: string, isOpen: bool)
    requires Packed(cfg, st, broker, ps, ts) && Leads(cfg, stream, broker)
    ensures var (res, r) := Register(cfg, st, TrackingConsumer, stream, isOpen);
            var h := |st.agents|;
            res == Ok(h) && |r.agents| == h + 1 && r.agents[..h] == st.agents &&
            Packed(cfg, r, broker, ps, ts + [h]) &&
            Pos(|ts|, cfg.maxTrackingConsumers) < |r.pool| &&
            r.agents[h].client == Some(r.pool[Pos(|ts|, cfg.maxTrackingConsumers)].id) &&
            r.agents[h].calls == Calls(1, 0, 0, 0)
  {
    var (answer, st1) := Query(cfg, st, stream);
    assert answer == Some(StreamMetadata(ResponseOk, Some(broker)));
    var h := |st1.agents|;
    var st2 := st1.(agents := st1.agents + [NewAgent(TrackingConsumer, stream, isOpen)]);
    TrackersRegistered(cfg, st);
    AttachTrackerPacked(cfg, st2, h, broker, ps, ts);
    RegisterInv(cfg, st, TrackingConsumer, stream, isOpen);
    RegisterOutcome(cfg, st, TrackingConsumer, stream, isOpen);
  }

  // ------------------------------------------------------------ cleanup

  /** The cleanup callback of an agent bound to client i, given the agent's kind. */
  lemma CleanupAt(st: State, h: nat, i: nat)
    requires DistinctIds(st.pool) && i < |st.pool| && h < |st.agents| && st.agents[h].client == Some(st.pool[i].id)
    ensures Cleanup(st, h) == st.(pool := Evict(st.pool, i, Slotless(st.pool[i], st.agents[h], h)),
                                  agents := st.agents[h := st.agents[h].(client := None)])
  {
    assert IndexOfClient(st.pool, st.pool[i].id) == i;
  }

  /**
   * A client left empty by freeing the last of n attachments of one kind (loads `own`,
   * capacity `cap`) is the pool's last client: a later client would hold none of that
   * kind, so it would hold some of the m attachments of the other kind (loads `other`,
   * capacity `cap2`), and then this client would be full of those.
   */
  lemma EmptiedIsLast(cap: nat, cap2: nat, own: seq<nat>, other: seq<nat>, n: nat, m: nat, q: nat)
    requires 0 < cap && 0 < cap2 && 0 < n && q == Pos(n - 1, cap) && q < |own| == |other|
    requires forall j :: 0 <= j < |own| ==> own[j] == Share(n, cap, j) && other[j] == Share(m, cap2, j)
    requires forall j :: 0 <= j < |own| ==> own[j] + other[j] > 0
    requires other[q] == 0
    ensures q == |own| - 1
  {
    if q + 1 < |own| {
      ShareNext(n - 1, cap, q + 1);
      ShareLoad(m, cap2, q + 1);
      ShareLoad(m, cap2, q);
    }
  }

  /** A client that is not empty holds at least one attachment. */
  lemma NotEmptyLoads(pool: seq<Client>)
    requires forall j :: 0 <= j < |pool| ==> !IsEmpty(pool[j])
    ensures forall j :: 0 <= j < |pool| ==> ProducerLoads(pool)[j] + TrackerLoads(pool)[j] > 0
  {
    forall j | 0 <= j < |pool| ensures |pool[j].producers| + |pool[j].trackers| > 0 {
      if pool[j].producers != map[] {
        var k :| k in pool[j].producers;
        assert k in pool[j].producers.Keys;
      } else {
        var t :| t in pool[j].trackers;
      }
    }
  }

  /** Putting back a client that lost an attachment, or closing it when empty and last. */
  lemma EvictLast(pool: seq<Client>, q: nat, c: Client)
    requires q < |pool| && (IsEmpty(c) ==> q == |pool| - 1)
    ensures var pool2 := Evict(pool, q, c);
            ((|pool2| == |pool| && pool2[q] == c) || (|pool2| + 1 == |pool| && q == |pool2| && IsEmpty(c))) &&
            (forall j :: 0 <= j < |pool2| && j != q ==> pool2[j] == pool[j])
  {
  }

  /**
   * Freeing the last producer's slot, Slot(|ps| - 1) of client q = Pos(|ps| - 1), of a
   * packed pool: the client stays with the slot freed, or, left empty, is closed.
   */
  lemma ProducerRemoved(cfg: Config, pool: seq<Client>, pool2: seq<Client>, broker: Broker,
                        ps: seq<nat>, ts: seq<nat>, q: nat, c2: Client)
    requires ConfigOk(cfg) && OnBroker(pool, broker) && |ps| > 0
    requires ProducerSlots(cfg.maxProducers, pool, ps) && TrackerSlots(cfg.maxTrackingConsumers, pool, ts)
    requires q == Pos(|ps| - 1, cfg.maxProducers) && q < |pool|
    requires c2 == pool[q].(producers := pool[q].producers - {Slot(|ps| - 1, cfg.maxProducers)})
    requires (|pool2| == |pool| && pool2[q] == c2) || (|pool2| + 1 == |pool| && q == |pool2| && IsEmpty(c2))
    requires forall j :: 0 <= j < |pool2| && j != q ==> pool2[j] == pool[j]
    ensures OnBroker(pool2, broker)
    ensures ProducerSlots(cfg.maxProducers, pool2, ps[..|ps| - 1]) && TrackerSlots(cfg.maxTrackingConsumers, pool2, ts)
  {
    ProducerSlotsRemove(cfg.maxProducers, pool, pool2, ps);
    TrackerSlotsKeep(cfg.maxTrackingConsumers, pool, pool2, ts);
  }

  /** Pooled clients are never empty. */
  lemma ClientsNotEmpty(cfg: Config, st: State)
    requires Inv(cfg, st)
    ensures forall j :: 0 <= j < |st.pool| ==> !IsEmpty(st.pool[j])
  {
    forall j | 0 <= j < |st.pool| ensures !IsEmpty(st.pool[j]) {
      assert ClientInv(cfg, st, st.pool[j]);
    }
  }

  /** Freeing the last producer's slot empties its client only when that client is last. */
  lemma ProducerEmptiedIsLast(cfg: Config, pool: seq<Client>, ps: seq<nat>, ts: seq<nat>)
    requires ConfigOk(cfg) && |ps| > 0
    requires ProducerSlots(cfg.maxProducers, pool, ps) && TrackerSlots(cfg.maxTrackingConsumers, pool, ts)
    requires forall j :: 0 <= j < |pool| ==> !IsEmpty(pool[j])
    ensures var q := Pos(|ps| - 1, cfg.maxProducers);
            q < |pool| &&
            (IsEmpty(pool[q].(producers := pool[q].producers - {Slot(|ps| - 1, cfg.maxProducers)})) ==> q == |pool| - 1)
  {
    var q := Pos(|ps| - 1, cfg.maxProducers);
    if IsEmpty(pool[q].(producers := pool[q].producers - {Slot(|ps| - 1, cfg.maxProducers)})) {
      NotEmptyLoads(pool);
      EmptiedIsLast(cfg.maxProducers, cfg.maxTrackingConsumers, ProducerLoads(pool), TrackerLoads(pool), |ps|, |ts|, q);
    }
  }

  /** Freeing the last tracking consumer's slot empties its client only when that client
      is last. */
  lemma TrackerEmptiedIsLast(cfg: Config, pool: seq<Client>, ps: seq<nat>, ts: seq<nat>)
    requires ConfigOk(cfg) && |ts| > 0
    requires ProducerSlots(cfg.maxProducers, pool, ps) && TrackerSlots(cfg.maxTrackingConsumers, pool, ts)
    requires forall j :: 0 <= j < |pool| ==> !IsEmpty(pool[j])
    ensures var q := Pos(|ts| - 1, cfg.maxTrackingConsumers);
            q < |pool| && (IsEmpty(pool[q].(trackers := pool[q].trackers - {ts[|ts| - 1]})) ==> q == |pool| - 1)
  {
    var q := Pos(|ts| - 1, cfg.maxTrackingConsumers);
    if IsEmpty(pool[q].(trackers := pool[q].trackers - {ts[|ts| - 1]})) {
      NotEmptyLoads(pool);
      EmptiedIsLast(cfg.maxTrackingConsumers, cfg.maxProducers, TrackerLoads(pool), ProducerLoads(pool), |ts|, |ps|, q);
    }
  }

  /**
   * The last producer of a packed broker holds slot Slot(|ps| - 1) of client
   * Pos(|ps| - 1); its cleanup frees that slot and closes the client only when it is
   * left empty, and then the client is the last one.
   */
  lemma LastProducerSlot(cfg: Config, st: State, broker: Broker, ps: seq<nat>, ts: seq<nat>)
    requires Packed(cfg, st, broker, ps, ts) && |ps| > 0
    ensures var q, s := Pos(|ps| - 1, cfg.maxProducers), Slot(|ps| - 1, cfg.maxProducers);
            var h := ps[|ps| - 1];
            var c2 := st.pool[q].(producers := st.pool[q].producers - {s});
            q < |st.pool| && h < |st.agents| &&
            (IsEmpty(c2) ==> q == |st.pool| - 1) &&
            Cleanup(st, h) == st.(pool := Evict(st.pool, q, c2), agents := st.agents[h := st.agents[h].(client := None)])
  {
    var n := |ps|;
    var q, s := Pos(n - 1, cfg.maxProducers), Slot(n - 1, cfg.maxProducers);
    var h := ps[n - 1];
    var c2 := st.pool[q].(producers := st.pool[q].producers - {s});
    assert s in st.pool[q].producers && st.pool[q].producers[s] == h;
    assert ClientInv(cfg, st, st.pool[q]);
    CleanupAt(st, h, q);
    ClientsNotEmpty(cfg, st);
    ProducerEmptiedIsLast(cfg, st.pool, ps, ts);
  }

  /** The same for the last tracking consumer, which holds a slot of client Pos(|ts| - 1). */
  lemma LastTrackerSlot(cfg: Config, st: State, broker: Broker, ps: seq<nat>, ts: seq<nat>)
    requires Packed(cfg, st, broker, ps, ts) && |ts| > 0
    ensures var q := Pos(|ts| - 1, cfg.maxTrackingConsumers);
            var h := ts[|ts| - 1];
            var c2 := st.pool[q].(trackers := st.pool[q].trackers - {h});
            q < |st.pool| && h < |st.agents| &&
            (IsEmpty(c2) ==> q == |st.pool| - 1) &&
            Cleanup(st, h) == st.(pool := Evict(st.pool, q, c2), agents := st.agents[h := st.agents[h].(client := None)])
  {
    var n := |ts|;
    var q := Pos(n - 1, cfg.maxTrackingConsumers);
    var h := ts[n - 1];
    var c2 := st.pool[q].(trackers := st.pool[q].trackers - {h});
    assert h in st.pool[q].trackers;
    assert ClientInv(cfg, st, st.pool[q]);
    CleanupAt(st, h, q);
    ClientsNotEmpty(cfg, st);
    TrackerEmptiedIsLast(cfg, st.pool, ps, ts);
  }

  /**
   * The cleanup callback of the last producer registered on a packed broker frees its
   * slot, closing its client when nothing is left in it, and the broker stays packed
   * with that producer gone.
   */
  lemma CleanupLastProducer(cfg: Config, st: State, broker: Broker, ps: seq<nat>, ts: seq<nat>)
    requires Packed(cfg, st, broker, ps, ts) && |ps| > 0
    ensures var r := Cleanup(st, ps[|ps| - 1]);
            Packed(cfg, r, broker, ps[..|ps| - 1], ts) && |r.agents| == |st.agents| &&
            (forall g :: 0 <= g < |st.agents| && g != ps[|ps| - 1] ==> r.agents[g] == st.agents[g])
  {
    var n := |ps|;
    var q, s := Pos(n - 1, cfg.maxProducers), Slot(n - 1, cfg.maxProducers);
    var h := ps[n - 1];
    var c2 := st.pool[q].(producers := st.pool[q].producers - {s});
    LastProducerSlot(cfg, st, broker, ps, ts);
    EvictLast(st.pool, q, c2);
    ProducerRemoved(cfg, st.pool, Cleanup(st, h).pool, broker, ps, ts, q, c2);
    CleanupInv(cfg, st, h);
  }

  /** Freeing the last tracking consumer's slot of a packed pool keeps it packed. */
  lemma TrackerRemoved(cfg: Config, pool: seq<Client>, pool2: seq<Client>, broker: Broker,
                       ps: seq<nat>, ts: seq<nat>, q: nat, c2: Client)
    requires ConfigOk(cfg) && OnBroker(pool, broker) && |ts| > 0
    requires ProducerSlots(cfg.maxProducers, pool, ps) && TrackerSlots(cfg.maxTrackingConsumers, pool, ts)
    requires q == Pos(|ts| - 1, cfg.maxTrackingConsumers) && q < |pool|
    requires c2 == pool[q].(trackers := pool[q].trackers - {ts[|ts| - 1]})
    requires (|pool2| == |pool| && pool2[q] == c2) || (|pool2| + 1 == |pool| && q == |pool2| && IsEmpty(c2))
    requires forall j :: 0 <= j < |pool2| && j != q ==> pool2[j] == pool[j]
    ensures OnBroker(pool2, broker)
    ensures ProducerSlots(cfg.maxProducers, pool2, ps) && TrackerSlots(cfg.maxTrackingConsumers, pool2, ts[..|ts| - 1])
  {
    TrackerSlotsRemove(cfg.maxTrackingConsumers, pool, pool2, ts);
    ProducerSlotsKeep(cfg.maxProducers, pool, pool2, ps);
  }

  /**
   * The cleanup callback of the last tracking consumer registered on a packed broker
   * frees its slot, closing its client when nothing is left in it, and the broker stays
   * packed with that consumer gone.
   */
  lemma CleanupLastTracker(cfg: Config, st: State, broker: Broker, ps: seq<nat>, ts: seq<nat>)
    requires Packed(cfg, st, broker, ps, ts) && |ts| > 0
    ensures var r := Cleanup(st, ts[|ts| - 1]);
            Packed(cfg, r, broker, ps, ts[..|ts| - 1]) && |r.agents| == |st.agents| &&
            (forall g :: 0 <= g < |st.agents| && g != ts[|ts| - 1] ==> r.agents[g] == st.agents[g])
  {
    var n := |ts|;
    var q := Pos(n - 1, cfg.maxTrackingConsumers);
    var h := ts[n - 1];
    var c2 := st.pool[q].(trackers := st.pool[q].trackers - {h});
    LastTrackerSlot(cfg, st, broker, ps, ts);
    EvictLast(st.pool, q, c2);
    TrackerRemoved(cfg, st.pool, Cleanup(st, h).pool, broker, ps, ts, q, c2);
    CleanupInv(cfg, st, h);
  }

  // ------------------------------------------------------------ replacing a producer

  /** Producer x of a packed broker is bound to client Pos(x) under publisher id Slot(x). */
  lemma PackedProducer(cfg: Config, st: State, broker: Broker, ps: seq<nat>, ts: seq<nat>, x: nat)
    requires Packed(cfg, st, broker, ps, ts) && x < |ps|
    ensures Pos(x, cfg.maxProducers) < |st.pool| && ps[x] < |st.agents|
    ensures st.agents[ps[x]].publisherId == Slot(x, cfg.maxProducers)
    ensures st.agents[ps[x]].client == Some(st.pool[Pos(x, cfg.maxProducers)].id)
  {
    var c := st.pool[Pos(x, cfg.maxProducers)];
    assert c.producers[Slot(x, cfg.maxProducers)] == ps[x];
    assert ClientInv(cfg, st, c);
  }

  /**
   * The cleanup callback of producer x of a packed broker, when its client keeps another
   * attachment: it frees publisher id Slot(x) of client Pos(x) and nothing else.
   */
  lemma FreedProducerSlot(cfg: Config, st: State, broker: Broker, ps: seq<nat>, ts: seq<nat>, x: nat)
    requires Packed(cfg, st, broker, ps, ts) && x < |ps|
    requires 1 < Share(|ps|, cfg.maxProducers, Pos(x, cfg.maxProducers)) +
                 Share(|ts|, cfg.maxTrackingConsumers, Pos(x, cfg.maxProducers))
    ensures var q, s := Pos(x, cfg.maxProducers), Slot(x, cfg.maxProducers);
            q < |st.pool| && ps[x] < |st.agents| && s in st.pool[q].producers &&
            st.agents[ps[x]].publisherId == s && st.agents[ps[x]].client == Some(st.pool[q].id) &&
            Cleanup(st, ps[x]) ==
              st.(pool := st.pool[q := st.pool[q].(producers := st.pool[q].producers - {s})],
                  agents := st.agents[ps[x] := st.agents[ps[x]].(client := None)])
  {
    var q, s := Pos(x, cfg.maxProducers), Slot(x, cfg.maxProducers);
    var h := ps[x];
    var c := st.pool[q];
    PackedProducer(cfg, st, broker, ps, ts, x);
    CleanupAt(st, h, q);
    MapRemoveSize(c.producers, s);
    assert |(c.producers - {s})| + |c.trackers| > 0;
    assert !IsEmpty(c.(producers := c.producers - {s})) by {
      if c.trackers == {} {
        assert |c.producers - {s}| > 0;
      }
    }
  }

  /** After freeing producer x's slot, client Pos(x) is first fit again, at that id. */
  lemma FreedSlotFirstFit(cfg: Config, pool: seq<Client>, broker: Broker, ps: seq<nat>, x: nat)
    requires ConfigOk(cfg) && OnBroker(pool, broker) && ProducerSlots(cfg.maxProducers, pool, ps) && x < |ps|
    ensures var q, s := Pos(x, cfg.maxProducers), Slot(x, cfg.maxProducers);
            var pool1 := pool[q := pool[q].(producers := pool[q].producers - {s})];
            q < |pool| && s in pool[q].producers &&
            FirstFit(cfg, pool1, Producer, broker) == q &&
            |pool1[q].producers| < cfg.maxProducers &&
            LowestFreeId(pool1[q].producers, cfg.maxProducers) == s
  {
    var cap, n := cfg.maxProducers, |ps|;
    var q, s := Pos(x, cap), Slot(x, cap);
    var pool1 := pool[q := pool[q].(producers := pool[q].producers - {s})];
    ShareAt(x, n, cap);
    forall j | 0 <= j < q ensures !Fits(cfg, pool1[j], Producer, broker) {
      assert |pool[j].producers| == Share(n, cap, j);
    }
    assert s in pool[q].producers;
    FreedId(cfg, pool[q].producers, s);
    FirstFitIs(cfg, pool1, Producer, broker, q);
    LowestFreeIdIs(pool1[q].producers, cap, s);
  }

  /**
   * Replacing producer x of a packed broker: its cleanup callback runs, its client keeping
   * another attachment, then a new producer is registered on the broker. The new one is
   * bound once to the same client under the same publisher id, the client count does not
   * change, and the broker stays packed with the new handle in place of the old one.
   */
  lemma ReplaceProducer(cfg: Config, st: State, broker: Broker, ps: seq<nat>, ts: seq<nat>, x: nat,
                        stream: string, isOpen: bool)
    requires Packed(cfg, st, broker, ps, ts) && Leads(cfg, stream, broker) && x < |ps|
    requires 1 < Share(|ps|, cfg.maxProducers, Pos(x, cfg.maxProducers)) +
                 Share(|ts|, cfg.maxTrackingConsumers, Pos(x, cfg.maxProducers))
    ensures var (res, r) := Register(cfg, Cleanup(st, ps[x]), Producer, stream, isOpen);
            var h := |st.agents|;
            res == Ok(h) && |r.agents| == h + 1 && Packed(cfg, r, broker, ps[x := h], ts) &&
            ps[x] < |st.agents| &&
            r.agents[h].publisherId == st.agents[ps[x]].publisherId &&
            r.agents[h].publisherId == Slot(x, cfg.maxProducers) &&
            r.agents[h].client == st.agents[ps[x]].client &&
            r.agents[h].calls == Calls(1, 0, 0, 0) &&
            ClientCount(r) == ClientCount(st)
  {
    var q, s := Pos(x, cfg.maxProducers), Slot(x, cfg.maxProducers);
    FreedProducerSlot(cfg, st, broker, ps, ts, x);
    FreedSlotFirstFit(cfg, st.pool, broker, ps, x);
    CleanupInv(cfg, st, ps[x]);
    var st1 := Cleanup(st, ps[x]);
    RegisterIntoFreed(cfg, st1, broker, q, s, stream, isOpen);
    var r := Register(cfg, st1, Producer, stream, isOpen).1;
    ProducerSwapped(cfg, st.pool, st1.pool, r.pool, broker, ps, ts, x, |st.agents|);
    FoldPacked(cfg, r, broker, ps[x := |st.agents|], ts);
  }

  /**
   * Registering a producer whose stream the locator places on the broker, when client q is
   * its first fit with free publisher id s lowest: the producer is bound once to client q
   * under id s, and no other client changes.
   */
  lemma RegisterIntoFreed(cfg: Config, st: State, broker: Broker, q: nat, s: PublisherId,
                          stream: string, isOpen: bool)
    requires Inv(cfg, st) && Leads(cfg, stream, broker) && q < |st.pool|
    requires FirstFit(cfg, st.pool, Producer, broker) == q
    requires |st.pool[q].producers| < cfg.maxProducers && LowestFreeId(st.pool[q].producers, cfg.maxProducers) == s
    ensures var (res, r) := Register(cfg, st, Producer, stream, isOpen);
            var h := |st.agents|;
            res == Ok(h) && |r.agents| == h + 1 && Inv(cfg, r) &&
            |r.pool| == |st.pool| && (forall j :: 0 <= j < |st.pool| && j != q ==> r.pool[j] == st.pool[j]) &&
            r.pool[q] == st.pool[q].(producers := st.pool[q].producers[s := h]) &&
            r.agents[h].publisherId == s && r.agents[h].client == Some(st.pool[q].id) &&
            r.agents[h].calls == Calls(1, 0, 0, 0)
  {
    var (answer, st2) := Query(cfg, st, stream);
    assert answer == Some(StreamMetadata(ResponseOk, Some(broker)));
    var h := |st2.agents|;
    var st3 := st2.(agents := st2.agents + [NewAgent(Producer, stream, isOpen)]);
    AttachProducerAt(cfg, st3, h, broker, q, s);
    RegisterInv(cfg, st, Producer, stream, isOpen);
    RegisterOutcome(cfg, st, Producer, stream, isOpen);
  }

  /**
   * A pool where producer x's slot is freed (pool1), then taken by h (pool2), is still
   * packed, with h in place of producer x.
   */
  lemma ProducerSwapped(cfg: Config, pool: seq<Client>, pool1: seq<Client>, pool2: seq<Client>, broker: Broker,
                        ps: seq<nat>, ts: seq<nat>, x: nat, h: nat)
    requires ConfigOk(cfg) && OnBroker(pool, broker) && x < |ps|
    requires ProducerSlots(cfg.maxProducers, pool, ps) && TrackerSlots(cfg.maxTrackingConsumers, pool, ts)
    requires var q, s := Pos(x, cfg.maxProducers), Slot(x, cfg.maxProducers);
             q < |pool| && pool1 == pool[q := pool[q].(producers := pool[q].producers - {s})] &&
             |pool2| == |pool1| && (forall j :: 0 <= j < |pool1| && j != q ==> pool2[j] == pool1[j]) &&
             pool2[q] == pool1[q].(producers := pool1[q].producers[s := h])
    ensures OnBroker(pool2, broker)
    ensures ProducerSlots(cfg.maxProducers, pool2, ps[x := h]) && TrackerSlots(cfg.maxTrackingConsumers, pool2, ts)
  {
    var q, s := Pos(x, cfg.maxProducers), Slot(x, cfg.maxProducers);
    assert (pool[q].producers - {s})[s := h] == pool[q].producers[s := h];
    ProducerSlotsSwap(cfg.maxProducers, pool, pool2, ps, x, h);
    TrackerSlotsKeep(cfg.maxTrackingConsumers, pool, pool2, ts);
  }

  // ------------------------------------------------------------ many at a time

  /** k agents of one kind registered in turn on a stream, none of them open yet. */
  function RegisterMany(cfg: Config, st: State, kind: Kind, stream: string, k: nat): State
    requires ConfigOk(cfg)
  {
    if k == 0 then st else Register(cfg, RegisterMany(cfg, st, kind, stream, k - 1), kind, stream, false).1
  }

  /** Induction on a count: a property of 0 that every step up to n carries over holds up to n. */
  lemma {:induction false} CountInduction(p: nat -> bool, n: nat, k: nat)
    requires k <= n && p(0)
    requires forall j: nat :: 0 < j <= n && p(j - 1) ==> p(j)
    ensures p(k)
  {
    if k > 0 {
      CountInduction(p, n, k - 1);
    }
  }

  /** The k consecutive handles from a. */
  function Handles(a: nat, k: nat): seq<nat> {
    seq(k, i requires 0 <= i < k => a + i)
  }

  /** The cleanup callbacks of the k newest handles of hs, run newest first. */
  function CleanupNewest(st: State, hs: seq<nat>, k: nat): State
    requires k <= |hs|
  {
    if k == 0 then st else Cleanup(CleanupNewest(st, hs, k - 1), hs[|hs| - k])
  }

  /** A sequence holding a, a + 1, ..., a + k - 1 is the k handles from a. */
  lemma HandlesFrom(ps: seq<nat>, a: nat, k: nat)
    requires |ps| == k && forall i :: 0 <= i < k ==> ps[i] == a + i
    ensures ps == Handles(a, k)
  {
  }

  /** No handle from a. */
  lemma HandlesNone(hs: seq<nat>, a: nat)
    ensures hs + Handles(a, 0) == hs
  {
    assert Handles(a, 0) == [];
  }

  /** The handles from a, one more of them. */
  lemma HandlesNext(hs: seq<nat>, a: nat, k: nat)
    requires k > 0
    ensures hs + Handles(a, k) == (hs + Handles(a, k - 1)) + [a + k - 1]
  {
    assert Handles(a, k) == Handles(a, k - 1) + [a + k - 1];
  }

  /** Registering the k-th of k producers keeps the broker packed. */
  lemma ProducerAppended(cfg: Config, st: State, broker: Broker, ps: seq<nat>, ts: seq<nat>,
                             stream: string, k: nat, a: nat)
    requires k > 0 && a + k - 1 == |st.agents|
    requires Packed(cfg, st, broker, ps + Handles(a, k - 1), ts) && Leads(cfg, stream, broker)
    ensures var r := Register(cfg, st, Producer, stream, false).1;
            |r.agents| == a + k && Packed(cfg, r, broker, ps + Handles(a, k), ts)
  {
    RegisterProducerPacked(cfg, st, broker, ps + Handles(a, k - 1), ts, stream, false);
    HandlesNext(ps, a, k);
  }

  /** After k producers are registered in turn, the broker is packed with their handles appended. */
  ghost predicate ProducersPackedAfter(cfg: Config, st: State, broker: Broker, ps: seq<nat>, ts: seq<nat>,
                                    stream: string, k: nat)
    requires ConfigOk(cfg)
  {
    var r := RegisterMany(cfg, st, Producer, stream, k);
    |r.agents| == |st.agents| + k && Packed(cfg, r, broker, ps + Handles(|st.agents|, k), ts)
  }

  /** Registering one more producer keeps the broker packed. */
  lemma RegisterProducerStep(cfg: Config, st: State, broker: Broker, ps: seq<nat>, ts: seq<nat>,
                             stream: string, k: nat)
    requires ConfigOk(cfg) && Leads(cfg, stream, broker) && k > 0
    ensures ProducersPackedAfter(cfg, st, broker, ps, ts, stream, k - 1) ==> ProducersPackedAfter(cfg, st, broker, ps, ts, stream, k)
  {
    if ProducersPackedAfter(cfg, st, broker, ps, ts, stream, k - 1) {
      ProducerAppended(cfg, RegisterMany(cfg, st, Producer, stream, k - 1), broker, ps, ts, stream, k, |st.agents|);
    }
  }

  /**
   * Registering k producers in turn on a packed broker whose stream the locator places
   * there hands out the next k handles, and the broker stays packed with them appended.
   */
  lemma RegisterProducersPacked(cfg: Config, st: State, broker: Broker, ps: seq<nat>,
                                ts: seq<nat>, stream: string, k: nat)
    requires Packed(cfg, st, broker, ps, ts) && Leads(cfg, stream, broker)
    ensures |RegisterMany(cfg, st, Producer, stream, k).agents| == |st.agents| + k
    ensures Packed(cfg, RegisterMany(cfg, st, Producer, stream, k), broker, ps + Handles(|st.agents|, k), ts)
  {
    HandlesNone(ps, |st.agents|);
    forall j: nat | 0 < j <= k
      ensures ProducersPackedAfter(cfg, st, broker, ps, ts, stream, j - 1) ==> ProducersPackedAfter(cfg, st, broker, ps, ts, stream, j)
    {
      RegisterProducerStep(cfg, st, broker, ps, ts, stream, j);
    }
    CountInduction((j: nat) => ConfigOk(cfg) && ProducersPackedAfter(cfg, st, broker, ps, ts, stream, j), k, k);
  }

  /** Registering the k-th of k tracking consumers keeps the broker packed. */
  lemma TrackerAppended(cfg: Config, st: State, broker: Broker, ps: seq<nat>, ts: seq<nat>,
                             stream: string, k: nat, a: nat)
    requires k > 0 && a + k - 1 == |st.agents|
    requires Packed(cfg, st, broker, ps, ts + Handles(a, k - 1)) && Leads(cfg, stream, broker)
    ensures var r := Register(cfg, st, TrackingConsumer, stream, false).1;
            |r.agents| == a + k && Packed(cfg, r, broker, ps, ts + Handles(a, k))
  {
    RegisterTrackerPacked(cfg, st, broker, ps, ts + Handles(a, k - 1), stream, false);
    HandlesNext(ts, a, k);
  }

  /** After k tracking consumers are registered in turn, the broker is packed with their handles appended. */
  ghost predicate TrackersPackedAfter(cfg: Config, st: State, broker: Broker, ps: seq<nat>, ts: seq<nat>,
                                    stream: string, k: nat)
    requires ConfigOk(cfg)
  {
    var r := RegisterMany(cfg, st, TrackingConsumer, stream, k);
    |r.agents| == |st.agents| + k && Packed(cfg, r, broker, ps, ts + Handles(|st.agents|, k))
  }

  /** Registering one more tracking consumer keeps the broker packed. */
  lemma RegisterTrackerStep(cfg: Config, st: State, broker: Broker, ps: seq<nat>, ts: seq<nat>,
                             stream: string, k: nat)
    requires ConfigOk(cfg) && Leads(cfg, stream, broker) && k > 0
    ensures TrackersPackedAfter(cfg, st, broker, ps, ts, stream, k - 1) ==> TrackersPackedAfter(cfg, st, broker, ps, ts, stream, k)
  {
    if TrackersPackedAfter(cfg, st, broker, ps, ts, stream, k - 1) {
      TrackerAppended(cfg, RegisterMany(cfg, st, TrackingConsumer, stream, k - 1), broker, ps, ts, stream, k, |st.agents|);
    }
  }

  /**
   * Registering k tracking consumers in turn on a packed broker whose stream the locator
   * places there hands out the next k handles, and the broker stays packed with them
   * appended.
   */
  lemma RegisterTrackersPacked(cfg: Config, st: State, broker: Broker, ps: seq<nat>,
                                ts: seq<nat>, stream: string, k: nat)
    requires Packed(cfg, st, broker, ps, ts) && Leads(cfg, stream, broker)
    ensures |RegisterMany(cfg, st, TrackingConsumer, stream, k).agents| == |st.agents| + k
    ensures Packed(cfg, RegisterMany(cfg, st, TrackingConsumer, stream, k), broker, ps, ts + Handles(|st.agents|, k))
  {
    HandlesNone(ts, |st.agents|);
    forall j: nat | 0 < j <= k
      ensures TrackersPackedAfter(cfg, st, broker, ps, ts, stream, j - 1) ==> TrackersPackedAfter(cfg, st, broker, ps, ts, stream, j)
    {
      RegisterTrackerStep(cfg, st, broker, ps, ts, stream, j);
    }
    CountInduction((j: nat) => ConfigOk(cfg) && TrackersPackedAfter(cfg, st, broker, ps, ts, stream, j), k, k);
  }

  /** All of a sequence is itself. */
  lemma TakeAll(hs: seq<nat>)
    ensures hs[..|hs|] == hs
  {
  }

  /** Cleanup callbacks never change the number of handles. */
  lemma {:induction false} CleanupNewestLength(st: State, hs: seq<nat>, k: nat)
    requires k <= |hs|
    ensures |CleanupNewest(st, hs, k).agents| == |st.agents|
  {
    if k > 0 {
      CleanupNewestLength(st, hs, k - 1);
    }
  }

  /** After the k newest producers are cleaned up, the broker is packed without them. */
  ghost predicate ProducersCleaned(cfg: Config, st: State, broker: Broker, ps: seq<nat>, ts: seq<nat>, k: nat)
    requires k <= |ps|
  {
    Packed(cfg, CleanupNewest(st, ps, k), broker, ps[..|ps| - k], ts)
  }

  /** A broker packed with the producers up to the k-th newest is packed without it once it is cleaned up. */
  lemma ProducerDropped(cfg: Config, st1: State, broker: Broker, ps: seq<nat>, ts: seq<nat>, k: nat, rest: seq<nat>)
    requires 0 < k <= |ps| && rest == ps[..|ps| - (k - 1)] && Packed(cfg, st1, broker, rest, ts)
    ensures Packed(cfg, Cleanup(st1, ps[|ps| - k]), broker, ps[..|ps| - k], ts)
  {
    assert rest[|rest| - 1] == ps[|ps| - k];
    CleanupLastProducer(cfg, st1, broker, rest, ts);
    assert rest[..|rest| - 1] == ps[..|ps| - k];
    PackedSame(cfg, Cleanup(st1, rest[|rest| - 1]), broker, rest[..|rest| - 1], ts, ps[..|ps| - k], ts);
  }

  /** Cleaning up the k-th newest producer after the k - 1 newer ones keeps the broker packed. */
  lemma CleanupProducerStep(cfg: Config, st: State, broker: Broker, ps: seq<nat>, ts: seq<nat>, k: nat)
    requires 0 < k <= |ps|
    ensures ProducersCleaned(cfg, st, broker, ps, ts, k - 1) ==> ProducersCleaned(cfg, st, broker, ps, ts, k)
  {
    if ProducersCleaned(cfg, st, broker, ps, ts, k - 1) {
      ProducerDropped(cfg, CleanupNewest(st, ps, k - 1), broker, ps, ts, k, ps[..|ps| - (k - 1)]);
    }
  }

  /**
   * Running the cleanup callbacks of the k newest producers of a packed broker, newest
   * first, keeps it packed with those producers gone and the handle count unchanged.
   */
  lemma CleanupNewestProducers(cfg: Config, st: State, broker: Broker, ps: seq<nat>, ts: seq<nat>, k: nat)
    requires Packed(cfg, st, broker, ps, ts) && k <= |ps|
    ensures var r := CleanupNewest(st, ps, k);
            |r.agents| == |st.agents| && Packed(cfg, r, broker, ps[..|ps| - k], ts)
  {
    CleanupNewestLength(st, ps, k);
    TakeAll(ps);
    forall j: nat | 0 < j <= k
      ensures ProducersCleaned(cfg, st, broker, ps, ts, j - 1) ==> ProducersCleaned(cfg, st, broker, ps, ts, j)
    {
      CleanupProducerStep(cfg, st, broker, ps, ts, j);
    }
    CountInduction((j: nat) => j <= |ps| && ProducersCleaned(cfg, st, broker, ps, ts, j), k, k);
  }

  /** After the k newest tracking consumers are cleaned up, the broker is packed without them. */
  ghost predicate TrackersCleaned(cfg: Config, st: State, broker: Broker, ps: seq<nat>, ts: seq<nat>, k: nat)
    requires k <= |ts|
  {
    Packed(cfg, CleanupNewest(st, ts, k), broker, ps, ts[..|ts| - k])
  }

  /** A broker packed with the tracking consumers up to the k-th newest is packed without it once it is cleaned up. */
  lemma TrackerDropped(cfg: Config, st1: State, broker: Broker, ps: seq<nat>, ts: seq<nat>, k: nat, rest: seq<nat>)
    requires 0 < k <= |ts| && rest == ts[..|ts| - (k - 1)] && Packed(cfg, st1, broker, ps, rest)
    ensures Packed(cfg, Cleanup(st1, ts[|ts| - k]), broker, ps, ts[..|ts| - k])
  {
    assert rest[|rest| - 1] == ts[|ts| - k];
    CleanupLastTracker(cfg, st1, broker, ps, rest);
    assert rest[..|rest| - 1] == ts[..|ts| - k];
  }

  /** Cleaning up the k-th newest tracking consumer after the k - 1 newer ones keeps the broker packed. */
  lemma CleanupTrackerStep(cfg: Config, st: State, broker: Broker, ps: seq<nat>, ts: seq<nat>, k: nat)
    requires 0 < k <= |ts|
    ensures TrackersCleaned(cfg, st, broker, ps, ts, k - 1) ==> TrackersCleaned(cfg, st, broker, ps, ts, k)
  {
    if TrackersCleaned(cfg, st, broker, ps, ts, k - 1) {
      TrackerDropped(cfg, CleanupNewest(st, ts, k - 1), broker, ps, ts, k, ts[..|ts| - (k - 1)]);
    }
  }

  /**
   * Running the cleanup callbacks of the k newest tracking consumers of a packed broker,
   * newest first, keeps it packed with those consumers gone and the handle count
   * unchanged.
   */
  lemma CleanupNewestTrackers(cfg: Config, st: State, broker: Broker, ps: seq<nat>, ts: seq<nat>, k: nat)
    requires Packed(cfg, st, broker, ps, ts) && k <= |ts|
    ensures var r := CleanupNewest(st, ts, k);
            |r.agents| == |st.agents| && Packed(cfg, r, broker, ps, ts[..|ts| - k])
  {
    CleanupNewestLength(st, ts, k);
    TakeAll(ts);
    forall j: nat | 0 < j <= k
      ensures TrackersCleaned(cfg, st, broker, ps, ts, j - 1) ==> TrackersCleaned(cfg, st, broker, ps, ts, j)
    {
      CleanupTrackerStep(cfg, st, broker, ps, ts, j);
    }
    CountInduction((j: nat) => j <= |ts| && TrackersCleaned(cfg, st, broker, ps, ts, j), k, k);
  }

  /** A ceiling quotient is zero exactly when the dividend is. */
  lemma CeilZero(n: nat, cap: nat)
    requires cap > 0
    ensures (n + cap - 1) / cap == 0 <==> n == 0
  {
    if n > 0 {
      assert n + cap - 1 >= cap;
    }
  }

  /** The counters of a broker packed with n producers and no tracking consumer. */
  lemma ProducersOnlyCounts(cfg: Config, st: State, broker: Broker, ps: seq<nat>, n: nat)
    requires |ps| == n && Packed(cfg, st, broker, ps, [])
    ensures ClientCount(st) == (n + cfg.maxProducers - 1) / cfg.maxProducers
    ensures NodesConnected(st) == if n == 0 then 0 else 1
  {
    PackedCounts(cfg, st, broker, ps, []);
    NeededIsCeil(n, cfg.maxProducers);
    NeededIsCeil(0, cfg.maxTrackingConsumers);
    CeilZero(n, cfg.maxProducers);
  }

  /** The counters of a broker packed with n tracking consumers and no producer. */
  lemma TrackersOnlyCounts(cfg: Config, st: State, broker: Broker, ts: seq<nat>, n: nat)
    requires |ts| == n && Packed(cfg, st, broker, [], ts)
    ensures ClientCount(st) == (n + cfg.maxTrackingConsumers - 1) / cfg.maxTrackingConsumers
    ensures NodesConnected(st) == if n == 0 then 0 else 1
  {
    PackedCounts(cfg, st, broker, [], ts);
    NeededIsCeil(n, cfg.maxTrackingConsumers);
    NeededIsCeil(0, cfg.maxProducers);
    CeilZero(n, cfg.maxTrackingConsumers);
  }

  /**
   * From an empty coordinator, registering n producers whose stream the locator places
   * on one broker opens ceil(n / maxProducers) clients, all connected to that one node.
   */
  lemma FillFromEmpty(cfg: Config, broker: Broker, stream: string, n: nat)
    requires ConfigOk(cfg) && Leads(cfg, stream, broker)
    ensures var r := RegisterMany(cfg, Init(), Producer, stream, n);
            |r.agents| == n &&
            ClientCount(r) == (n + cfg.maxProducers - 1) / cfg.maxProducers &&
            NodesConnected(r) == if n == 0 then 0 else 1
  {
    InitPacked(cfg, broker);
    RegisterProducersPacked(cfg, Init(), broker, [], [], stream, n);
    ProducersOnlyCounts(cfg, RegisterMany(cfg, Init(), Producer, stream, n), broker, [] + Handles(0, n), n);
  }

  /**
   * From an empty coordinator, registering n tracking consumers whose stream the locator
   * places on one broker opens ceil(n / maxTrackingConsumers) clients, all connected to
   * that one node.
   */
  lemma FillTrackersFromEmpty(cfg: Config, broker: Broker, stream: string, n: nat)
    requires ConfigOk(cfg) && Leads(cfg, stream, broker)
    ensures var r := RegisterMany(cfg, Init(), TrackingConsumer, stream, n);
            |r.agents| == n &&
            ClientCount(r) == (n + cfg.maxTrackingConsumers - 1) / cfg.maxTrackingConsumers &&
            NodesConnected(r) == if n == 0 then 0 else 1
  {
    InitPacked(cfg, broker);
    RegisterTrackersPacked(cfg, Init(), broker, [], [], stream, n);
    TrackersOnlyCounts(cfg, RegisterMany(cfg, Init(), TrackingConsumer, stream, n), broker, [] + Handles(0, n), n);
  }

  // ------------------------------------------------------------ growing and shrinking

  /** Nothing before a sequence. */
  lemma EmptyPlus(hs: seq<nat>)
    ensures [] + hs == hs
  {
  }

  /**
   * From an empty packed broker, maxProducers + maxProducers / 5 producers register: they
   * take two clients on one node, and producer 10 gets publisher id 10.
   */
  lemma ProducersPhase(cfg: Config, st: State, broker: Broker, stream: string, n: nat, s1: State)
    requires Packed(cfg, st, broker, [], []) && |st.agents| == 0 && Leads(cfg, stream, broker)
    requires cfg.maxProducers >= 30 && n == cfg.maxProducers + cfg.maxProducers / 5
    requires s1 == RegisterMany(cfg, st, Producer, stream, n)
    ensures |s1.agents| == n && Packed(cfg, s1, broker, Handles(0, n), [])
    ensures NodesConnected(s1) == 1 && ClientCount(s1) == 2 && s1.agents[10].publisherId == 10
  {
    var ps: seq<nat> := Handles(0, n);
    RegisterProducersPacked(cfg, st, broker, [], [], stream, n);
    EmptyPlus(ps);
    PackedSame(cfg, s1, broker, [] + Handles(0, n), [], ps, []);
    NeededOf(|ps|, 1, cfg.maxProducers / 5, cfg.maxProducers);
    NeededOf(0, 0, 0, cfg.maxTrackingConsumers);
    PackedCounts(cfg, s1, broker, ps, []);
    PackedProducer(cfg, s1, broker, ps, [], 10);
  }

  /**
   * Then 2 * maxTrackingConsumers + maxTrackingConsumers / 5 tracking consumers register:
   * they need a third client, still on one node.
   */
  lemma TrackersPhase(cfg: Config, st: State, broker: Broker, stream: string, ps: seq<nat>, m: nat, s2: State)
    requires Packed(cfg, st, broker, ps, []) && Leads(cfg, stream, broker)
    requires cfg.maxProducers >= 5 && |ps| == cfg.maxProducers + cfg.maxProducers / 5
    requires cfg.maxTrackingConsumers >= 5 && m == 2 * cfg.maxTrackingConsumers + cfg.maxTrackingConsumers / 5
    requires s2 == RegisterMany(cfg, st, TrackingConsumer, stream, m)
    ensures |s2.agents| == |st.agents| + m && Packed(cfg, s2, broker, ps, Handles(|st.agents|, m))
    ensures NodesConnected(s2) == 1 && ClientCount(s2) == 3
  {
    var ts: seq<nat> := Handles(|st.agents|, m);
    RegisterTrackersPacked(cfg, st, broker, ps, [], stream, m);
    EmptyPlus(ts);
    PackedSame(cfg, s2, broker, ps, [] + ts, ps, ts);
    NeededOf(|ps|, 1, cfg.maxProducers / 5, cfg.maxProducers);
    NeededOf(|ts|, 2, cfg.maxTrackingConsumers / 5, cfg.maxTrackingConsumers);
    PackedCounts(cfg, s2, broker, ps, ts);
  }

  /** Cleaning up the maxTrackingConsumers / 5 newest tracking consumers frees the third client. */
  lemma FreeThirdPhase(cfg: Config, st: State, broker: Broker, ps: seq<nat>, ts: seq<nat>, k: nat, s3: State)
    requires Packed(cfg, st, broker, ps, ts) && cfg.maxTrackingConsumers >= 5 && cfg.maxProducers >= 5
    requires |ps| == cfg.maxProducers + cfg.maxProducers / 5
    requires k == cfg.maxTrackingConsumers / 5 && |ts| == 2 * cfg.maxTrackingConsumers + k
    requires s3 == CleanupNewest(st, ts, k)
    ensures |s3.agents| == |st.agents| && Packed(cfg, s3, broker, ps, ts[..2 * cfg.maxTrackingConsumers])
    ensures ClientCount(s3) == 2
  {
    var ts3: seq<nat> := ts[..2 * cfg.maxTrackingConsumers];
    CleanupNewestTrackers(cfg, st, broker, ps, ts, k);
    PackedSame(cfg, s3, broker, ps, ts[..|ts| - k], ps, ts3);
    NeededOf(|ps|, 1, cfg.maxProducers / 5, cfg.maxProducers);
    NeededOf(|ts3|, 2, 0, cfg.maxTrackingConsumers);
    PackedCounts(cfg, s3, broker, ps, ts3);
  }

  /** Cleaning up the remaining tracking consumers, newest first, leaves the producers' two clients. */
  lemma FreeTrackersPhase(cfg: Config, st: State, broker: Broker, ps: seq<nat>, ts: seq<nat>, k: nat, s4: State)
    requires Packed(cfg, st, broker, ps, ts) && cfg.maxProducers >= 5
    requires |ps| == cfg.maxProducers + cfg.maxProducers / 5
    requires k == |ts| && s4 == CleanupNewest(st, ts, k)
    ensures |s4.agents| == |st.agents| && Packed(cfg, s4, broker, ps, [])
    ensures ClientCount(s4) == 2
  {
    CleanupNewestTrackers(cfg, st, broker, ps, ts, k);
    PackedSame(cfg, s4, broker, ps, ts[..|ts| - k], ps, []);
    NeededOf(|ps|, 1, cfg.maxProducers / 5, cfg.maxProducers);
    NeededOf(0, 0, 0, cfg.maxTrackingConsumers);
    PackedCounts(cfg, s4, broker, ps, []);
  }

  /**
   * With the producers alone on the broker, producer 10 is replaced: the new producer
   * reuses publisher id 10 and the client count stays two. Cleaning up the
   * maxProducers / 5 + 19 newest producers then leaves a single client on one node.
   */
  lemma ShrinkProducersPhase(cfg: Config, st: State, broker: Broker, ps: seq<nat>, stream: string, h: nat,
                             res: Result<nat, RegisterError>, s6: State, s7: State)
    requires Packed(cfg, st, broker, ps, []) && Leads(cfg, stream, broker) && cfg.maxProducers >= 30
    requires |ps| == cfg.maxProducers + cfg.maxProducers / 5 && h == |st.agents|
    requires (res, s6) == Register(cfg, Cleanup(st, ps[10]), Producer, stream, false)
    requires s7 == CleanupNewest(s6, ps[10 := h], cfg.maxProducers / 5 + 19)
    ensures res == Ok(h) && h < |s6.agents| && s6.agents[h].publisherId == 10
    ensures s6.agents[h].calls == Calls(1, 0, 0, 0)
    ensures NodesConnected(s6) == 1 && ClientCount(s6) == 2
    ensures NodesConnected(s7) == 1 && ClientCount(s7) == 1
  {
    var cp := cfg.maxProducers;
    var ps6: seq<nat> := ps[10 := h];
    NeededOf(|ps6|, 1, cp / 5, cp);
    NeededOf(0, 0, 0, cfg.maxTrackingConsumers);
    ReplaceProducer(cfg, st, broker, ps, [], 10, stream, false);
    PackedCounts(cfg, s6, broker, ps6, []);
    FreeProducersPhase(cfg, s6, broker, ps6, cp / 5 + 19, s7);
  }

  /**
   * Cleaning up the maxProducers / 5 + 19 newest producers of a broker that holds producers
   * alone leaves a single client on one node.
   */
  lemma FreeProducersPhase(cfg: Config, st: State, broker: Broker, ps: seq<nat>, k: nat, s7: State)
    requires Packed(cfg, st, broker, ps, []) && cfg.maxProducers >= 30
    requires |ps| == cfg.maxProducers + cfg.maxProducers / 5 && k == cfg.maxProducers / 5 + 19
    requires s7 == CleanupNewest(st, ps, k)
    ensures NodesConnected(s7) == 1 && ClientCount(s7) == 1
  {
    CleanupNewestProducers(cfg, st, broker, ps, [], k);
    var ps7: seq<nat> := ps[..|ps| - k];
    NeededOf(|ps7|, 0, cfg.maxProducers - 19, cfg.maxProducers);
    PackedCounts(cfg, s7, broker, ps7, []);
  }

  /** The first two phases from an empty coordinator: the pool grows to three clients. */
  lemma GrowToThree(cfg: Config, broker: Broker, stream: string, n: nat, m: nat, s1: State, s2: State)
    requires ConfigOk(cfg) && Leads(cfg, stream, broker)
    requires cfg.maxProducers >= 30 && cfg.maxTrackingConsumers >= 5
    requires n == cfg.maxProducers + cfg.maxProducers / 5
    requires m == 2 * cfg.maxTrackingConsumers + cfg.maxTrackingConsumers / 5
    requires s1 == RegisterMany(cfg, Init(), Producer, stream, n)
    requires s2 == RegisterMany(cfg, s1, TrackingConsumer, stream, m)
    ensures NodesConnected(s1) == 1 && ClientCount(s1) == 2 && |s1.agents| == n && s1.agents[10].publisherId == 10
    ensures NodesConnected(s2) == 1 && ClientCount(s2) == 3
    ensures |s2.agents| == n + m && Packed(cfg, s2, broker, Handles(0, n), Handles(n, m))
  {
    InitPacked(cfg, broker);
    ProducersPhase(cfg, Init(), broker, stream, n, s1);
    TrackersPhase(cfg, s1, broker, stream, Handles(0, n), m, s2);
  }

  /** Then the tracking consumers are cleaned up, newest first: back to two clients. */
  lemma ShrinkToTwo(cfg: Config, broker: Broker, stream: string, n: nat, m: nat, ps: seq<nat>,
                    s1: State, s2: State, s3: State, s4: State)
    requires ConfigOk(cfg) && Leads(cfg, stream, broker)
    requires |ps| == n && forall i :: 0 <= i < n ==> ps[i] == i
    requires cfg.maxProducers >= 30 && cfg.maxTrackingConsumers >= 5
    requires n == cfg.maxProducers + cfg.maxProducers / 5
    requires m == 2 * cfg.maxTrackingConsumers + cfg.maxTrackingConsumers / 5
    requires s1 == RegisterMany(cfg, Init(), Producer, stream, n)
    requires s2 == RegisterMany(cfg, s1, TrackingConsumer, stream, m)
    requires s3 == CleanupNewest(s2, Handles(n, m), cfg.maxTrackingConsumers / 5)
    requires s4 == CleanupNewest(s3, Handles(n, m)[..2 * cfg.maxTrackingConsumers], 2 * cfg.maxTrackingConsumers)
    ensures NodesConnected(s1) == 1 && ClientCount(s1) == 2 && |s1.agents| == n && s1.agents[10].publisherId == 10
    ensures NodesConnected(s2) == 1 && ClientCount(s2) == 3
    ensures ClientCount(s3) == 2 && ClientCount(s4) == 2
    ensures |s4.agents| == n + m && Packed(cfg, s4, broker, ps, [])
  {
    var ct := cfg.maxTrackingConsumers;
    var ts: seq<nat> := Handles(n, m);
    HandlesFrom(ps, 0, n);
    GrowToThree(cfg, broker, stream, n, m, s1, s2);
    FreeThirdPhase(cfg, s2, broker, ps, ts, ct / 5, s3);
    FreeTrackersPhase(cfg, s3, broker, ps, ts[..2 * ct], 2 * ct, s4);
  }

  /**
   * The pool grows and shrinks with the agents on one broker whose stream the locator
   * places there. maxProducers + maxProducers / 5 producers take two clients; adding
   * 2 * maxTrackingConsumers + maxTrackingConsumers / 5 tracking consumers takes a
   * third. Cleaning up the maxTrackingConsumers / 5 newest consumers frees it again, and
   * cleaning up the rest leaves two. Producer 10 is then replaced: the new producer is
   * bound once and reuses publisher id 10, with two clients left. Finally, cleaning up
   * the maxProducers / 5 + 19 newest producers leaves one client. One node is connected
   * throughout. ps holds the producers' handles 0 .. n - 1, and h is the replacing
   * producer's handle.
   */
  lemma GrowShrink(cfg: Config, broker: Broker, stream: string, n: nat, m: nat, h: nat, ps: seq<nat>,
                   s1: State, s2: State, s3: State, s4: State, res: Result<nat, RegisterError>, s6: State, s7: State)
    requires ConfigOk(cfg) && Leads(cfg, stream, broker)
    requires h == n + m && |ps| == n && forall i :: 0 <= i < n ==> ps[i] == i
    requires cfg.maxProducers >= 30 && cfg.maxTrackingConsumers >= 5
    requires n == cfg.maxProducers + cfg.maxProducers / 5
    requires m == 2 * cfg.maxTrackingConsumers + cfg.maxTrackingConsumers / 5
    requires s1 == RegisterMany(cfg, Init(), Producer, stream, n)
    requires s2 == RegisterMany(cfg, s1, TrackingConsumer, stream, m)
    requires s3 == CleanupNewest(s2, Handles(n, m), cfg.maxTrackingConsumers / 5)
    requires s4 == CleanupNewest(s3, Handles(n, m)[..2 * cfg.maxTrackingConsumers], 2 * cfg.maxTrackingConsumers)
    requires (res, s6) == Register(cfg, Cleanup(s4, ps[10]), Producer, stream, false)
    requires s7 == CleanupNewest(s6, ps[10 := h], cfg.maxProducers / 5 + 19)
    ensures NodesConnected(s1) == 1 && ClientCount(s1) == 2
    ensures NodesConnected(s2) == 1 && ClientCount(s2) == 3
    ensures ClientCount(s3) == 2 && ClientCount(s4) == 2
    ensures res == Ok(h) && 10 < |s1.agents| && h < |s6.agents|
    ensures s6.agents[h].publisherId == s1.agents[10].publisherId
    ensures s6.agents[h].calls == Calls(1, 0, 0, 0)
    ensures NodesConnected(s6) == 1 && ClientCount(s6) == 2
    ensures NodesConnected(s7) == 1 && ClientCount(s7) == 1
  {
    ShrinkToTwo(cfg, broker, stream, n, m, ps, s1, s2, s3, s4);
    ShrinkProducersPhase(cfg, s4, broker, ps, stream, h, res, s6, s7);
  }
}
