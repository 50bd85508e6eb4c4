/** The coordinator's invariant is established by the initial state and kept by every operation. */
module CoordinatorInvariants {
  import opened Wrappers
  import opened CoordinatorModel

  lemma InitInv(cfg: Config)
    requires ConfigOk(cfg)
    ensures Inv(cfg, Init())
  {
  }

  /** What the invariant looks at in an agent. */
  function Binding(a: Agent): (Kind, Option<nat>, PublisherId) {
    (a.kind, a.client, a.publisherId)
  }

  /** A detached agent occupies no slot of any pooled client. */
  lemma Detached(cfg: Config, st: State, h: nat, j: nat)
    requires Inv(cfg, st) && h < |st.agents| && st.agents[h].client.None? && j < |st.pool|
    ensures forall k :: k in st.pool[j].producers ==> st.pool[j].producers[k] != h
    ensures h !in st.pool[j].trackers
  {
    assert ClientsInv(cfg, st);
    assert ClientInv(cfg, st, st.pool[j]);
  }

  /** A client's invariant survives changes to agents that do not occupy its slots. */
  lemma ClientInvFrame(cfg: Config, st: State, r: State, c: Client, h: nat)
    requires ClientInv(cfg, st, c)
    requires r.nextClientId >= st.nextClientId && |r.agents| >= |st.agents|
    requires forall g :: 0 <= g < |st.agents| && g != h ==> Binding(r.agents[g]) == Binding(st.agents[g])
    requires forall k :: k in c.producers ==> c.producers[k] != h
    requires h !in c.trackers
    ensures ClientInv(cfg, r, c)
  {
  }

  // ------------------------------------------------------------ callbacks only

  /** Changing an agent's callback counters leaves the invariant intact. */
  lemma CallsOnlyInv(cfg: Config, st: State, r: State)
    requires Inv(cfg, st)
    requires r.pool == st.pool && r.nextClientId == st.nextClientId && |r.agents| == |st.agents|
    requires forall g :: 0 <= g < |st.agents| ==> Binding(r.agents[g]) == Binding(st.agents[g])
    ensures Inv(cfg, r)
  {
    assert ClientsInv(cfg, r) by {
      forall j | 0 <= j < |r.pool| ensures ClientInv(cfg, r, r.pool[j]) {
        assert ClientInv(cfg, st, st.pool[j]);
      }
    }
    assert BindingsHeld(r) by {
      assert BindingsHeld(st);
      forall j, h | 0 <= j < |r.pool| && 0 <= h < |r.agents| && r.agents[h].client == Some(r.pool[j].id)
        ensures Holds(r.pool[j], h, r.agents[h])
      {
        assert Holds(st.pool[j], h, st.agents[h]);
      }
    }
  }

  // ------------------------------------------------------------ adding a slot

  /**
   * Agent h, detached, takes a free slot of client c (which is st.pool[i], or a fresh
   * empty client when i == |st.pool|), which becomes c2; the agent becomes a2.
   */
  ghost predicate AddsSlot(cfg: Config, st: State, h: nat, i: nat, c: Client, c2: Client, a2: Agent) {
    Inv(cfg, st) && h < |st.agents| && st.agents[h].client.None? &&
    i <= |st.pool| &&
    (i < |st.pool| ==> c == st.pool[i]) &&
    (i == |st.pool| ==> c.id == st.nextClientId && IsEmpty(c)) &&
    HasRoom(cfg, c, st.agents[h].kind) &&
    a2 == Bound(st.agents[h], c.id, a2.publisherId) &&
    (st.agents[h].kind == Producer ==>
       a2.publisherId !in c.producers && a2.publisherId < cfg.maxProducers &&
       c2 == c.(producers := c.producers[a2.publisherId := h])) &&
    (st.agents[h].kind == TrackingConsumer ==>
       a2.publisherId == st.agents[h].publisherId && c2 == c.(trackers := c.trackers + {h}))
  }

  function AfterAdd(st: State, h: nat, i: nat, c2: Client, a2: Agent): State
    requires h < |st.agents| && i <= |st.pool|
  {
    if i < |st.pool| then State(st.pool[i := c2], st.agents[h := a2], st.nextClientId, st.served)
    else State(st.pool + [c2], st.agents[h := a2], st.nextClientId + 1, st.served)
  }

  lemma AddedClientInv(cfg: Config, st: State, h: nat, i: nat, c: Client, c2: Client, a2: Agent)
    requires AddsSlot(cfg, st, h, i, c, c2, a2)
    ensures ClientInv(cfg, AfterAdd(st, h, i, c2, a2), c2)
  {
    if i < |st.pool| {
      Detached(cfg, st, h, i);
      assert ClientsInv(cfg, st);
      assert ClientInv(cfg, st, c);
    }
    assert c.id < st.nextClientId || (i == |st.pool| && c.id == st.nextClientId);
    if st.agents[h].kind == Producer {
      AddedProducerClientInv(cfg, st, h, i, c, c2, a2);
    } else {
      AddedTrackerClientInv(cfg, st, h, i, c, c2, a2);
    }
  }

  lemma AddedProducerClientInv(cfg: Config, st: State, h: nat, i: nat, c: Client, c2: Client, a2: Agent)
    requires h < |st.agents| && i <= |st.pool| && st.agents[h].kind == Producer
    requires c.id < st.nextClientId || (i == |st.pool| && c.id == st.nextClientId)
    requires i == |st.pool| ==> IsEmpty(c)
    requires i < |st.pool| ==> ClientInv(cfg, st, c) && forall k :: k in c.producers ==> c.producers[k] != h
    requires HasRoom(cfg, c, Producer) && |c.trackers| <= cfg.maxTrackingConsumers
    requires a2 == Bound(st.agents[h], c.id, a2.publisherId)
    requires a2.publisherId !in c.producers && c2 == c.(producers := c.producers[a2.publisherId := h])
    ensures ClientInv(cfg, AfterAdd(st, h, i, c2, a2), c2)
  {
    var r := AfterAdd(st, h, i, c2, a2);
    forall k | k in c2.producers
      ensures c2.producers[k] < |r.agents| && r.agents[c2.producers[k]].kind == Producer
      ensures r.agents[c2.producers[k]].client == Some(c2.id) && r.agents[c2.producers[k]].publisherId == k
    {
      if k != a2.publisherId {
        assert k in c.producers;
      }
    }
  }

  lemma AddedTrackerClientInv(cfg: Config, st: State, h: nat, i: nat, c: Client, c2: Client, a2: Agent)
    requires h < |st.agents| && i <= |st.pool| && st.agents[h].kind == TrackingConsumer
    requires c.id < st.nextClientId || (i == |st.pool| && c.id == st.nextClientId)
    requires i == |st.pool| ==> IsEmpty(c)
    requires i < |st.pool| ==> ClientInv(cfg, st, c) && h !in c.trackers
    requires HasRoom(cfg, c, TrackingConsumer) && |c.producers| <= cfg.maxProducers
    requires a2 == Bound(st.agents[h], c.id, a2.publisherId)
    requires c2 == c.(trackers := c.trackers + {h})
    ensures ClientInv(cfg, AfterAdd(st, h, i, c2, a2), c2)
  {
    var r := AfterAdd(st, h, i, c2, a2);
    forall t | t in c2.trackers
      ensures t < |r.agents| && r.agents[t].kind == TrackingConsumer && r.agents[t].client == Some(c2.id)
    {
      if t != h {
        assert t in c.trackers;
      }
    }
  }

  lemma OtherClientInv(cfg: Config, st: State, h: nat, i: nat, c: Client, c2: Client, a2: Agent, j: nat)
    requires AddsSlot(cfg, st, h, i, c, c2, a2) && j < |st.pool| && j != i
    ensures ClientInv(cfg, AfterAdd(st, h, i, c2, a2), st.pool[j])
  {
    Detached(cfg, st, h, j);
    assert ClientsInv(cfg, st);
    assert ClientInv(cfg, st, st.pool[j]);
    ClientInvFrame(cfg, st, AfterAdd(st, h, i, c2, a2), st.pool[j], h);
  }

  lemma AddedBindingsHeld(cfg: Config, st: State, h: nat, i: nat, c: Client, c2: Client, a2: Agent)
    requires AddsSlot(cfg, st, h, i, c, c2, a2)
    ensures BindingsHeld(AfterAdd(st, h, i, c2, a2))
  {
    var r := AfterAdd(st, h, i, c2, a2);
    assert BindingsHeld(st);
    assert forall j :: 0 <= j < |r.pool| && j != i ==> r.pool[j] == st.pool[j];
    forall j, h' | 0 <= j < |r.pool| && 0 <= h' < |r.agents| && r.agents[h'].client == Some(r.pool[j].id)
      ensures Holds(r.pool[j], h', r.agents[h'])
    {
      if h' != h {
        if j < |st.pool| {
          assert Holds(st.pool[j], h', st.agents[h']);
        }
      }
    }
  }

  lemma AddedDistinctIds(cfg: Config, st: State, h: nat, i: nat, c: Client, c2: Client, a2: Agent)
    requires AddsSlot(cfg, st, h, i, c, c2, a2)
    ensures DistinctIds(AfterAdd(st, h, i, c2, a2).pool)
  {
    var r := AfterAdd(st, h, i, c2, a2);
    assert DistinctIds(st.pool);
    if i == |st.pool| {
      forall j | 0 <= j < |st.pool| ensures st.pool[j].id != c2.id {
        assert ClientsInv(cfg, st);
        assert ClientInv(cfg, st, st.pool[j]);
      }
    }
  }

  lemma AddsSlotInv(cfg: Config, st: State, h: nat, i: nat, c: Client, c2: Client, a2: Agent)
    requires AddsSlot(cfg, st, h, i, c, c2, a2)
    ensures Inv(cfg, AfterAdd(st, h, i, c2, a2))
  {
    var r := AfterAdd(st, h, i, c2, a2);
    assert PoolWf(cfg, r.pool);
    assert ClientsInv(cfg, r) by {
      forall j | 0 <= j < |r.pool| ensures ClientInv(cfg, r, r.pool[j]) {
        if j == i {
          AddedClientInv(cfg, st, h, i, c, c2, a2);
        } else {
          OtherClientInv(cfg, st, h, i, c, c2, a2, j);
        }
      }
    }
    AddedDistinctIds(cfg, st, h, i, c, c2, a2);
    AddedBindingsHeld(cfg, st, h, i, c, c2, a2);
  }

  /** Attaching a detached agent keeps the invariant. */
  lemma AttachInv(cfg: Config, st: State, h: nat, broker: Broker)
    requires Inv(cfg, st) && h < |st.agents| && st.agents[h].client.None?
    ensures Inv(cfg, Attach(cfg, st, h, broker))
  {
    if st.agents[h].kind == Producer {
      AttachProducerInv(cfg, st, h, broker);
    } else {
      AttachTrackerInv(cfg, st, h, broker);
    }
  }

  lemma AttachProducerInv(cfg: Config, st: State, h: nat, broker: Broker)
    requires Inv(cfg, st) && h < |st.agents| && st.agents[h].client.None? && st.agents[h].kind == Producer
    ensures Inv(cfg, Attach(cfg, st, h, broker))
  {
    var a := st.agents[h];
    var i := FirstFit(cfg, st.pool, a.kind, broker);
    var c := if i < |st.pool| then st.pool[i] else NewClient(st.nextClientId, broker);
    var id := LowestFreeId(c.producers, cfg.maxProducers);
    var c2 := c.(producers := c.producers[id := h]);
    var a2 := Bound(a, c.id, id);
    assert Attach(cfg, st, h, broker) == AfterAdd(st, h, i, c2, a2);
    AddsSlotInv(cfg, st, h, i, c, c2, a2);
  }

  lemma AttachTrackerInv(cfg: Config, st: State, h: nat, broker: Broker)
    requires Inv(cfg, st) && h < |st.agents| && st.agents[h].client.None? && st.agents[h].kind == TrackingConsumer
    ensures Inv(cfg, Attach(cfg, st, h, broker))
  {
    var a := st.agents[h];
    var i := FirstFit(cfg, st.pool, a.kind, broker);
    var c := if i < |st.pool| then st.pool[i] else NewClient(st.nextClientId, broker);
    var c2 := c.(trackers := c.trackers + {h});
    var a2 := Bound(a, c.id, a.publisherId);
    assert Attach(cfg, st, h, broker) == AfterAdd(st, h, i, c2, a2);
    AddsSlotInv(cfg, st, h, i, c, c2, a2);
  }

  // ------------------------------------------------------------ removing slots

  lemma {:induction false} SubsetCardinality<T>(a: set<T>, b: set<T>)
    requires a <= b
    ensures |a| <= |b|
  {
    if a != {} {
      var x :| x in a;
      SubsetCardinality(a - {x}, b - {x});
    }
  }

  /** A client's invariant survives changes to agents outside its slots. */
  lemma ClientInvFrameSet(cfg: Config, st: State, r: State, c: Client, ms: seq<nat>)
    requires ClientInv(cfg, st, c)
    requires r.nextClientId >= st.nextClientId && |r.agents| >= |st.agents|
    requires forall g :: 0 <= g < |st.agents| && g !in ms ==> Binding(r.agents[g]) == Binding(st.agents[g])
    requires forall k :: k in c.producers ==> c.producers[k] !in ms
    requires forall t :: t in c.trackers ==> t !in ms
    ensures ClientInv(cfg, r, c)
  {
  }

  /**
   * Agents ms, all bound to client st.pool[i], lose their slots and their binding; the
   * client is closed if that leaves it empty. Nothing else changes in the bindings.
   */
  ghost predicate RemovesSlots(cfg: Config, st: State, i: nat, ms: seq<nat>, r: State) {
    Inv(cfg, st) && i < |st.pool| &&
    (forall x :: 0 <= x < |ms| ==> ms[x] < |st.agents| && st.agents[ms[x]].client == Some(st.pool[i].id)) &&
    r.pool == Evict(st.pool, i, WithoutAgents(st.pool[i], ms)) &&
    r.nextClientId == st.nextClientId && |r.agents| == |st.agents| &&
    (forall g :: 0 <= g < |st.agents| && g in ms ==>
       Binding(r.agents[g]) == (st.agents[g].kind, None, st.agents[g].publisherId)) &&
    (forall g :: 0 <= g < |st.agents| && g !in ms ==> Binding(r.agents[g]) == Binding(st.agents[g]))
  }

  lemma RemovedOtherClientInv(cfg: Config, st: State, i: nat, ms: seq<nat>, r: State, j: nat)
    requires RemovesSlots(cfg, st, i, ms, r) && j < |st.pool| && j != i
    ensures ClientInv(cfg, r, st.pool[j])
  {
    assert ClientsInv(cfg, st);
    assert ClientInv(cfg, st, st.pool[j]);
    assert DistinctIds(st.pool);
    assert st.pool[j].id != st.pool[i].id;
    ClientInvFrameSet(cfg, st, r, st.pool[j], ms);
  }

  lemma RemovedClientInv(cfg: Config, st: State, i: nat, ms: seq<nat>, r: State)
    requires RemovesSlots(cfg, st, i, ms, r) && !IsEmpty(WithoutAgents(st.pool[i], ms))
    ensures ClientInv(cfg, r, WithoutAgents(st.pool[i], ms))
  {
    var c := st.pool[i];
    var c2 := WithoutAgents(c, ms);
    assert ClientsInv(cfg, st);
    assert ClientInv(cfg, st, c);
    SubsetCardinality(c2.producers.Keys, c.producers.Keys);
    SubsetCardinality(c2.trackers, c.trackers);
  }

  lemma RemovedBindingsHeld(cfg: Config, st: State, i: nat, ms: seq<nat>, r: State)
    requires RemovesSlots(cfg, st, i, ms, r)
    ensures BindingsHeld(r)
  {
    var c2 := WithoutAgents(st.pool[i], ms);
    assert BindingsHeld(st);
    forall j, h | 0 <= j < |r.pool| && 0 <= h < |r.agents| && r.agents[h].client == Some(r.pool[j].id)
      ensures Holds(r.pool[j], h, r.agents[h])
    {
      assert h !in ms;
      var j0 := if IsEmpty(c2) && j >= i then j + 1 else j;
      assert r.pool[j] == (if j0 == i then c2 else st.pool[j0]);
      assert Holds(st.pool[j0], h, st.agents[h]);
    }
  }

  lemma RemovesSlotsInv(cfg: Config, st: State, i: nat, ms: seq<nat>, r: State)
    requires RemovesSlots(cfg, st, i, ms, r)
    ensures Inv(cfg, r)
  {
    var c2 := WithoutAgents(st.pool[i], ms);
    assert PoolWf(cfg, r.pool);
    assert ClientsInv(cfg, r) by {
      forall j | 0 <= j < |r.pool| ensures ClientInv(cfg, r, r.pool[j]) {
        var j0 := if IsEmpty(c2) && j >= i then j + 1 else j;
        if j0 == i {
          RemovedClientInv(cfg, st, i, ms, r);
        } else {
          RemovedOtherClientInv(cfg, st, i, ms, r, j0);
        }
      }
    }
    assert DistinctIds(r.pool) by {
      assert DistinctIds(st.pool);
    }
    RemovedBindingsHeld(cfg, st, i, ms, r);
  }

  // ------------------------------------------------------------ operations

  /** Adding a new, detached agent keeps the invariant. */
  lemma AppendAgentInv(cfg: Config, st: State, a: Agent)
    requires Inv(cfg, st) && a.client.None?
    ensures Inv(cfg, st.(agents := st.agents + [a]))
  {
    var r := st.(agents := st.agents + [a]);
    assert ClientsInv(cfg, r) by {
      forall j | 0 <= j < |r.pool| ensures ClientInv(cfg, r, r.pool[j]) {
        assert ClientsInv(cfg, st);
        assert ClientInv(cfg, st, st.pool[j]);
        ClientInvFrameSet(cfg, st, r, st.pool[j], []);
      }
    }
    assert BindingsHeld(r) by {
      assert BindingsHeld(st);
      forall j, h | 0 <= j < |r.pool| && 0 <= h < |r.agents| && r.agents[h].client == Some(r.pool[j].id)
        ensures Holds(r.pool[j], h, r.agents[h])
      {
        assert h < |st.agents|;
        assert Holds(st.pool[j], h, st.agents[h]);
      }
    }
  }

  lemma RegisterInv(cfg: Config, st: State, kind: Kind, stream: string, isOpen: bool)
    requires Inv(cfg, st)
    ensures Inv(cfg, Register(cfg, st, kind, stream, isOpen).1)
  {
    var (answer, st1) := Query(cfg, st, stream);
    CallsOnlyInv(cfg, st, st1);
    if Classify(answer).Ok? {
      var st2 := st1.(agents := st1.agents + [NewAgent(kind, stream, isOpen)]);
      AppendAgentInv(cfg, st1, NewAgent(kind, stream, isOpen));
      AttachInv(cfg, st2, |st1.agents|, Classify(answer).value);
    }
  }

  /** Under the invariant, freeing an agent's slot by its publisher id frees exactly its slots. */
  lemma SlotlessIsWithout(cfg: Config, st: State, i: nat, h: nat)
    requires Inv(cfg, st) && i < |st.pool| && h < |st.agents| && st.agents[h].client == Some(st.pool[i].id)
    ensures Slotless(st.pool[i], st.agents[h], h) == WithoutAgents(st.pool[i], [h])
  {
    var c := st.pool[i];
    var a := st.agents[h];
    assert ClientsInv(cfg, st);
    assert ClientInv(cfg, st, c);
    assert BindingsHeld(st);
    assert Holds(c, h, a);
    if a.kind == Producer {
      assert c.producers - {a.publisherId} == WithoutAgents(c, [h]).producers;
      assert h !in c.trackers;
      assert c.trackers == WithoutAgents(c, [h]).trackers;
    } else {
      assert forall k :: k in c.producers ==> c.producers[k] != h;
      assert c.producers == WithoutAgents(c, [h]).producers;
      assert c.trackers - {h} == WithoutAgents(c, [h]).trackers;
    }
  }

  lemma CleanupInv(cfg: Config, st: State, h: nat)
    requires Inv(cfg, st)
    ensures Inv(cfg, Cleanup(st, h))
  {
    if h < |st.agents| && st.agents[h].client.Some? {
      var a := st.agents[h];
      var i := IndexOfClient(st.pool, a.client.value);
      var r := Cleanup(st, h);
      if i < |st.pool| {
        SlotlessIsWithout(cfg, st, i, h);
        assert RemovesSlots(cfg, st, i, [h], r);
        RemovesSlotsInv(cfg, st, i, [h], r);
      } else {
        DanglingCleanupInv(cfg, st, h);
      }
    }
  }

  /** An agent whose client is no longer pooled holds no slot, so detaching it keeps the invariant. */
  lemma DanglingCleanupInv(cfg: Config, st: State, h: nat)
    requires Inv(cfg, st) && h < |st.agents| && st.agents[h].client.Some?
    requires IndexOfClient(st.pool, st.agents[h].client.value) == |st.pool|
    ensures Inv(cfg, st.(agents := st.agents[h := st.agents[h].(client := None)]))
  {
    var a := st.agents[h];
    var r := st.(agents := st.agents[h := a.(client := None)]);
    assert ClientsInv(cfg, r) by {
      forall j | 0 <= j < |r.pool| ensures ClientInv(cfg, r, r.pool[j]) {
        assert ClientsInv(cfg, st);
        assert ClientInv(cfg, st, st.pool[j]);
        assert st.pool[j].id != a.client.value;
        ClientInvFrameSet(cfg, st, r, st.pool[j], [h]);
      }
    }
    assert BindingsHeld(r) by {
      assert BindingsHeld(st);
      forall j, g | 0 <= j < |r.pool| && 0 <= g < |r.agents| && r.agents[g].client == Some(r.pool[j].id)
        ensures Holds(r.pool[j], g, r.agents[g])
      {
        assert Holds(st.pool[j], g, st.agents[g]);
      }
    }
  }

  /** Recovering one agent changes no other agent. */
  lemma RecoverFrame(cfg: Config, st: State, h: nat, attempts: nat)
    requires ConfigOk(cfg) && PoolWf(cfg, st.pool) && h < |st.agents|
    ensures forall g :: 0 <= g < |st.agents| && g != h ==> Recover(cfg, st, h, attempts).agents[g] == st.agents[g]
  {
  }

  lemma RecoverInv(cfg: Config, st: State, h: nat, attempts: nat)
    requires Inv(cfg, st) && h < |st.agents| && st.agents[h].client.None?
    ensures Inv(cfg, Recover(cfg, st, h, attempts))
  {
    var a := st.agents[h];
    var (leader, st1) := LookupLeader(cfg, st, a.stream, attempts);
    CallsOnlyInv(cfg, st, st1);
    match leader
    case Some(b) =>
      if a.isOpen {
        AttachInv(cfg, st1, h, b);
        var st2 := Attach(cfg, st1, h, b);
        CallsOnlyInv(cfg, st2, st2.(agents := st2.agents[h := Running(st2.agents[h])]));
      }
    case None =>
      if a.kind == Producer {
        CallsOnlyInv(cfg, st1, st1.(agents := st1.agents[h := Disposed(a)]));
      }
  }

  lemma {:induction false} RecoverAllInv(cfg: Config, st: State, hs: seq<nat>, attempts: nat)
    requires Inv(cfg, st)
    requires forall x :: 0 <= x < |hs| ==> hs[x] < |st.agents| && st.agents[hs[x]].client.None?
    requires forall x, y :: 0 <= x < y < |hs| ==> hs[x] != hs[y]
    ensures Inv(cfg, RecoverAll(cfg, st, hs, attempts))
    decreases |hs|
  {
    if hs != [] {
      RecoverInv(cfg, st, hs[0], attempts);
      RecoverFrame(cfg, st, hs[0], attempts);
      var st1 := Recover(cfg, st, hs[0], attempts);
      assert forall x :: 0 <= x < |hs[1..]| ==> hs[1..][x] == hs[x + 1] && hs[x + 1] != hs[0];
      RecoverAllInv(cfg, st1, hs[1..], attempts);
    }
  }

  lemma PausedBindings(st: State, ms: seq<nat>)
    ensures forall g :: 0 <= g < |st.agents| && g in ms ==>
              Binding(Pause(st.agents, ms)[g]) == (st.agents[g].kind, None, st.agents[g].publisherId)
    ensures forall g :: 0 <= g < |st.agents| && g !in ms ==> Binding(Pause(st.agents, ms)[g]) == Binding(st.agents[g])
  {
  }

  /** A client's members are exactly the agents attached to it, so pausing them all empties it. */
  lemma AllMembersAffected(cfg: Config, st: State, i: nat, ms: seq<nat>)
    requires ClientsInv(cfg, st) && i < |st.pool| && ms == AffectedAgents(st.agents, st.pool[i].id, None)
    ensures IsEmpty(WithoutAgents(st.pool[i], ms))
  {
    var c := st.pool[i];
    AffectedUpToSpec(st.agents, c.id, None, |st.agents|);
    assert ClientInv(cfg, st, c);
    forall k | k in c.producers ensures c.producers[k] in ms {
      assert Affected(st.agents[c.producers[k]], c.id, None);
    }
    forall t | t in c.trackers ensures t in ms {
      assert Affected(st.agents[t], c.id, None);
    }
    assert WithoutAgents(c, ms).producers == map[];
  }

  lemma ShutdownInv(cfg: Config, st: State, clientId: nat)
    requires Inv(cfg, st)
    ensures Inv(cfg, OnShutdown(cfg, st, clientId))
  {
    var i := IndexOfClient(st.pool, clientId);
    if i < |st.pool| {
      var ms := AffectedAgents(st.agents, clientId, None);
      AffectedUpToSpec(st.agents, clientId, None, |st.agents|);
      AllMembersAffected(cfg, st, i, ms);
      assert Evict(st.pool, i, WithoutAgents(st.pool[i], ms)) == Remove(st.pool, i);
      var r1 := st.(pool := Remove(st.pool, i), agents := Pause(st.agents, ms));
      PausedBindings(st, ms);
      assert RemovesSlots(cfg, st, i, ms, r1);
      RemovesSlotsInv(cfg, st, i, ms, r1);
      RecoverAllInv(cfg, r1, ms, cfg.recoveryAttempts);
    }
  }

  lemma MetadataUpdateInv(cfg: Config, st: State, clientId: nat, stream: string)
    requires Inv(cfg, st)
    ensures Inv(cfg, OnMetadataUpdate(cfg, st, clientId, stream))
  {
    var i := IndexOfClient(st.pool, clientId);
    if i < |st.pool| {
      var ms := AffectedAgents(st.agents, clientId, Some(stream));
      AffectedUpToSpec(st.agents, clientId, Some(stream), |st.agents|);
      var r1 := st.(pool := Evict(st.pool, i, WithoutAgents(st.pool[i], ms)), agents := Pause(st.agents, ms));
      PausedBindings(st, ms);
      assert RemovesSlots(cfg, st, i, ms, r1);
      RemovesSlotsInv(cfg, st, i, ms, r1);
      RecoverAllInv(cfg, r1, ms, cfg.topologyUpdateAttempts);
    }
  }
}
