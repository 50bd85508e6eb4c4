/**
 * What the coordinator promises its callers, proved about the state machine of module
 * CoordinatorModel: the registration outcome, first-fit placement, freeing and reuse of
 * slots, the counters, and the per-attachable outcome of recovery.
 */
module CoordinatorProperties {
  import opened Wrappers
  import opened CoordinatorModel
  import opened CoordinatorInvariants

  /** The agents occupying a slot of a client. */
  function Members(c: Client): set<nat> {
    c.producers.Values + c.trackers
  }

  // ---------------------------------------------------------------- locator

  /**
   * The retried lookup asks about its own stream only, at most `attempts` times, every
   * answer but the last one was an illegal-state answer, and it returns a leader exactly
   * when the last answer named one; when it returns none it either ran out of attempts
   * or the last answer said the stream does not exist.
   */
  lemma {:induction false} LookupLeaderSpec(cfg: Config, st: State, stream: string, attempts: nat)
    ensures var r := LookupLeader(cfg, st, stream, attempts);
            var n := Served(r.1, stream);
            Served(st, stream) <= n <= Served(st, stream) + attempts &&
            (forall s :: s != stream ==> Served(r.1, s) == Served(st, s)) &&
            (forall m :: Served(st, stream) <= m < n - 1 ==>
               Classify(ScriptedAnswer(cfg.script, stream, m)) == Err(IllegalStateError)) &&
            (r.0.Some? ==>
               n > Served(st, stream) && Classify(ScriptedAnswer(cfg.script, stream, n - 1)) == Ok(r.0.value)) &&
            (r.0.None? ==>
               n == Served(st, stream) + attempts ||
               (n > Served(st, stream) &&
                Classify(ScriptedAnswer(cfg.script, stream, n - 1)) == Err(StreamDoesNotExistError)))
    decreases attempts
  {
    if attempts > 0 {
      var (answer, st1) := Query(cfg, st, stream);
      assert Served(st1, stream) == Served(st, stream) + 1;
      assert forall s :: s != stream ==> Served(st1, s) == Served(st, s);
      if Classify(answer) == Err(IllegalStateError) {
        LookupLeaderSpec(cfg, st1, stream, attempts - 1);
      }
    }
  }

  /**
   * The leader a lookup finds, read off the script alone: `n` answers about the stream
   * were consumed before, and at most `attempts` more may be asked for.
   */
  function LeaderFrom(script: map<string, seq<StreamMetadata>>, stream: string, n: nat, attempts: nat): Option<Broker>
    decreases attempts
  {
    if attempts == 0 then None
    else match Classify(ScriptedAnswer(script, stream, n))
      case Ok(leader) => Some(leader)
      case Err(StreamDoesNotExistError) => None
      case Err(IllegalStateError) => LeaderFrom(script, stream, n + 1, attempts - 1)
  }

  /** The lookup finds the leader the script names from the answers not yet consumed. */
  lemma {:induction false} LookupFindsLeaderFrom(cfg: Config, st: State, stream: string, attempts: nat)
    ensures LookupLeader(cfg, st, stream, attempts).0 == LeaderFrom(cfg.script, stream, Served(st, stream), attempts)
    decreases attempts
  {
    if attempts > 0 {
      var (answer, st1) := Query(cfg, st, stream);
      assert Served(st1, stream) == Served(st, stream) + 1;
      LookupFindsLeaderFrom(cfg, st1, stream, attempts - 1);
    }
  }

  // ---------------------------------------------------------------- placement

  lemma MapAddValues<K, V>(m: map<K, V>, k: K, v: V)
    requires k !in m
    ensures m[k := v].Values == m.Values + {v}
  {
    forall x | x in m.Values ensures x in m[k := v].Values {
      var y :| y in m && m[y] == x;
      assert m[k := v][y] == x;
    }
    assert m[k := v][k] == v;
  }

  /**
   * Attaching binds the agent once to a client of the broker, and changes no other agent.
   */
  lemma AttachBinds(cfg: Config, st: State, h: nat, broker: Broker)
    requires ConfigOk(cfg) && PoolWf(cfg, st.pool) && h < |st.agents|
    ensures var r := Attach(cfg, st, h, broker);
            var a := st.agents[h];
            var i := FirstFit(cfg, st.pool, a.kind, broker);
            i < |r.pool| && r.pool[i].broker == broker &&
            r.agents[h].client == Some(r.pool[i].id) && Holds(r.pool[i], h, r.agents[h]) &&
            r.agents[h].kind == a.kind && r.agents[h].stream == a.stream && r.agents[h].isOpen == a.isOpen &&
            r.agents[h].calls == a.calls.(setClient := a.calls.setClient + 1) &&
            (forall g :: 0 <= g < |st.agents| && g != h ==> r.agents[g] == st.agents[g])
  {
  }

  /**
   * Attaching opens a new client, with a fresh id, exactly when no pooled client of the
   * broker has a free slot of the agent's kind; no other client changes.
   */
  lemma AttachPool(cfg: Config, st: State, h: nat, broker: Broker)
    requires ConfigOk(cfg) && PoolWf(cfg, st.pool) && h < |st.agents|
    ensures var r := Attach(cfg, st, h, broker);
            var i := FirstFit(cfg, st.pool, st.agents[h].kind, broker);
            (|r.pool| == |st.pool| + 1 <==>
               forall j :: 0 <= j < |st.pool| ==> !Fits(cfg, st.pool[j], st.agents[h].kind, broker)) &&
            (|r.pool| == |st.pool| || (|r.pool| == |st.pool| + 1 && r.pool[i].id == st.nextClientId)) &&
            (forall j :: 0 <= j < |st.pool| && j != i ==> r.pool[j] == st.pool[j])
  {
    var i := FirstFit(cfg, st.pool, st.agents[h].kind, broker);
    if i < |st.pool| {
      assert Fits(cfg, st.pool[i], st.agents[h].kind, broker);
    }
  }

  /** Attaching adds the agent, and nothing else, to the members of the chosen client. */
  lemma AttachMembers(cfg: Config, st: State, h: nat, broker: Broker)
    requires ConfigOk(cfg) && PoolWf(cfg, st.pool) && h < |st.agents|
    ensures var r := Attach(cfg, st, h, broker);
            var i := FirstFit(cfg, st.pool, st.agents[h].kind, broker);
            i < |r.pool| &&
            Members(r.pool[i]) == (if i < |st.pool| then Members(st.pool[i]) else {}) + {h}
  {
    var a := st.agents[h];
    var i := FirstFit(cfg, st.pool, a.kind, broker);
    var r := Attach(cfg, st, h, broker);
    var c := if i < |st.pool| then st.pool[i] else NewClient(st.nextClientId, broker);
    assert Members(c) == (if i < |st.pool| then Members(st.pool[i]) else {});
    if a.kind == Producer {
      var id := LowestFreeId(c.producers, cfg.maxProducers);
      assert r.pool[i] == c.(producers := c.producers[id := h]);
      MapAddValues(c.producers, id, h);
    } else {
      assert r.pool[i] == c.(trackers := c.trackers + {h});
    }
  }

  /**
   * registerProducer / registerTrackingConsumer ask the locator once. They fail with
   * StreamDoesNotExistException when there is no metadata for the stream or its code
   * says so, and with IllegalStateException for any other non-ok code or an ok answer
   * without a leader; a failure changes neither pool nor agents. A success returns a new
   * handle whose agent is bound exactly once, to a pooled client on the leader.
   */
  lemma RegisterOutcome(cfg: Config, st: State, kind: Kind, stream: string, isOpen: bool)
    requires Inv(cfg, st)
    ensures var (res, r) := Register(cfg, st, kind, stream, isOpen);
            var answer := ScriptedAnswer(cfg.script, stream, Served(st, stream));
            Served(r, stream) == Served(st, stream) + 1 &&
            (res == Err(StreamDoesNotExistError) <==>
               stream !in cfg.script || cfg.script[stream] == [] || answer.value.code == ResponseStreamDoesNotExist) &&
            (res == Err(IllegalStateError) <==>
               answer.Some? && answer.value.code != ResponseStreamDoesNotExist &&
               (answer.value.code != ResponseOk || answer.value.leader.None?)) &&
            (res.Err? ==> r.pool == st.pool && r.agents == st.agents) &&
            (res.Ok? ==>
               answer.Some? && answer.value.leader.Some? &&
               res.value == |st.agents| && |r.agents| == |st.agents| + 1 && r.agents[..|st.agents|] == st.agents &&
               r.agents[res.value].kind == kind && r.agents[res.value].stream == stream &&
               r.agents[res.value].calls == Calls(1, 0, 0, 0) &&
               exists j :: 0 <= j < |r.pool| && r.pool[j].broker == answer.value.leader.value &&
                 r.agents[res.value].client == Some(r.pool[j].id) && Holds(r.pool[j], res.value, r.agents[res.value]))
  {
    var (answer, st1) := Query(cfg, st, stream);
    CallsOnlyInv(cfg, st, st1);
    if Classify(answer).Ok? {
      var h := |st1.agents|;
      var st2 := st1.(agents := st1.agents + [NewAgent(kind, stream, isOpen)]);
      AppendAgentInv(cfg, st1, NewAgent(kind, stream, isOpen));
      AttachBinds(cfg, st2, h, Classify(answer).value);
      var r := Attach(cfg, st2, h, Classify(answer).value);
      assert r.agents[..|st.agents|] == st.agents by {
        forall g | 0 <= g < |st.agents| ensures r.agents[g] == st.agents[g] {
          assert st2.agents[g] == st.agents[g];
        }
      }
    }
  }

  // ---------------------------------------------------------------- cleanup

  /** Every slot of the client holds an agent of the slot's kind, a producer under its
      own publisher id. */
  predicate SlotsTyped(c: Client, agents: seq<Agent>) {
    (forall k :: k in c.producers ==>
       c.producers[k] < |agents| && agents[c.producers[k]].kind == Producer &&
       agents[c.producers[k]].publisherId == k) &&
    (forall t :: t in c.trackers ==> t < |agents| && agents[t].kind == TrackingConsumer)
  }

  lemma InvSlotsTyped(cfg: Config, st: State, i: nat, h: nat)
    requires Inv(cfg, st) && i < |st.pool| && h < |st.agents| && st.agents[h].client == Some(st.pool[i].id)
    ensures SlotsTyped(st.pool[i], st.agents) && Holds(st.pool[i], h, st.agents[h])
    ensures |st.pool[i].producers| <= cfg.maxProducers
  {
    assert ClientsInv(cfg, st);
    assert ClientInv(cfg, st, st.pool[i]);
    assert BindingsHeld(st);
  }

  lemma EmptyIffNoMembers(c: Client)
    ensures IsEmpty(c) <==> Members(c) == {}
  {
    if c.producers != map[] {
      var k :| k in c.producers;
      assert c.producers[k] in Members(c);
    }
  }

  /** An agent's slot in its client is its only one there. */
  lemma SlotlessMembers(c: Client, agents: seq<Agent>, h: nat)
    requires SlotsTyped(c, agents) && h < |agents| && Holds(c, h, agents[h])
    ensures h in Members(c)
    ensures Members(Slotless(c, agents[h], h)) == Members(c) - {h}
  {
    var a := agents[h];
    var c2 := Slotless(c, a, h);
    if a.kind == Producer {
      assert c.producers[a.publisherId] == h;
      forall v | v in Members(c) - {h} ensures v in Members(c2) {
        if v in c.producers.Values {
          var k :| k in c.producers && c.producers[k] == v;
          assert c2.producers[k] == v;
        }
      }
      forall v | v in c2.producers.Values ensures v != h {
        var k :| k in c2.producers && c2.producers[k] == v;
      }
    } else {
      assert h !in c.producers.Values by {
        forall k | k in c.producers ensures c.producers[k] != h {
          assert agents[c.producers[k]].kind == Producer;
        }
      }
    }
  }

  /**
   * The cleanup callback unbinds the agent and frees its slot (a producer's publisher id
   * included); its client is closed exactly when the agent was its last attachment, and
   * no other client changes, so there is no compaction.
   */
  lemma CleanupOutcome(cfg: Config, st: State, h: nat)
    requires Inv(cfg, st) && h < |st.agents| && st.agents[h].client.Some?
    ensures var r := Cleanup(st, h);
            var a := st.agents[h];
            var i := IndexOfClient(st.pool, a.client.value);
            r.agents == st.agents[h := a.(client := None)] && r.nextClientId == st.nextClientId &&
            (i == |st.pool| ==> r.pool == st.pool) &&
            (i < |st.pool| ==> h in Members(st.pool[i])) &&
            (i < |st.pool| && Members(st.pool[i]) == {h} ==> r.pool == Remove(st.pool, i)) &&
            (i < |st.pool| && Members(st.pool[i]) != {h} ==>
               |r.pool| == |st.pool| && r.pool[i].id == st.pool[i].id && r.pool[i].broker == st.pool[i].broker &&
               Members(r.pool[i]) == Members(st.pool[i]) - {h} &&
               (a.kind == Producer ==> r.pool[i].producers == st.pool[i].producers - {a.publisherId}) &&
               (forall j :: 0 <= j < |st.pool| && j != i ==> r.pool[j] == st.pool[j]))
  {
    var a := st.agents[h];
    var i := IndexOfClient(st.pool, a.client.value);
    if i < |st.pool| {
      InvSlotsTyped(cfg, st, i, h);
      SlotlessMembers(st.pool[i], st.agents, h);
      EmptyIffNoMembers(Slotless(st.pool[i], a, h));
    }
  }

  lemma CleanupPoolWf(cfg: Config, st: State, h: nat)
    requires PoolWf(cfg, st.pool)
    ensures PoolWf(cfg, Cleanup(st, h).pool)
  {
    if h < |st.agents| && st.agents[h].client.Some? {
      var i := IndexOfClient(st.pool, st.agents[h].client.value);
      if i < |st.pool| {
        var r := Cleanup(st, h).pool;
        var c2 := Slotless(st.pool[i], st.agents[h], h);
        assert c2.producers.Keys <= st.pool[i].producers.Keys;
        forall j, k | 0 <= j < |r| && k in r[j].producers ensures k < cfg.maxProducers {
          if IsEmpty(c2) {
            assert r[j] == st.pool[if j < i then j else j + 1];
          } else if j != i {
            assert r[j] == st.pool[j];
          }
        }
      }
    }
  }

  /** The lowest free publisher id is the one below which every id is taken. */
  lemma LowestFreeIdIs(ids: map<PublisherId, nat>, max: nat, k: PublisherId)
    requires max <= 256 && |ids| < max && k !in ids
    requires forall j: PublisherId :: j < k ==> j in ids
    ensures LowestFreeId(ids, max) == k
  {
    var r := LowestFreeId(ids, max);
    assert r !in ids && k !in ids;
  }

  /**
   * Registration in a client that has room, is the first with room on the leader, and
   * uses every publisher id below p but not p: the new producer is bound once to that
   * client under publisher id p and no client is opened.
   */
  lemma RegisterTakesLowestId(cfg: Config, st: State, i: nat, p: PublisherId, stream: string, isOpen: bool)
    requires ConfigOk(cfg) && PoolWf(cfg, st.pool) && i < |st.pool|
    requires HasRoom(cfg, st.pool[i], Producer) && p !in st.pool[i].producers
    requires forall j: PublisherId :: j < p ==> j in st.pool[i].producers
    requires forall j :: 0 <= j < i ==> !Fits(cfg, st.pool[j], Producer, st.pool[i].broker)
    requires ScriptedAnswer(cfg.script, stream, Served(st, stream)) == Some(StreamMetadata(ResponseOk, Some(st.pool[i].broker)))
    ensures var (res, r) := Register(cfg, st, Producer, stream, isOpen);
            res == Ok(|st.agents|) && |r.agents| == |st.agents| + 1 &&
            r.agents[|st.agents|].publisherId == p &&
            r.agents[|st.agents|].client == Some(st.pool[i].id) &&
            r.agents[|st.agents|].calls.setClient == 1 &&
            |r.pool| == |st.pool|
  {
    var broker := st.pool[i].broker;
    assert FirstFit(cfg, st.pool, Producer, broker) == i;
    LowestFreeIdIs(st.pool[i].producers, cfg.maxProducers, p);
  }

  /**
   * The slot freed by a producer is taken again: when its client survives the cleanup,
   * is the first client of its broker with room, and every lower publisher id is in use,
   * the next producer registered on that broker is bound once to the same client under
   * the freed publisher id, and the client count does not change.
   */
  lemma FreedIdReused(cfg: Config, st: State, h: nat, i: nat, stream: string, isOpen: bool)
    requires Inv(cfg, st) && h < |st.agents| && st.agents[h].kind == Producer
    requires i < |st.pool| && st.agents[h].client == Some(st.pool[i].id) && |Members(st.pool[i])| > 1
    requires forall j: PublisherId :: j < st.agents[h].publisherId ==> j in st.pool[i].producers
    requires forall j :: 0 <= j < i ==> !Fits(cfg, st.pool[j], Producer, st.pool[i].broker)
    requires ScriptedAnswer(cfg.script, stream, Served(st, stream)) == Some(StreamMetadata(ResponseOk, Some(st.pool[i].broker)))
    ensures PoolWf(cfg, Cleanup(st, h).pool)
    ensures var (res, r) := Register(cfg, Cleanup(st, h), Producer, stream, isOpen);
            res == Ok(|st.agents|) &&
            r.agents[|st.agents|].publisherId == st.agents[h].publisherId &&
            r.agents[|st.agents|].client == st.agents[h].client &&
            r.agents[|st.agents|].calls.setClient == 1 &&
            ClientCount(r) == ClientCount(st)
  {
    var a := st.agents[h];
    assert DistinctIds(st.pool);
    InvSlotsTyped(cfg, st, i, h);
    FreedSlot(cfg, st, h, i);
    FreedId(cfg, st.pool[i].producers, a.publisherId);
    CleanupPoolWf(cfg, st, h);
    RegisterTakesLowestId(cfg, Cleanup(st, h), i, a.publisherId, stream, isOpen);
  }

  /**
   * Cleanup of a producer whose client keeps other attachments only takes the producer's
   * publisher id out of that client and unbinds the producer.
   */
  lemma FreedSlot(cfg: Config, st: State, h: nat, i: nat)
    requires DistinctIds(st.pool) && h < |st.agents| && st.agents[h].kind == Producer
    requires i < |st.pool| && st.agents[h].client == Some(st.pool[i].id) && |Members(st.pool[i])| > 1
    requires SlotsTyped(st.pool[i], st.agents) && Holds(st.pool[i], h, st.agents[h])
    ensures var p := st.agents[h].publisherId;
            p in st.pool[i].producers &&
            Cleanup(st, h) == st.(pool := st.pool[i := st.pool[i].(producers := st.pool[i].producers - {p})],
                                  agents := st.agents[h := st.agents[h].(client := None)])
  {
    var a := st.agents[h];
    assert IndexOfClient(st.pool, a.client.value) == i;
    SlotlessMembers(st.pool[i], st.agents, h);
    EmptyIffNoMembers(Slotless(st.pool[i], a, h));
  }

  /** Taking publisher id p out of a client that uses every id up to p leaves p as the
      lowest free id and room for one producer. */
  lemma FreedId(cfg: Config, m: map<PublisherId, nat>, p: PublisherId)
    requires p in m && |m| <= cfg.maxProducers
    requires forall j: PublisherId :: j < p ==> j in m
    ensures |m - {p}| < cfg.maxProducers && p !in m - {p}
    ensures forall j: PublisherId :: j < p ==> j in m - {p}
  {
    assert (m - {p}).Keys == m.Keys - {p};
    assert |m.Keys - {p}| == |m.Keys| - 1;
  }

  /** Under the invariant, an agent occupies a slot in at most one client. */
  lemma SingleAttachment(cfg: Config, st: State, h: nat, i: nat, j: nat)
    requires Inv(cfg, st) && i < |st.pool| && j < |st.pool|
    requires h in Members(st.pool[i]) && h in Members(st.pool[j])
    ensures i == j
  {
    assert ClientsInv(cfg, st);
    assert ClientInv(cfg, st, st.pool[i]) && ClientInv(cfg, st, st.pool[j]);
    assert h < |st.agents| && st.agents[h].client == Some(st.pool[i].id) by {
      if h !in st.pool[i].trackers {
        var k :| k in st.pool[i].producers && st.pool[i].producers[k] == h;
      }
    }
    assert st.agents[h].client == Some(st.pool[j].id) by {
      if h !in st.pool[j].trackers {
        var k :| k in st.pool[j].producers && st.pool[j].producers[k] == h;
      }
    }
    assert DistinctIds(st.pool);
  }

  /** Under the invariant, a producer holds one publisher id of its client. */
  lemma SinglePublisherId(cfg: Config, st: State, i: nat, k1: PublisherId, k2: PublisherId)
    requires Inv(cfg, st) && i < |st.pool|
    requires k1 in st.pool[i].producers && k2 in st.pool[i].producers
    requires st.pool[i].producers[k1] == st.pool[i].producers[k2]
    ensures k1 == k2
  {
    assert ClientsInv(cfg, st);
    assert ClientInv(cfg, st, st.pool[i]);
  }

  // ---------------------------------------------------------------- counters

  lemma BrokersSnoc(pool: seq<Client>)
    requires pool != []
    ensures Brokers(pool) == Brokers(pool[..|pool| - 1]) + {pool[|pool| - 1].broker}
  {
    var n := |pool| - 1;
    forall b | b in Brokers(pool) ensures b in Brokers(pool[..n]) + {pool[n].broker} {
      var k :| 0 <= k < |pool| && pool[k].broker == b;
      if k < n {
        assert pool[..n][k].broker == b;
      }
    }
    forall b | b in Brokers(pool[..n]) ensures b in Brokers(pool) {
      var k :| 0 <= k < n && pool[..n][k].broker == b;
      assert pool[k].broker == b;
    }
    assert pool[n].broker in Brokers(pool);
  }

  /** There are never more nodes connected than clients, and none exactly when there is
      no client. */
  lemma {:induction false} NodesAtMostClients(pool: seq<Client>)
    ensures |Brokers(pool)| <= |pool|
    ensures |Brokers(pool)| == 0 <==> |pool| == 0
  {
    if pool != [] {
      var n := |pool| - 1;
      NodesAtMostClients(pool[..n]);
      BrokersSnoc(pool);
    }
  }

  // ---------------------------------------------------------------- recovery

  /** Pooled client ids are distinct and below the next id to be handed out. */
  ghost predicate FreshIds(st: State) {
    DistinctIds(st.pool) && forall j :: 0 <= j < |st.pool| ==> st.pool[j].id < st.nextClientId
  }

  lemma InvFreshIds(cfg: Config, st: State)
    requires Inv(cfg, st)
    ensures FreshIds(st)
  {
    forall j | 0 <= j < |st.pool| ensures st.pool[j].id < st.nextClientId {
      assert ClientInv(cfg, st, st.pool[j]);
    }
  }

  /**
   * st2's pool extends st1's: every client keeps its position, id and broker, every client
   * added after them has an id st1 had not handed out yet, and, apart from the agents hs,
   * every client of st1 keeps exactly its members.
   */
  ghost predicate Extends(st1: State, st2: State, hs: seq<nat>) {
    |st1.pool| <= |st2.pool| && st1.nextClientId <= st2.nextClientId &&
    (forall j :: 0 <= j < |st1.pool| ==> st2.pool[j].id == st1.pool[j].id && st2.pool[j].broker == st1.pool[j].broker) &&
    (forall j :: |st1.pool| <= j < |st2.pool| ==> st1.nextClientId <= st2.pool[j].id) &&
    (forall j, x :: 0 <= j < |st1.pool| && x !in hs ==> (x in Members(st2.pool[j]) <==> x in Members(st1.pool[j])))
  }

  /** Attaching agent h extends the pool: at most h joins a client, or a new one at the end. */
  lemma AttachExtends(cfg: Config, st: State, h: nat, broker: Broker)
    requires ConfigOk(cfg) && PoolWf(cfg, st.pool) && h < |st.agents|
    ensures Extends(st, Attach(cfg, st, h, broker), [h])
  {
    AttachPool(cfg, st, h, broker);
    AttachMembers(cfg, st, h, broker);
    var i := FirstFit(cfg, st.pool, st.agents[h].kind, broker);
    if i < |st.pool| {
      assert Fits(cfg, st.pool[i], st.agents[h].kind, broker);
    }
  }

  /** Recovering agent h extends the pool, with at most h joining a client. */
  lemma RecoverExtends(cfg: Config, st: State, h: nat, attempts: nat)
    requires ConfigOk(cfg) && PoolWf(cfg, st.pool) && h < |st.agents|
    ensures Extends(st, Recover(cfg, st, h, attempts), [h])
  {
    var a := st.agents[h];
    var (leader, st1) := LookupLeader(cfg, st, a.stream, attempts);
    if leader.Some? && a.isOpen {
      AttachExtends(cfg, st1, h, leader.value);
    }
  }

  lemma ExtendsTrans(st1: State, st2: State, st3: State, hs1: seq<nat>, hs2: seq<nat>)
    requires Extends(st1, st2, hs1) && Extends(st2, st3, hs2)
    ensures Extends(st1, st3, hs1 + hs2)
  {
    forall j, x | 0 <= j < |st1.pool| && x !in hs1 + hs2
      ensures x in Members(st3.pool[j]) <==> x in Members(st1.pool[j])
    {
      assert x !in hs1 && x !in hs2;
    }
  }

  /** Recovering the agents hs in turn extends the pool, with at most those agents joining
      clients. */
  lemma {:induction false} RecoverAllExtends(cfg: Config, st: State, hs: seq<nat>, attempts: nat)
    requires ConfigOk(cfg) && PoolWf(cfg, st.pool)
    requires forall x :: 0 <= x < |hs| ==> hs[x] < |st.agents|
    ensures Extends(st, RecoverAll(cfg, st, hs, attempts), hs)
    decreases |hs|
  {
    if hs != [] {
      var st1 := Recover(cfg, st, hs[0], attempts);
      RecoverExtends(cfg, st, hs[0], attempts);
      RecoverAllExtends(cfg, st1, hs[1..], attempts);
      ExtendsTrans(st, st1, RecoverAll(cfg, st1, hs[1..], attempts), [hs[0]], hs[1..]);
      assert [hs[0]] + hs[1..] == hs;
    }
  }

  /** The agent is bound to a pooled client connected to the broker. */
  ghost predicate BoundTo(pool: seq<Client>, a: Agent, broker: Broker) {
    exists j :: 0 <= j < |pool| && pool[j].broker == broker && a.client == Some(pool[j].id)
  }

  /** The agent came back: bound once more, to a client, and signalled running once. */
  predicate Resumed(before: Agent, after: Agent) {
    after.kind == before.kind && after.stream == before.stream && after.isOpen == before.isOpen &&
    after.client.Some? &&
    after.calls == before.calls.(setClient := before.calls.setClient + 1, running := before.calls.running + 1)
  }

  /**
   * What recovery does to an agent, given the leader its lookup found: an open agent is
   * resumed and a closed one left as it is; when no leader is found, a producer is closed
   * after stream deletion and a tracking consumer stays as it is, unavailable.
   */
  predicate Recovered(before: Agent, after: Agent, leader: Option<Broker>) {
    match leader
    case Some(_) => if before.isOpen then Resumed(before, after) else after == before
    case None => after == (if before.kind == Producer then Disposed(before) else before)
  }

  /**
   * The outcome of recovering an agent after some number of answers about its stream were
   * consumed; an open agent whose leader is found is bound to a client of the pool that is
   * connected to that leader.
   */
  ghost predicate RecoveryOutcome(cfg: Config, before: Agent, after: Agent, pool: seq<Client>, attempts: nat) {
    exists n: nat ::
      var leader := LeaderFrom(cfg.script, before.stream, n, attempts);
      Recovered(before, after, leader) && (leader.Some? && before.isOpen ==> BoundTo(pool, after, leader.value))
  }

  /** The outcome stays true of a pool that extends the one it was met in. */
  lemma OutcomeKept(cfg: Config, before: Agent, after: Agent, st1: State, st2: State, hs: seq<nat>, attempts: nat)
    requires RecoveryOutcome(cfg, before, after, st1.pool, attempts) && Extends(st1, st2, hs)
    ensures RecoveryOutcome(cfg, before, after, st2.pool, attempts)
  {
    var n: nat :| var leader := LeaderFrom(cfg.script, before.stream, n, attempts);
                  Recovered(before, after, leader) && (leader.Some? && before.isOpen ==> BoundTo(st1.pool, after, leader.value));
    var leader := LeaderFrom(cfg.script, before.stream, n, attempts);
    if leader.Some? && before.isOpen {
      var j :| 0 <= j < |st1.pool| && st1.pool[j].broker == leader.value && after.client == Some(st1.pool[j].id);
      assert st2.pool[j].broker == leader.value && after.client == Some(st2.pool[j].id);
    }
  }

  /** Whatever was consumed before, a lookup of the stream finds a leader. */
  ghost predicate AlwaysFound(cfg: Config, stream: string, attempts: nat) {
    forall n: nat :: LeaderFrom(cfg.script, stream, n, attempts).Some?
  }

  /** Whatever was consumed before, a lookup of the stream gives up. */
  ghost predicate NeverFound(cfg: Config, stream: string, attempts: nat) {
    forall n: nat :: LeaderFrom(cfg.script, stream, n, attempts).None?
  }

  /** When the script settles the lookup either way, the outcome is fixed. */
  lemma OutcomeSettled(cfg: Config, before: Agent, after: Agent, pool: seq<Client>, attempts: nat)
    requires RecoveryOutcome(cfg, before, after, pool, attempts)
    ensures AlwaysFound(cfg, before.stream, attempts) ==>
              if before.isOpen then Resumed(before, after) else after == before
    ensures NeverFound(cfg, before.stream, attempts) ==>
              after == if before.kind == Producer then Disposed(before) else before
  {
    var n: nat :| var leader := LeaderFrom(cfg.script, before.stream, n, attempts);
                  Recovered(before, after, leader) && (leader.Some? && before.isOpen ==> BoundTo(pool, after, leader.value));
  }

  /**
   * Recovering one agent: the lookup finds the leader the script names; an open agent
   * whose leader is found is bound again, to a pooled client on that leader, and signalled
   * running; a closed one is left as it is; a producer whose lookup gives up is closed
   * after stream deletion, and a tracking consumer whose lookup gives up is left as it is.
   */
  lemma RecoverOutcome(cfg: Config, st: State, h: nat, attempts: nat)
    requires ConfigOk(cfg) && PoolWf(cfg, st.pool) && h < |st.agents|
    ensures var a := st.agents[h];
            var leader := LookupLeader(cfg, st, a.stream, attempts).0;
            var r := Recover(cfg, st, h, attempts);
            leader == LeaderFrom(cfg.script, a.stream, Served(st, a.stream), attempts) &&
            Recovered(a, r.agents[h], leader) &&
            (leader.Some? && a.isOpen ==>
               var i := FirstFit(cfg, st.pool, a.kind, leader.value);
               i < |r.pool| && r.pool[i].broker == leader.value && r.agents[h].client == Some(r.pool[i].id))
  {
    var a := st.agents[h];
    var (leader, st1) := LookupLeader(cfg, st, a.stream, attempts);
    LookupFindsLeaderFrom(cfg, st, a.stream, attempts);
    if leader.Some? && a.isOpen {
      AttachBinds(cfg, st1, h, leader.value);
    }
  }

  /** Recovering a list of distinct agents in turn gives each its own outcome and leaves
      every other agent alone. */
  lemma {:induction false} RecoverAllOutcome(cfg: Config, st: State, hs: seq<nat>, attempts: nat)
    requires ConfigOk(cfg) && PoolWf(cfg, st.pool)
    requires forall x :: 0 <= x < |hs| ==> hs[x] < |st.agents|
    requires forall x, y :: 0 <= x < y < |hs| ==> hs[x] != hs[y]
    ensures var r := RecoverAll(cfg, st, hs, attempts);
            (forall x :: 0 <= x < |hs| ==> RecoveryOutcome(cfg, st.agents[hs[x]], r.agents[hs[x]], r.pool, attempts)) &&
            (forall g :: 0 <= g < |st.agents| && g !in hs ==> r.agents[g] == st.agents[g])
    decreases |hs|
  {
    if hs != [] {
      var st1 := Recover(cfg, st, hs[0], attempts);
      RecoverOutcome(cfg, st, hs[0], attempts);
      var a := st.agents[hs[0]];
      assert RecoveryOutcome(cfg, a, st1.agents[hs[0]], st1.pool, attempts) by {
        var leader := LeaderFrom(cfg.script, a.stream, Served(st, a.stream), attempts);
        assert Recovered(a, st1.agents[hs[0]], leader);
        if leader.Some? && a.isOpen {
          var i := FirstFit(cfg, st.pool, a.kind, leader.value);
          assert st1.pool[i].broker == leader.value && st1.agents[hs[0]].client == Some(st1.pool[i].id);
        }
      }
      RecoverFrame(cfg, st, hs[0], attempts);
      var rest := hs[1..];
      assert forall x :: 0 <= x < |rest| ==> rest[x] == hs[x + 1] && rest[x] != hs[0];
      RecoverAllOutcome(cfg, st1, rest, attempts);
      RecoverAllExtends(cfg, st1, rest, attempts);
      OutcomeKept(cfg, a, st1.agents[hs[0]], st1, RecoverAll(cfg, st1, rest, attempts), rest, attempts);
      assert hs[0] !in rest;
      assert forall x :: 1 <= x < |hs| ==> hs[x] == rest[x - 1];
    }
  }

  /** Every agent marked unavailable before recovery. */
  lemma PausedAgents(agents: seq<Agent>, clientId: nat, stream: Option<string>)
    ensures var ms := AffectedAgents(agents, clientId, stream);
            var paused := Pause(agents, ms);
            (forall x :: 0 <= x < |ms| ==> ms[x] < |agents|) &&
            (forall x, y :: 0 <= x < y < |ms| ==> ms[x] != ms[y]) &&
            (forall g :: 0 <= g < |agents| ==> (g in ms <==> Affected(agents[g], clientId, stream))) &&
            (forall g :: 0 <= g < |agents| && g in ms ==> paused[g] == Unavailable(agents[g])) &&
            (forall g :: 0 <= g < |agents| && g !in ms ==> paused[g] == agents[g])
  {
    AffectedUpToSpec(agents, clientId, stream, |agents|);
  }

  /**
   * An agent marked unavailable once and then recovered. When the script always names a
   * leader, an open agent is resumed and a closed one stays unavailable; when it never
   * does, a producer is closed after stream deletion and a tracking consumer stays
   * unavailable.
   */
  ghost predicate PausedThenRecovered(cfg: Config, before: Agent, after: Agent, pool: seq<Client>, attempts: nat) {
    var paused := Unavailable(before);
    after.calls.unavailable == before.calls.unavailable + 1 &&
    RecoveryOutcome(cfg, paused, after, pool, attempts) &&
    (AlwaysFound(cfg, before.stream, attempts) ==>
       if before.isOpen then Resumed(paused, after) else after == paused) &&
    (NeverFound(cfg, before.stream, attempts) ==>
       after == if before.kind == Producer then Disposed(paused) else paused)
  }

  /** An agent that met its recovery outcome once marked unavailable was paused then recovered. */
  lemma PausedOutcome(cfg: Config, before: Agent, after: Agent, pool: seq<Client>, attempts: nat)
    requires RecoveryOutcome(cfg, Unavailable(before), after, pool, attempts)
    ensures PausedThenRecovered(cfg, before, after, pool, attempts)
  {
    OutcomeSettled(cfg, Unavailable(before), after, pool, attempts);
  }

  /** Pausing the affected agents of a client and recovering them in turn. */
  lemma PauseRecoverOutcome(cfg: Config, st: State, clientId: nat, stream: Option<string>,
                            pool: seq<Client>, attempts: nat)
    requires ConfigOk(cfg) && PoolWf(cfg, pool)
    ensures var ms := AffectedAgents(st.agents, clientId, stream);
            var r := RecoverAll(cfg, st.(pool := pool, agents := Pause(st.agents, ms)), ms, attempts);
            |r.agents| == |st.agents| &&
            (forall h :: 0 <= h < |st.agents| && Affected(st.agents[h], clientId, stream) ==>
               PausedThenRecovered(cfg, st.agents[h], r.agents[h], r.pool, attempts)) &&
            (forall h :: 0 <= h < |st.agents| && !Affected(st.agents[h], clientId, stream) ==>
               r.agents[h] == st.agents[h])
  {
    var ms := AffectedAgents(st.agents, clientId, stream);
    PausedAgents(st.agents, clientId, stream);
    var st1 := st.(pool := pool, agents := Pause(st.agents, ms));
    RecoverAllOutcome(cfg, st1, ms, attempts);
    var r := RecoverAll(cfg, st1, ms, attempts);
    forall h | 0 <= h < |st.agents| && Affected(st.agents[h], clientId, stream)
      ensures PausedThenRecovered(cfg, st.agents[h], r.agents[h], r.pool, attempts)
    {
      assert h in ms;
      var x :| 0 <= x < |ms| && ms[x] == h;
      assert st1.agents[h] == Unavailable(st.agents[h]);
      assert RecoveryOutcome(cfg, st1.agents[ms[x]], r.agents[ms[x]], r.pool, attempts);
      PausedOutcome(cfg, st.agents[h], r.agents[h], r.pool, attempts);
    }
    forall h | 0 <= h < |st.agents| && !Affected(st.agents[h], clientId, stream)
      ensures r.agents[h] == st.agents[h]
    {
      assert h !in ms;
      assert st1.agents[h] == st.agents[h];
    }
  }

  /** A client found at position i before any other client with its id is found there. */
  lemma IndexOfClientAt(pool: seq<Client>, i: nat)
    requires i < |pool| && forall j :: 0 <= j < i ==> pool[j].id != pool[i].id
    ensures IndexOfClient(pool, pool[i].id) == i
  {
  }

  /** Once a client is removed, no pool extending the rest holds a client with its id. */
  lemma RemovedGone(st: State, i: nat, st1: State, r: State, hs: seq<nat>)
    requires FreshIds(st) && i < |st.pool|
    requires st1.pool == Remove(st.pool, i) && st1.nextClientId == st.nextClientId && Extends(st1, r, hs)
    ensures IndexOfClient(r.pool, st.pool[i].id) == |r.pool|
  {
    forall j | 0 <= j < |r.pool| ensures r.pool[j].id != st.pool[i].id {
      if j < |st1.pool| {
        assert r.pool[j].id == st.pool[if j < i then j else j + 1].id;
      }
    }
  }

  /** Taking the agents ms out of a client leaves exactly its other members. */
  lemma WithoutAgentsMembers(c: Client, ms: seq<nat>)
    ensures forall x :: x in Members(WithoutAgents(c, ms)) <==> x in Members(c) && x !in ms
  {
    var c2 := WithoutAgents(c, ms);
    forall x | x in Members(c) && x !in ms ensures x in Members(c2) {
      if x in c.producers.Values {
        var k :| k in c.producers && c.producers[k] == x;
        assert c2.producers[k] == x;
      }
    }
    forall x | x in Members(c2) ensures x in Members(c) && x !in ms {
      if x in c2.producers.Values {
        var k :| k in c2.producers && c2.producers[k] == x;
        assert c.producers[k] == x;
      }
    }
  }

  /**
   * After the shutdown of a pooled client, the client is gone from the pool, every agent
   * that was bound to it has been marked unavailable exactly once and then met its
   * recovery outcome in the final pool, and every other agent is untouched.
   */
  lemma ShutdownOutcome(cfg: Config, st: State, clientId: nat)
    requires ConfigOk(cfg) && PoolWf(cfg, st.pool) && FreshIds(st) && IndexOfClient(st.pool, clientId) < |st.pool|
    ensures var r := OnShutdown(cfg, st, clientId);
            IndexOfClient(r.pool, clientId) == |r.pool| &&
            |r.agents| == |st.agents| &&
            (forall h :: 0 <= h < |st.agents| && st.agents[h].client == Some(clientId) ==>
               PausedThenRecovered(cfg, st.agents[h], r.agents[h], r.pool, cfg.recoveryAttempts)) &&
            (forall h :: 0 <= h < |st.agents| && st.agents[h].client != Some(clientId) ==> r.agents[h] == st.agents[h])
  {
    var i := IndexOfClient(st.pool, clientId);
    var pool := Remove(st.pool, i);
    assert PoolWf(cfg, pool) by {
      forall j, k | 0 <= j < |pool| && k in pool[j].producers ensures k < cfg.maxProducers {
        assert pool[j] == st.pool[if j < i then j else j + 1];
      }
    }
    PauseRecoverOutcome(cfg, st, clientId, None, pool, cfg.recoveryAttempts);
    var ms := AffectedAgents(st.agents, clientId, None);
    var st1 := st.(pool := pool, agents := Pause(st.agents, ms));
    PausedAgents(st.agents, clientId, None);
    RecoverAllExtends(cfg, st1, ms, cfg.recoveryAttempts);
    RemovedGone(st, i, st1, RecoverAll(cfg, st1, ms, cfg.recoveryAttempts), ms);
  }

  /**
   * After a metadata update for one stream on a pooled client, every agent of that stream
   * bound to it has been marked unavailable exactly once and then met its recovery
   * outcome in the final pool, and every other agent, of other streams or other clients,
   * is untouched. The client is gone from the pool exactly when all its members were that
   * stream's agents; otherwise it keeps its position and broker and, apart from that
   * stream's agents, exactly its members.
   */
  lemma MetadataUpdateOutcome(cfg: Config, st: State, clientId: nat, stream: string)
    requires ConfigOk(cfg) && PoolWf(cfg, st.pool) && FreshIds(st) && IndexOfClient(st.pool, clientId) < |st.pool|
    ensures var r := OnMetadataUpdate(cfg, st, clientId, stream);
            var i := IndexOfClient(st.pool, clientId);
            var ms := AffectedAgents(st.agents, clientId, Some(stream));
            ((forall x :: x in Members(st.pool[i]) ==> x in ms) <==> IndexOfClient(r.pool, clientId) == |r.pool|) &&
            (IndexOfClient(r.pool, clientId) < |r.pool| ==>
               IndexOfClient(r.pool, clientId) == i && r.pool[i].broker == st.pool[i].broker &&
               forall x :: x !in ms ==> (x in Members(r.pool[i]) <==> x in Members(st.pool[i]))) &&
            |r.agents| == |st.agents| &&
            (forall h :: 0 <= h < |st.agents| && st.agents[h].client == Some(clientId) && st.agents[h].stream == stream ==>
               PausedThenRecovered(cfg, st.agents[h], r.agents[h], r.pool, cfg.topologyUpdateAttempts)) &&
            (forall h :: 0 <= h < |st.agents| && (st.agents[h].client != Some(clientId) || st.agents[h].stream != stream) ==>
               r.agents[h] == st.agents[h])
  {
    var i := IndexOfClient(st.pool, clientId);
    var ms := AffectedAgents(st.agents, clientId, Some(stream));
    var c2 := WithoutAgents(st.pool[i], ms);
    var pool := Evict(st.pool, i, c2);
    assert PoolWf(cfg, pool) by {
      assert c2.producers.Keys <= st.pool[i].producers.Keys;
      forall j, k | 0 <= j < |pool| && k in pool[j].producers ensures k < cfg.maxProducers {
        if IsEmpty(c2) {
          assert pool[j] == st.pool[if j < i then j else j + 1];
        } else if j != i {
          assert pool[j] == st.pool[j];
        }
      }
    }
    PauseRecoverOutcome(cfg, st, clientId, Some(stream), pool, cfg.topologyUpdateAttempts);
    var st1 := st.(pool := pool, agents := Pause(st.agents, ms));
    PausedAgents(st.agents, clientId, Some(stream));
    RecoverAllExtends(cfg, st1, ms, cfg.topologyUpdateAttempts);
    UpdatedClient(st, i, ms, st1, RecoverAll(cfg, st1, ms, cfg.topologyUpdateAttempts));
  }

  /**
   * The client at position i, with the agents ms taken out, and then any pool extending
   * that: the client is gone exactly when all its members were in ms; otherwise it keeps
   * its position and broker and, apart from ms, exactly its members.
   */
  lemma UpdatedClient(st: State, i: nat, ms: seq<nat>, st1: State, r: State)
    requires FreshIds(st) && i < |st.pool| && forall j :: 0 <= j < i ==> st.pool[j].id != st.pool[i].id
    requires st1.pool == Evict(st.pool, i, WithoutAgents(st.pool[i], ms)) && st1.nextClientId == st.nextClientId
    requires Extends(st1, r, ms)
    ensures var id := st.pool[i].id;
            ((forall x :: x in Members(st.pool[i]) ==> x in ms) <==> IndexOfClient(r.pool, id) == |r.pool|) &&
            (IndexOfClient(r.pool, id) < |r.pool| ==>
               IndexOfClient(r.pool, id) == i && r.pool[i].broker == st.pool[i].broker &&
               forall x :: x !in ms ==> (x in Members(r.pool[i]) <==> x in Members(st.pool[i])))
  {
    var c2 := WithoutAgents(st.pool[i], ms);
    WithoutAgentsMembers(st.pool[i], ms);
    EmptyIffNoMembers(c2);
    if IsEmpty(c2) {
      RemovedGone(st, i, st1, r, ms);
      forall x | x in Members(st.pool[i]) ensures x in ms {
        assert x !in Members(c2);
      }
    } else {
      var y :| y in Members(c2);
      assert y in Members(st.pool[i]) && y !in ms;
      IndexOfClientAt(r.pool, i);
      forall x | x !in ms ensures x in Members(r.pool[i]) <==> x in Members(st.pool[i]) {
        assert st1.pool[i] == c2;
      }
    }
  }
}
