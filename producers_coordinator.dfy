/**
 * The coordinator as an object whose operations update its pool, its agents and its
 * locator bookkeeping in place. Every mutating method is proved to leave the object in
 * the state the corresponding function of module CoordinatorModel computes, and to keep
 * the coordinator's invariant; the searches it runs over the pool and the agents are
 * loops proved against the same functions.
 */
module ProducersCoordinator {
  import opened Wrappers
  import opened CoordinatorModel
  import CoordinatorInvariants
  import CoordinatorProperties

  /** The first publisher id not in use, found by counting up from 0. */
  method FreePublisherId(ids: map<PublisherId, nat>, max: nat) returns (id: PublisherId)
    requires max <= 256 && |ids| < max
    ensures id < max && id !in ids
    ensures forall j: PublisherId :: j < id ==> j in ids
    ensures id == LowestFreeId(ids, max)
  {
    var k: nat := 0;
    while k < max && k in ids
      invariant k <= max
      invariant forall j: PublisherId :: j < k ==> j in ids
      decreases max - k
    {
      k := k + 1;
    }
    if k == max {
      CoversRange(ids.Keys, k);
      assert false;
    }
    id := k;
    CoordinatorProperties.LowestFreeIdIs(ids, max, id);
  }

  class Coordinator {
    const cfg: Config
    var pool: seq<Client>
    var agents: seq<Agent>
    var nextClientId: nat
    var served: map<string, nat>

    function Abs(): State
      reads this
    {
      State(pool, agents, nextClientId, served)
    }

    ghost predicate Valid()
      reads this
    {
      Inv(cfg, Abs())
    }

    constructor (cfg: Config)
      requires ConfigOk(cfg)
      ensures this.cfg == cfg && Abs() == Init() && Valid()
    {
      this.cfg := cfg;
      pool := [];
      agents := [];
      nextClientId := 0;
      served := map[];
      new;
      CoordinatorInvariants.InitInv(cfg);
    }

    /** The first client, in creation order, on the broker with a free slot of the kind;
        |pool| when there is none. */
    method FindClient(kind: Kind, broker: Broker) returns (i: nat)
      ensures i <= |pool|
      ensures i < |pool| ==> Fits(cfg, pool[i], kind, broker)
      ensures forall j :: 0 <= j < i ==> !Fits(cfg, pool[j], kind, broker)
      ensures i == FirstFit(cfg, pool, kind, broker)
    {
      i := 0;
      while i < |pool| && !Fits(cfg, pool[i], kind, broker)
        invariant i <= |pool|
        invariant forall j :: 0 <= j < i ==> !Fits(cfg, pool[j], kind, broker)
      {
        i := i + 1;
      }
    }

    /** The position of the client with the given id; |pool| when there is none. */
    method IndexOf(id: nat) returns (i: nat)
      ensures i <= |pool|
      ensures i < |pool| ==> pool[i].id == id
      ensures forall j :: 0 <= j < i ==> pool[j].id != id
      ensures i == IndexOfClient(pool, id)
    {
      i := 0;
      while i < |pool| && pool[i].id != id
        invariant i <= |pool|
        invariant forall j :: 0 <= j < i ==> pool[j].id != id
      {
        i := i + 1;
      }
    }

    /** The handles of the agents bound to the client (and working on the stream, when
        one is given), in increasing order. */
    method Snapshot(clientId: nat, stream: Option<string>) returns (ms: seq<nat>)
      ensures forall k :: 0 <= k < |agents| ==> (k in ms <==> Affected(agents[k], clientId, stream))
      ensures forall x, y :: 0 <= x < y < |ms| ==> ms[x] < ms[y]
      ensures ms == AffectedAgents(agents, clientId, stream)
    {
      ms := [];
      var k := 0;
      while k < |agents|
        invariant k <= |agents|
        invariant ms == AffectedUpTo(agents, clientId, stream, k)
      {
        if Affected(agents[k], clientId, stream) {
          ms := ms + [k];
        }
        k := k + 1;
      }
      AffectedUpToSpec(agents, clientId, stream, |agents|);
    }

    /** The number of pooled clients: at least the number of nodes they connect to, and
        zero exactly when no node is connected. */
    method ClientCount() returns (n: nat)
      ensures n == CoordinatorModel.ClientCount(Abs())
      ensures CoordinatorModel.NodesConnected(Abs()) <= n
      ensures n == 0 <==> CoordinatorModel.NodesConnected(Abs()) == 0
    {
      n := |pool|;
      CoordinatorProperties.NodesAtMostClients(Abs().pool);
    }

    /** The number of distinct brokers the pooled clients are connected to. */
    method NodesConnected() returns (n: nat)
      ensures n <= |pool| && (n == 0 <==> pool == [])
      ensures n == CoordinatorModel.NodesConnected(Abs())
    {
      var seen: set<Broker> := {};
      for i := 0 to |pool|
        invariant seen == Brokers(pool[..i])
      {
        CoordinatorProperties.BrokersSnoc(pool[..i + 1]);
        assert pool[..i + 1][..i] == pool[..i];
        seen := seen + {pool[i].broker};
      }
      assert pool[..|pool|] == pool;
      CoordinatorProperties.NodesAtMostClients(pool);
      n := |seen|;
    }

    /** Asks the locator once about the stream. */
    method Query(stream: string) returns (answer: Option<StreamMetadata>)
      modifies this
      ensures (answer, Abs()) == CoordinatorModel.Query(cfg, old(Abs()), stream)
    {
      var n := if stream in served then served[stream] else 0;
      answer := ScriptedAnswer(cfg.script, stream, n);
      served := served[stream := n + 1];
    }

    /** The retried leader lookup: at most `attempts` queries. */
    method LookupLeader(stream: string, attempts: nat) returns (leader: Option<Broker>)
      modifies this
      ensures (leader, Abs()) == CoordinatorModel.LookupLeader(cfg, old(Abs()), stream, attempts)
    {
      leader := None;
      var n: nat := attempts;
      while n > 0
        invariant n <= attempts
        invariant CoordinatorModel.LookupLeader(cfg, Abs(), stream, n) ==
                  CoordinatorModel.LookupLeader(cfg, old(Abs()), stream, attempts)
        decreases n
      {
        var answer := Query(stream);
        match Classify(answer)
        case Ok(b) =>
          leader := Some(b);
          return;
        case Err(StreamDoesNotExistError) =>
          return;
        case Err(IllegalStateError) =>
          n := n - 1;
      }
    }

    /** Binds agent h to the first client of the broker with room, opening one when none
        has room. */
    method Attach(h: nat, broker: Broker)
      requires ConfigOk(cfg) && h < |agents|
      modifies this
      ensures Abs() == CoordinatorModel.Attach(cfg, old(Abs()), h, broker)
    {
      var a := agents[h];
      var i := FindClient(a.kind, broker);
      if i == |pool| {
        pool := pool + [NewClient(nextClientId, broker)];
        nextClientId := nextClientId + 1;
      }
      var c := pool[i];
      match a.kind {
        case Producer =>
          var id := FreePublisherId(c.producers, cfg.maxProducers);
          pool := pool[i := c.(producers := c.producers[id := h])];
          agents := agents[h := Bound(a, c.id, id)];
        case TrackingConsumer =>
          pool := pool[i := c.(trackers := c.trackers + {h})];
          agents := agents[h := Bound(a, c.id, a.publisherId)];
      }
    }

    /** registerProducer / registerTrackingConsumer: the new handle, or the error the
        locator's answer calls for. */
    method Register(kind: Kind, stream: string, isOpen: bool) returns (res: Result<nat, RegisterError>)
      requires Valid()
      modifies this
      ensures Valid()
      ensures (res, Abs()) == CoordinatorModel.Register(cfg, old(Abs()), kind, stream, isOpen)
    {
      CoordinatorInvariants.RegisterInv(cfg, Abs(), kind, stream, isOpen);
      var answer := Query(stream);
      match Classify(answer) {
        case Err(e) =>
          res := Err(e);
        case Ok(leader) =>
          var h := |agents|;
          agents := agents + [NewAgent(kind, stream, isOpen)];
          Attach(h, leader);
          res := Ok(h);
      }
    }

    /** The cleanup callback of agent h. */
    method Cleanup(h: nat)
      requires Valid()
      modifies this
      ensures Valid()
      ensures Abs() == CoordinatorModel.Cleanup(old(Abs()), h)
    {
      CoordinatorInvariants.CleanupInv(cfg, Abs(), h);
      if h < |agents| && agents[h].client.Some? {
        var a := agents[h];
        var i := IndexOf(a.client.value);
        agents := agents[h := a.(client := None)];
        if i < |pool| {
          var c := Slotless(pool[i], a, h);
          if IsEmpty(c) {
            pool := pool[..i] + pool[i + 1..];
          } else {
            pool := pool[i := c];
          }
        }
      }
    }

    /** Marks every agent of the snapshot unavailable and unbound. */
    method PauseAll(ms: seq<nat>)
      requires forall x, y :: 0 <= x < y < |ms| ==> ms[x] != ms[y]
      modifies this
      ensures Abs() == old(Abs()).(agents := Pause(old(agents), ms))
    {
      for x := 0 to |ms|
        invariant pool == old(pool) && nextClientId == old(nextClientId) && served == old(served)
        invariant |agents| == |old(agents)|
        invariant forall k :: 0 <= k < |agents| ==>
                    agents[k] == if k in ms[..x] then Unavailable(old(agents)[k]) else old(agents)[k]
      {
        var h := ms[x];
        if h < |agents| {
          agents := agents[h := Unavailable(agents[h])];
        }
        assert ms[..x + 1] == ms[..x] + [h];
      }
      assert ms[..|ms|] == ms;
    }

    /** Recovery of agent h. */
    method Recover(h: nat, attempts: nat)
      requires ConfigOk(cfg) && h < |agents|
      modifies this
      ensures Abs() == CoordinatorModel.Recover(cfg, old(Abs()), h, attempts)
    {
      var a := agents[h];
      var leader := LookupLeader(a.stream, attempts);
      match leader {
        case Some(b) =>
          if a.isOpen {
            Attach(h, b);
            agents := agents[h := Running(agents[h])];
          }
        case None =>
          if a.kind == Producer {
            agents := agents[h := Disposed(a)];
          }
      }
    }

    /** Recovers the agents of the snapshot one after the other. */
    method RecoverAll(hs: seq<nat>, attempts: nat)
      requires ConfigOk(cfg)
      requires forall x :: 0 <= x < |hs| ==> hs[x] < |agents|
      modifies this
      ensures Abs() == CoordinatorModel.RecoverAll(cfg, old(Abs()), hs, attempts)
    {
      for x := 0 to |hs|
        invariant |agents| == |old(agents)|
        invariant CoordinatorModel.RecoverAll(cfg, Abs(), hs[x..], attempts) ==
                  CoordinatorModel.RecoverAll(cfg, old(Abs()), hs, attempts)
      {
        assert hs[x..][1..] == hs[x + 1..];
        Recover(hs[x], attempts);
      }
    }

    /** The shutdown listener of client clientId. */
    method OnShutdown(clientId: nat)
      requires Valid()
      modifies this
      ensures Valid()
      ensures Abs() == CoordinatorModel.OnShutdown(cfg, old(Abs()), clientId)
    {
      CoordinatorInvariants.ShutdownInv(cfg, Abs(), clientId);
      var i := IndexOf(clientId);
      if i < |pool| {
        var ms := Snapshot(clientId, None);
        pool := pool[..i] + pool[i + 1..];
        PauseAll(ms);
        RecoverAll(ms, cfg.recoveryAttempts);
      }
    }

    /** The metadata listener of client clientId, for one stream. */
    method OnMetadataUpdate(clientId: nat, stream: string)
      requires Valid()
      modifies this
      ensures Valid()
      ensures Abs() == CoordinatorModel.OnMetadataUpdate(cfg, old(Abs()), clientId, stream)
    {
      CoordinatorInvariants.MetadataUpdateInv(cfg, Abs(), clientId, stream);
      var i := IndexOf(clientId);
      if i < |pool| {
        var ms := Snapshot(clientId, Some(stream));
        var c := WithoutAgents(pool[i], ms);
        if IsEmpty(c) {
          pool := pool[..i] + pool[i + 1..];
        } else {
          pool := pool[i := c];
        }
        PauseAll(ms);
        RecoverAll(ms, cfg.topologyUpdateAttempts);
      }
    }
  }
}
