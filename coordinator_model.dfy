/**
 * The producers coordinator as a pure state machine.
 *
 * The coordinator maps producers and tracking consumers ("agents") onto a pool of
 * client connections, one or more per leader broker. Each client has a bounded set of
 * producer slots addressed by a one-byte publisher id and a separate bounded set of
 * tracking-consumer slots. This module gives every operation of the coordinator as a
 * function from the old state to the new one; the class in module ProducersCoordinator
 * implements the same operations step by step and is proved equal to these functions.
 */
module CoordinatorModel {
  import opened Wrappers

  /** A publisher id travels as a single byte; modelled by its unsigned value. */
  type PublisherId = x: int | 0 <= x < 256

  datatype Broker = Broker(host: string, port: int)

  datatype ResponseCode = ResponseOk | ResponseStreamDoesNotExist | ResponseOther(code: int)

  /** One stream's entry in the locator's metadata answer. */
  datatype StreamMetadata = StreamMetadata(code: ResponseCode, leader: Option<Broker>)

  /** The two exceptions registration can raise. */
  datatype RegisterError = StreamDoesNotExistError | IllegalStateError

  datatype Kind = Producer | TrackingConsumer

  /** How many times each callback of an agent has been invoked (setClient counts
      setTrackingClient for a tracking consumer). */
  datatype Calls = Calls(setClient: nat, unavailable: nat, running: nat, closeAfterStreamDeletion: nat)

  /**
   * A registered producer or tracking consumer: the stream it works on, its answer to
   * isOpen(), the client it is currently bound to (by client id), the last publisher id
   * it was given, and its callback counters.
   */
  datatype Agent = Agent(kind: Kind, stream: string, isOpen: bool, client: Option<nat>,
                         publisherId: PublisherId, calls: Calls)

  /** A pooled client: its id, the leader broker it is connected to, its producer slots
      (publisher id to agent) and its tracking-consumer slots (agents). */
  datatype Client = Client(id: nat, broker: Broker, producers: map<PublisherId, nat>, trackers: set<nat>)

  /**
   * Fixed parameters: the two per-client capacities, the attempt budgets of the recovery
   * and topology-update back-off policies, and the locator's answers per stream.
   */
  datatype Config = Config(maxProducers: nat, maxTrackingConsumers: nat,
                           recoveryAttempts: nat, topologyUpdateAttempts: nat,
                           script: map<string, seq<StreamMetadata>>)

  /** The pool in creation order, the agents by handle, the next client id, and how many
      times the locator has been asked about each stream. */
  datatype State = State(pool: seq<Client>, agents: seq<Agent>, nextClientId: nat, served: map<string, nat>)

  predicate ConfigOk(cfg: Config) {
    0 < cfg.maxProducers <= 256 && 0 < cfg.maxTrackingConsumers
  }

  /** Every publisher id in use lies below the producer capacity. */
  predicate PoolWf(cfg: Config, pool: seq<Client>) {
    forall i, k :: 0 <= i < |pool| && k in pool[i].producers ==> k < cfg.maxProducers
  }

  /** Agent h, described by a, occupies a slot of client c. */
  predicate Holds(c: Client, h: nat, a: Agent) {
    match a.kind
    case Producer => a.publisherId in c.producers && c.producers[a.publisherId] == h
    case TrackingConsumer => h in c.trackers
  }

  /**
   * A pooled client is never empty, stays within both capacities, and every slot holds a
   * registered agent of the slot's kind that is bound to this client (a producer under
   * the publisher id it was given).
   */
  ghost predicate ClientInv(cfg: Config, st: State, c: Client) {
    c.id < st.nextClientId && !IsEmpty(c) &&
    |c.producers| <= cfg.maxProducers && |c.trackers| <= cfg.maxTrackingConsumers &&
    (forall k :: k in c.producers ==>
       c.producers[k] < |st.agents| && st.agents[c.producers[k]].kind == Producer &&
       st.agents[c.producers[k]].client == Some(c.id) && st.agents[c.producers[k]].publisherId == k) &&
    (forall t :: t in c.trackers ==>
       t < |st.agents| && st.agents[t].kind == TrackingConsumer && st.agents[t].client == Some(c.id))
  }

  /** Every pooled client is well formed. */
  ghost predicate ClientsInv(cfg: Config, st: State) {
    forall i :: 0 <= i < |st.pool| ==> ClientInv(cfg, st, st.pool[i])
  }

  ghost predicate DistinctIds(pool: seq<Client>) {
    forall i, j :: 0 <= i < j < |pool| ==> pool[i].id != pool[j].id
  }

  /** An agent bound to a pooled client occupies a slot of that client. */
  ghost predicate BindingsHeld(st: State) {
    (forall h :: 0 <= h < |st.agents| && st.agents[h].client.Some? ==> st.agents[h].client.value < st.nextClientId) &&
    (forall i, h :: 0 <= i < |st.pool| && 0 <= h < |st.agents| && st.agents[h].client == Some(st.pool[i].id) ==>
       Holds(st.pool[i], h, st.agents[h]))
  }

  /**
   * The coordinator's invariant: valid capacities, well-formed clients with distinct ids,
   * and an agent bound to a pooled client occupies a slot of that client.
   */
  ghost predicate Inv(cfg: Config, st: State) {
    ConfigOk(cfg) && PoolWf(cfg, st.pool) && ClientsInv(cfg, st) && DistinctIds(st.pool) && BindingsHeld(st)
  }

  function Init(): State {
    State([], [], 0, map[])
  }

  // ---------------------------------------------------------------- locator

  function Min(a: nat, b: nat): nat { if a <= b then a else b }

  /**
   * The locator's answer to its n-th query about a stream: the scripted answers in turn,
   * the last one repeated; no entry at all when nothing is scripted for the stream.
   */
  function ScriptedAnswer(script: map<string, seq<StreamMetadata>>, stream: string, n: nat): (r: Option<StreamMetadata>)
    ensures r.None? <==> stream !in script || script[stream] == []
    ensures stream in script && n < |script[stream]| ==> r == Some(script[stream][n])
    ensures stream in script && |script[stream]| > 0 && n >= |script[stream]| ==>
              r == Some(script[stream][|script[stream]| - 1])
  {
    if stream !in script || script[stream] == [] then None
    else Some(script[stream][Min(n, |script[stream]| - 1)])
  }

  function Served(st: State, stream: string): nat {
    if stream in st.served then st.served[stream] else 0
  }

  /** Asks the locator once about a stream. */
  function Query(cfg: Config, st: State, stream: string): (Option<StreamMetadata>, State) {
    (ScriptedAnswer(cfg.script, stream, Served(st, stream)),
     st.(served := st.served[stream := Served(st, stream) + 1]))
  }

  /**
   * Registration outcome from the locator's answer: no entry or "stream does not exist"
   * raise StreamDoesNotExistException; any other non-ok code, or an ok answer without a
   * leader, raise IllegalStateException; otherwise the leader is the broker to attach to.
   */
  function Classify(answer: Option<StreamMetadata>): (r: Result<Broker, RegisterError>)
    ensures r == Err(StreamDoesNotExistError) <==>
              answer.None? || answer.value.code == ResponseStreamDoesNotExist
    ensures r == Err(IllegalStateError) <==>
              answer.Some? && answer.value.code != ResponseStreamDoesNotExist &&
              (answer.value.code != ResponseOk || answer.value.leader.None?)
    ensures r.Ok? <==> answer.Some? && answer.value.code == ResponseOk && answer.value.leader.Some?
    ensures r.Ok? ==> r.value == answer.value.leader.value
  {
    match answer
    case None => Err(StreamDoesNotExistError)
    case Some(m) =>
      if m.code == ResponseStreamDoesNotExist then Err(StreamDoesNotExistError)
      else if m.code != ResponseOk || m.leader.None? then Err(IllegalStateError)
      else Ok(m.leader.value)
  }

  /**
   * The retried leader lookup of recovery: at most `attempts` queries; stops at the first
   * answer naming a leader, gives up at once when the stream does not exist, and retries
   * after any other failed answer.
   */
  function LookupLeader(cfg: Config, st: State, stream: string, attempts: nat): (r: (Option<Broker>, State))
    ensures r.1 == st.(served := r.1.served)
    decreases attempts
  {
    if attempts == 0 then (None, st)
    else
      var (answer, st1) := Query(cfg, st, stream);
      match Classify(answer)
      case Ok(leader) => (Some(leader), st1)
      case Err(StreamDoesNotExistError) => (None, st1)
      case Err(IllegalStateError) => LookupLeader(cfg, st1, stream, attempts - 1)
  }

  // ---------------------------------------------------------------- placement

  predicate HasRoom(cfg: Config, c: Client, kind: Kind) {
    match kind
    case Producer => |c.producers| < cfg.maxProducers
    case TrackingConsumer => |c.trackers| < cfg.maxTrackingConsumers
  }

  predicate Fits(cfg: Config, c: Client, kind: Kind, broker: Broker) {
    c.broker == broker && HasRoom(cfg, c, kind)
  }

  /** First fit: the first client, in creation order, connected to the broker and with a
      free slot of the kind; |pool| when there is none. */
  function FirstFit(cfg: Config, pool: seq<Client>, kind: Kind, broker: Broker): (i: nat)
    ensures i <= |pool|
    ensures i < |pool| ==> Fits(cfg, pool[i], kind, broker)
    ensures forall j :: 0 <= j < i ==> !Fits(cfg, pool[j], kind, broker)
  {
    if pool == [] then 0
    else if Fits(cfg, pool[0], kind, broker) then 0
    else 1 + FirstFit(cfg, pool[1..], kind, broker)
  }

  /** Pigeonhole: a set of ids holding every id below k has at least k elements. */
  lemma {:induction false} CoversRange(ids: set<PublisherId>, k: nat)
    requires k <= 256
    requires forall j: PublisherId :: j < k ==> j in ids
    ensures |ids| >= k
  {
    if k > 0 {
      CoversRange(ids - {k - 1}, k - 1);
    }
  }

  function FreeIdFrom(ids: map<PublisherId, nat>, max: nat, k: nat): (r: PublisherId)
    requires max <= 256 && |ids| < max && k <= max
    requires forall j: PublisherId :: j < k ==> j in ids
    ensures k <= r < max && r !in ids
    ensures forall j: PublisherId :: j < r ==> j in ids
    decreases max - k
  {
    CoversRange(ids.Keys, k);
    if k !in ids then k else FreeIdFrom(ids, max, k + 1)
  }

  /** The lowest publisher id not in use in a client that has room for a producer. */
  function LowestFreeId(ids: map<PublisherId, nat>, max: nat): (r: PublisherId)
    requires max <= 256 && |ids| < max
    ensures r < max && r !in ids
    ensures forall j: PublisherId :: j < r ==> j in ids
  {
    FreeIdFrom(ids, max, 0)
  }

  function NewClient(id: nat, broker: Broker): Client {
    Client(id, broker, map[], {})
  }

  function Bound(a: Agent, clientId: nat, id: PublisherId): Agent {
    a.(client := Some(clientId), publisherId := id, calls := a.calls.(setClient := a.calls.setClient + 1))
  }

  /**
   * Binds agent h to the first client for the broker with room for it, opening a new
   * client at the end of the pool when none has room; a producer takes the lowest free
   * publisher id of that client. The agent's setClient callback runs once.
   */
  function Attach(cfg: Config, st: State, h: nat, broker: Broker): (r: State)
    requires ConfigOk(cfg) && h < |st.agents|
    ensures |r.agents| == |st.agents| && r.served == st.served
    ensures PoolWf(cfg, st.pool) ==> PoolWf(cfg, r.pool)
  {
    var a := st.agents[h];
    var i := FirstFit(cfg, st.pool, a.kind, broker);
    var pool := if i < |st.pool| then st.pool else st.pool + [NewClient(st.nextClientId, broker)];
    var next := if i < |st.pool| then st.nextClientId else st.nextClientId + 1;
    var c := pool[i];
    match a.kind
    case Producer =>
      var id := LowestFreeId(c.producers, cfg.maxProducers);
      State(pool[i := c.(producers := c.producers[id := h])], st.agents[h := Bound(a, c.id, id)], next, st.served)
    case TrackingConsumer =>
      State(pool[i := c.(trackers := c.trackers + {h})], st.agents[h := Bound(a, c.id, a.publisherId)], next, st.served)
  }

  function NewAgent(kind: Kind, stream: string, isOpen: bool): Agent {
    Agent(kind, stream, isOpen, None, 0, Calls(0, 0, 0, 0))
  }

  /**
   * registerProducer / registerTrackingConsumer: query the locator, fail with the
   * classified error, or add the agent under a fresh handle and attach it to the leader.
   */
  function Register(cfg: Config, st: State, kind: Kind, stream: string, isOpen: bool): (r: (Result<nat, RegisterError>, State))
    requires ConfigOk(cfg)
  {
    var (answer, st1) := Query(cfg, st, stream);
    match Classify(answer)
    case Err(e) => (Err(e), st1)
    case Ok(leader) =>
      var h := |st1.agents|;
      (Ok(h), Attach(cfg, st1.(agents := st1.agents + [NewAgent(kind, stream, isOpen)]), h, leader))
  }

  // ---------------------------------------------------------------- cleanup

  /** The position of the client with the given id; |pool| when there is none. */
  function IndexOfClient(pool: seq<Client>, id: nat): (i: nat)
    ensures i <= |pool|
    ensures i < |pool| ==> pool[i].id == id
    ensures forall j :: 0 <= j < i ==> pool[j].id != id
  {
    if pool == [] then 0
    else if pool[0].id == id then 0
    else 1 + IndexOfClient(pool[1..], id)
  }

  predicate IsEmpty(c: Client) {
    c.producers == map[] && c.trackers == {}
  }

  function Remove<T>(s: seq<T>, i: nat): (r: seq<T>)
    requires i < |s|
    ensures |r| == |s| - 1
    ensures forall j :: 0 <= j < i ==> r[j] == s[j]
    ensures forall j :: i <= j < |r| ==> r[j] == s[j + 1]
  {
    s[..i] + s[i + 1..]
  }

  /** Puts back a client that lost attachments, or closes it (drops it from the pool)
      when it has none left. */
  function Evict(pool: seq<Client>, i: nat, c: Client): seq<Client>
    requires i < |pool|
  {
    if IsEmpty(c) then Remove(pool, i) else pool[i := c]
  }

  function Slotless(c: Client, a: Agent, h: nat): Client {
    match a.kind
    case Producer => c.(producers := c.producers - {a.publisherId})
    case TrackingConsumer => c.(trackers := c.trackers - {h})
  }

  /** The cleanup callback returned by registration: frees the agent's slot and closes
      its client when that was the client's last attachment. */
  function Cleanup(st: State, h: nat): (r: State)
  {
    if h >= |st.agents| || st.agents[h].client.None? then st
    else
      var a := st.agents[h];
      var i := IndexOfClient(st.pool, a.client.value);
      var agents := st.agents[h := a.(client := None)];
      if i == |st.pool| then st.(agents := agents)
      else st.(pool := Evict(st.pool, i, Slotless(st.pool[i], a, h)), agents := agents)
  }

  // ---------------------------------------------------------------- recovery

  /** Agents bound to the client, restricted to one stream when one is given. */
  predicate Affected(a: Agent, clientId: nat, stream: Option<string>) {
    a.client == Some(clientId) && (stream.None? || a.stream == stream.value)
  }

  function AffectedUpTo(agents: seq<Agent>, clientId: nat, stream: Option<string>, n: nat): (r: seq<nat>)
    requires n <= |agents|
    ensures forall x :: 0 <= x < |r| ==> r[x] < n
  {
    if n == 0 then []
    else AffectedUpTo(agents, clientId, stream, n - 1) +
         (if Affected(agents[n - 1], clientId, stream) then [n - 1] else [])
  }

  /** The snapshot below n holds exactly the affected agents below n, each once, in
      increasing handle order. */
  lemma AffectedUpToSpec(agents: seq<Agent>, clientId: nat, stream: Option<string>, n: nat)
    requires n <= |agents|
    ensures var r := AffectedUpTo(agents, clientId, stream, n);
            (forall x :: 0 <= x < |r| ==> Affected(agents[r[x]], clientId, stream)) &&
            (forall k :: 0 <= k < n ==> (k in r <==> Affected(agents[k], clientId, stream))) &&
            (forall x, y :: 0 <= x < y < |r| ==> r[x] < r[y])
  {
    AffectedUpToMembers(agents, clientId, stream, n);
    AffectedUpToSorted(agents, clientId, stream, n);
  }

  lemma {:induction false} AffectedUpToMembers(agents: seq<Agent>, clientId: nat, stream: Option<string>, n: nat)
    requires n <= |agents|
    ensures var r := AffectedUpTo(agents, clientId, stream, n);
            forall k :: 0 <= k < n ==> (k in r <==> Affected(agents[k], clientId, stream))
  {
    if n > 0 {
      AffectedUpToMembers(agents, clientId, stream, n - 1);
      var prev := AffectedUpTo(agents, clientId, stream, n - 1);
      var tail := if Affected(agents[n - 1], clientId, stream) then [n - 1] else [];
      assert AffectedUpTo(agents, clientId, stream, n) == prev + tail;
      forall k | 0 <= k < n
        ensures k in prev + tail <==> Affected(agents[k], clientId, stream)
      {
        assert k in prev + tail <==> k in prev || k in tail;
      }
    }
  }

  /** Strictly increasing, hence free of repeats. */
  predicate Increasing(s: seq<nat>) {
    forall x, y :: 0 <= x < y < |s| ==> s[x] < s[y]
  }

  lemma {:induction false} AffectedUpToSorted(agents: seq<Agent>, clientId: nat, stream: Option<string>, n: nat)
    requires n <= |agents|
    ensures Increasing(AffectedUpTo(agents, clientId, stream, n))
  {
    if n > 0 {
      AffectedUpToSorted(agents, clientId, stream, n - 1);
      var prev := AffectedUpTo(agents, clientId, stream, n - 1);
      assert Increasing(prev);
      var tail := if Affected(agents[n - 1], clientId, stream) then [n - 1] else [];
      var r := prev + tail;
      assert AffectedUpTo(agents, clientId, stream, n) == r;
      forall x, y | 0 <= x < y < |r|
        ensures r[x] < r[y]
      {
        if y < |prev| {
          assert r[x] == prev[x] && r[y] == prev[y];
        } else {
          assert r[x] == prev[x] && prev[x] < n - 1;
          assert r[y] == n - 1;
        }
      }
    }
  }

  /** The snapshot of affected agents, in handle order. */
  function AffectedAgents(agents: seq<Agent>, clientId: nat, stream: Option<string>): seq<nat> {
    AffectedUpTo(agents, clientId, stream, |agents|)
  }

  function Unavailable(a: Agent): Agent {
    a.(client := None, calls := a.calls.(unavailable := a.calls.unavailable + 1))
  }

  /** Marks every agent of the snapshot unavailable and unbound, before any recovery. */
  function Pause(agents: seq<Agent>, ms: seq<nat>): (r: seq<Agent>)
    ensures |r| == |agents|
  {
    seq(|agents|, k requires 0 <= k < |agents| => if k in ms then Unavailable(agents[k]) else agents[k])
  }

  function Running(a: Agent): Agent {
    a.(calls := a.calls.(running := a.calls.running + 1))
  }

  function Disposed(a: Agent): Agent {
    a.(calls := a.calls.(closeAfterStreamDeletion := a.calls.closeAfterStreamDeletion + 1))
  }

  /**
   * Recovery of one agent: look the leader up; if found and the agent is still open,
   * bind it again and signal running; if found but the agent is closed, do nothing more;
   * if the lookup gives up, a producer is closed after stream deletion and a tracking
   * consumer stays unavailable.
   */
  function Recover(cfg: Config, st: State, h: nat, attempts: nat): (r: State)
    requires ConfigOk(cfg) && h < |st.agents|
    ensures |r.agents| == |st.agents|
    ensures PoolWf(cfg, st.pool) ==> PoolWf(cfg, r.pool)
  {
    var a := st.agents[h];
    var (leader, st1) := LookupLeader(cfg, st, a.stream, attempts);
    match leader
    case Some(b) =>
      if a.isOpen then
        var st2 := Attach(cfg, st1, h, b);
        st2.(agents := st2.agents[h := Running(st2.agents[h])])
      else st1
    case None =>
      if a.kind == Producer then st1.(agents := st1.agents[h := Disposed(a)]) else st1
  }

  function RecoverAll(cfg: Config, st: State, hs: seq<nat>, attempts: nat): (r: State)
    requires ConfigOk(cfg)
    requires forall x :: 0 <= x < |hs| ==> hs[x] < |st.agents|
    ensures |r.agents| == |st.agents|
    ensures PoolWf(cfg, st.pool) ==> PoolWf(cfg, r.pool)
    decreases |hs|
  {
    if hs == [] then st
    else RecoverAll(cfg, Recover(cfg, st, hs[0], attempts), hs[1..], attempts)
  }

  /**
   * The shutdown listener of a client: the client leaves the pool, every agent bound to
   * it is marked unavailable, then each is recovered under the recovery back-off budget.
   */
  function OnShutdown(cfg: Config, st: State, clientId: nat): (r: State)
    requires ConfigOk(cfg)
  {
    var i := IndexOfClient(st.pool, clientId);
    if i == |st.pool| then st
    else
      var ms := AffectedAgents(st.agents, clientId, None);
      RecoverAll(cfg, st.(pool := Remove(st.pool, i), agents := Pause(st.agents, ms)), ms, cfg.recoveryAttempts)
  }

  function WithoutAgents(c: Client, ms: seq<nat>): Client {
    c.(producers := map k | k in c.producers && c.producers[k] !in ms :: c.producers[k],
       trackers := set t | t in c.trackers && t !in ms)
  }

  /**
   * The metadata listener of a client, for one stream: only that stream's agents on the
   * client are detached (the client closes if that leaves it empty), marked unavailable,
   * and recovered under the topology-update back-off budget.
   */
  function OnMetadataUpdate(cfg: Config, st: State, clientId: nat, stream: string): (r: State)
    requires ConfigOk(cfg)
  {
    var i := IndexOfClient(st.pool, clientId);
    if i == |st.pool| then st
    else
      var ms := AffectedAgents(st.agents, clientId, Some(stream));
      var pool := Evict(st.pool, i, WithoutAgents(st.pool[i], ms));
      RecoverAll(cfg, st.(pool := pool, agents := Pause(st.agents, ms)), ms, cfg.topologyUpdateAttempts)
  }

  // ---------------------------------------------------------------- counters

  function ClientCount(st: State): nat {
    |st.pool|
  }

  function Brokers(pool: seq<Client>): set<Broker> {
    set i | 0 <= i < |pool| :: pool[i].broker
  }

  function NodesConnected(st: State): nat {
    |Brokers(st.pool)|
  }
}
