/**
 * How the pool grows and shrinks with the number of agents on one broker: agents fill
 * the clients in turn, first fit, so the x-th producer of the broker sits in client
 * x / capacity under publisher id x % capacity, and the client count is the number of
 * clients the more numerous kind needs.
 */
module CoordinatorPacking {
  import opened Wrappers
  import opened CoordinatorModel
  import CoordinatorInvariants
  import opened CoordinatorProperties

  // ------------------------------------------------------------ arithmetic

  /** The client, counted from 0, that the x-th attachment of a kind lands in: Pos(x, cap). */
  function Pos(x: nat, cap: nat): nat
    requires cap > 0
    decreases x
  {
    if x < cap then 0 else 1 + Pos(x - cap, cap)
  }

  /** Its slot within that client: Slot(x, cap). */
  function Slot(x: nat, cap: nat): (s: nat)
    requires cap > 0
    ensures s < cap
    decreases x
  {
    if x < cap then x else Slot(x - cap, cap)
  }

  /** The clients needed for k attachments of one kind at cap per client. */
  function Needed(k: nat, cap: nat): nat
    requires cap > 0
  {
    Pos(k, cap) + (if Slot(k, cap) == 0 then 0 else 1)
  }

  /** The attachments of one kind that client j holds when k of them fill the clients in turn. */
  function Share(k: nat, cap: nat, j: nat): nat
    requires cap > 0
  {
    if j < Pos(k, cap) then cap else if j == Pos(k, cap) then Slot(k, cap) else 0
  }

  function Max(a: nat, b: nat): nat { if a < b then b else a }

  lemma {:induction false} MulLe(x: nat, y: nat, c: nat)
    requires x <= y
    ensures x * c <= y * c
    decreases y - x
  {
    if x < y {
      MulLe(x, y - 1, c);
      assert y * c == (y - 1) * c + c;
    }
  }

  /** Quotient and remainder are the only ones: a == q * cap + r with r < cap fixes both. */
  lemma DivUnique(a: nat, cap: nat, q: nat, r: nat)
    requires r < cap && a == q * cap + r
    ensures a / cap == q && a % cap == r
  {
    var q1, r1 := a / cap, a % cap;
    assert a == q1 * cap + r1;
    if q1 < q {
      MulLe(q1 + 1, q, cap);
    } else if q < q1 {
      MulLe(q + 1, q1, cap);
    }
  }

  /** Pos and Slot are quotient and remainder. */
  lemma {:induction false} PosIsDiv(x: nat, cap: nat)
    requires cap > 0
    ensures Pos(x, cap) == x / cap && Slot(x, cap) == x % cap
    decreases x
  {
    if x < cap {
      DivUnique(x, cap, 0, x);
    } else {
      PosIsDiv(x - cap, cap);
      var q, r := (x - cap) / cap, (x - cap) % cap;
      assert x - cap == q * cap + r;
      assert (q + 1) * cap == q * cap + cap;
      DivUnique(x, cap, q + 1, r);
    }
  }

  /** The attachment q * cap + r, for r below the capacity, is slot r of client q. */
  lemma PosOf(q: nat, r: nat, cap: nat)
    requires r < cap
    ensures Pos(q * cap + r, cap) == q && Slot(q * cap + r, cap) == r
  {
    PosIsDiv(q * cap + r, cap);
    DivUnique(q * cap + r, cap, q, r);
  }

  /** k attachments need k / cap clients, rounded up. */
  lemma NeededIsCeil(k: nat, cap: nat)
    requires cap > 0
    ensures Needed(k, cap) == (k + cap - 1) / cap
  {
    PosIsDiv(k, cap);
    var q, r := k / cap, k % cap;
    if r == 0 {
      DivUnique(k + cap - 1, cap, q, cap - 1);
    } else {
      assert (q + 1) * cap == q * cap + cap;
      DivUnique(k + cap - 1, cap, q + 1, r - 1);
    }
  }

  /** k == q * cap + r attachments, r below the capacity, need q clients, plus one when r > 0. */
  lemma NeededOf(k: nat, q: nat, r: nat, cap: nat)
    requires r < cap && k == q * cap + r
    ensures Needed(k, cap) == if r == 0 then q else q + 1
  {
    PosOf(q, r, cap);
  }

  /** One more attachment moves to the next client exactly when the slot wraps. */
  lemma {:induction false} PosStep(k: nat, cap: nat)
    requires cap > 0
    ensures Pos(k + 1, cap) == Pos(k, cap) + (if Slot(k, cap) == cap - 1 then 1 else 0)
    ensures Slot(k + 1, cap) == (if Slot(k, cap) == cap - 1 then 0 else Slot(k, cap) + 1)
    decreases k
  {
    if k >= cap {
      PosStep(k - cap, cap);
    } else if k + 1 == cap {
      assert Pos(k + 1, cap) == 1 + Pos(0, cap);
    }
  }

  lemma {:induction false} PosMono(x: nat, k: nat, cap: nat)
    requires cap > 0 && x <= k
    ensures Pos(x, cap) <= Pos(k, cap)
    decreases k
  {
    if x >= cap {
      PosMono(x - cap, k - cap, cap);
    }
  }

  lemma {:induction false} SlotOrder(x: nat, k: nat, cap: nat)
    requires cap > 0 && x < k && Pos(x, cap) == Pos(k, cap)
    ensures Slot(x, cap) < Slot(k, cap)
    decreases k
  {
    if x >= cap {
      SlotOrder(x - cap, k - cap, cap);
    }
  }

  /** The k-th attachment goes to client Pos(k), and no other client's share changes. */
  lemma ShareNext(k: nat, cap: nat, j: nat)
    requires cap > 0
    ensures Share(k + 1, cap, j) == Share(k, cap, j) + (if j == Pos(k, cap) then 1 else 0)
  {
    PosStep(k, cap);
  }

  /** A client holds some attachment exactly when it is one of the clients needed. */
  lemma ShareLoad(k: nat, cap: nat, j: nat)
    requires cap > 0
    ensures Share(k, cap, j) > 0 <==> j < Needed(k, cap)
  {
  }

  /** The x-th attachment lies in client Pos(x), under a slot below that client's share. */
  lemma ShareAt(x: nat, k: nat, cap: nat)
    requires cap > 0 && x < k
    ensures Pos(x, cap) <= Pos(k, cap) && Slot(x, cap) < Share(k, cap, Pos(x, cap))
  {
    PosMono(x, k, cap);
    if Pos(x, cap) == Pos(k, cap) {
      SlotOrder(x, k, cap);
    }
  }

  // ------------------------------------------------------------ packed slots

  /** Every client is connected to the broker. */
  predicate OnBroker(pool: seq<Client>, broker: Broker) {
    forall j :: 0 <= j < |pool| ==> pool[j].broker == broker
  }

  /** Changing client q, or adding it at the end, keeps the pool on the broker when q is on it. */
  lemma OnBrokerAt(pool: seq<Client>, pool2: seq<Client>, broker: Broker, q: nat)
    requires OnBroker(pool, broker) && q < |pool2| <= |pool| + 1 && pool2[q].broker == broker
    requires forall j :: 0 <= j < |pool| && j < |pool2| && j != q ==> pool2[j] == pool[j]
    requires |pool| < |pool2| ==> q == |pool|
    ensures OnBroker(pool2, broker)
  {
  }

  /**
   * The producers ps, in registration order, fill the clients in turn: client j holds
   * exactly the publisher ids below its share, the x-th producer under id Slot(x, cap) of
   * client Pos(x, cap), and a client past the end of the pool would hold none.
   */
  predicate ProducerSlots(cap: nat, pool: seq<Client>, ps: seq<nat>)
    requires 0 < cap <= 256
  {
    (forall j :: 0 <= j < |pool| ==> |pool[j].producers| == Share(|ps|, cap, j)) &&
    (forall j, k: PublisherId :: 0 <= j < |pool| ==> (k in pool[j].producers <==> k < Share(|ps|, cap, j))) &&
    Needed(|ps|, cap) <= |pool| &&
    (forall x :: 0 <= x < |ps| ==>
       Pos(x, cap) < |pool| && Slot(x, cap) in pool[Pos(x, cap)].producers && pool[Pos(x, cap)].producers[Slot(x, cap)] == ps[x])
  }

  /** The same for the tracking consumers ts, which are told apart by handle. */
  predicate TrackerSlots(cap: nat, pool: seq<Client>, ts: seq<nat>)
    requires 0 < cap
  {
    (forall j :: 0 <= j < |pool| ==> |pool[j].trackers| == Share(|ts|, cap, j)) &&
    Needed(|ts|, cap) <= |pool| &&
    (forall y :: 0 <= y < |ts| ==> Pos(y, cap) < |pool| && ts[y] in pool[Pos(y, cap)].trackers) &&
    (forall y1, y2 :: 0 <= y1 < y2 < |ts| ==> ts[y1] != ts[y2])
  }

  /** Producer slots survive any change that leaves every client's producers alone and
      only opens or closes clients without producers. */
  lemma ProducerSlotsKeep(cap: nat, pool: seq<Client>, pool2: seq<Client>, ps: seq<nat>)
    requires 0 < cap <= 256 && ProducerSlots(cap, pool, ps)
    requires forall j :: 0 <= j < |pool| && j < |pool2| ==> pool2[j].producers == pool[j].producers
    requires forall j :: |pool| <= j < |pool2| ==> pool2[j].producers == map[]
    requires forall j :: |pool2| <= j < |pool| ==> pool[j].producers == map[]
    ensures ProducerSlots(cap, pool2, ps)
  {
    forall x | 0 <= x < |ps| ensures Pos(x, cap) < |pool2| {
      assert Slot(x, cap) in pool[Pos(x, cap)].producers;
    }
    if |pool2| < Needed(|ps|, cap) {
      var j := Needed(|ps|, cap) - 1;
      ShareLoad(|ps|, cap, j);
    }
  }

  lemma TrackerSlotsKeep(cap: nat, pool: seq<Client>, pool2: seq<Client>, ts: seq<nat>)
    requires 0 < cap && TrackerSlots(cap, pool, ts)
    requires forall j :: 0 <= j < |pool| && j < |pool2| ==> pool2[j].trackers == pool[j].trackers
    requires forall j :: |pool| <= j < |pool2| ==> pool2[j].trackers == {}
    requires forall j :: |pool2| <= j < |pool| ==> pool[j].trackers == {}
    ensures TrackerSlots(cap, pool2, ts)
  {
    forall y | 0 <= y < |ts| ensures Pos(y, cap) < |pool2| {
      assert ts[y] in pool[Pos(y, cap)].trackers;
    }
    if |pool2| < Needed(|ts|, cap) {
      var j := Needed(|ts|, cap) - 1;
      ShareLoad(|ts|, cap, j);
    }
  }

  /** A new attachment at client q = Pos(n) raises that client's load by one; a client
      opened for it starts empty. */
  lemma LoadsAdd(cap: nat, loads: seq<nat>, loads2: seq<nat>, n: nat)
    requires 0 < cap && Needed(n, cap) <= |loads|
    requires forall j :: 0 <= j < |loads| ==> loads[j] == Share(n, cap, j)
    requires Pos(n, cap) <= |loads|
    requires |loads2| == if Pos(n, cap) < |loads| then |loads| else |loads| + 1
    requires forall j :: 0 <= j < |loads| && j != Pos(n, cap) ==> loads2[j] == loads[j]
    requires loads2[Pos(n, cap)] == (if Pos(n, cap) < |loads| then loads[Pos(n, cap)] else 0) + 1
    ensures forall j :: 0 <= j < |loads2| ==> loads2[j] == Share(n + 1, cap, j)
    ensures Needed(n + 1, cap) <= |loads2|
  {
    forall j | 0 <= j < |loads2| ensures loads2[j] == Share(n + 1, cap, j) {
      ShareNext(n, cap, j);
      if j == Pos(n, cap) && j == |loads| {
        ShareLoad(n, cap, j);
      }
    }
    PosStep(n, cap);
  }

  function ProducerLoads(pool: seq<Client>): seq<nat> {
    seq(|pool|, j requires 0 <= j < |pool| => |pool[j].producers|)
  }

  function TrackerLoads(pool: seq<Client>): seq<nat> {
    seq(|pool|, j requires 0 <= j < |pool| => |pool[j].trackers|)
  }

  /** The x-th producer of ps + [h] sits where it sat before; h takes the next slot. */
  lemma ProducerPlacesAdd(cap: nat, pool: seq<Client>, pool2: seq<Client>, ps: seq<nat>, h: nat)
    requires 0 < cap <= 256 && Pos(|ps|, cap) < |pool2| && |pool| <= |pool2|
    requires forall x :: 0 <= x < |ps| ==>
               Pos(x, cap) < |pool| && Slot(x, cap) in pool[Pos(x, cap)].producers &&
               pool[Pos(x, cap)].producers[Slot(x, cap)] == ps[x]
    requires forall j :: 0 <= j < |pool| && j != Pos(|ps|, cap) ==> pool2[j].producers == pool[j].producers
    requires pool2[Pos(|ps|, cap)].producers ==
             (if Pos(|ps|, cap) < |pool| then pool[Pos(|ps|, cap)].producers else map[])[Slot(|ps|, cap) := h]
    requires forall x :: 0 <= x < |ps| && Pos(x, cap) == Pos(|ps|, cap) ==> Slot(x, cap) != Slot(|ps|, cap)
    ensures forall x :: 0 <= x < |ps| + 1 ==>
              Pos(x, cap) < |pool2| && Slot(x, cap) in pool2[Pos(x, cap)].producers &&
              pool2[Pos(x, cap)].producers[Slot(x, cap)] == (ps + [h])[x]
  {
  }

  /** Only the new handle is new: tracking consumers of ts + [h] sit where they sat before. */
  lemma TrackerPlacesAdd(cap: nat, pool: seq<Client>, pool2: seq<Client>, ts: seq<nat>, h: nat)
    requires 0 < cap && Pos(|ts|, cap) < |pool2| && |pool| <= |pool2|
    requires forall y :: 0 <= y < |ts| ==> Pos(y, cap) < |pool| && ts[y] in pool[Pos(y, cap)].trackers
    requires forall j :: 0 <= j < |pool| && j != Pos(|ts|, cap) ==> pool2[j].trackers == pool[j].trackers
    requires pool2[Pos(|ts|, cap)].trackers == (if Pos(|ts|, cap) < |pool| then pool[Pos(|ts|, cap)].trackers else {}) + {h}
    ensures forall y :: 0 <= y < |ts| + 1 ==> Pos(y, cap) < |pool2| && (ts + [h])[y] in pool2[Pos(y, cap)].trackers
  {
  }

  /** A new producer takes the next slot: id Slot(|ps|, cap) of client Pos(|ps|, cap). */
  lemma ProducerSlotsAdd(cap: nat, pool: seq<Client>, pool2: seq<Client>, ps: seq<nat>, h: nat)
    requires 0 < cap <= 256 && ProducerSlots(cap, pool, ps)
    requires |pool2| == if Pos(|ps|, cap) < |pool| then |pool| else |pool| + 1
    requires forall j :: 0 <= j < |pool| && j != Pos(|ps|, cap) ==> pool2[j].producers == pool[j].producers
    requires pool2[Pos(|ps|, cap)].producers ==
             (if Pos(|ps|, cap) < |pool| then pool[Pos(|ps|, cap)].producers else map[])[Slot(|ps|, cap) := h]
    ensures ProducerSlots(cap, pool2, ps + [h])
  {
    var ps2 := ps + [h];
    ProducerCountsAdd(cap, pool, pool2, |ps|, |ps2|, h);
    SlotsBelow(cap, |ps|);
    ProducerPlacesAdd(cap, pool, pool2, ps, h);
    FoldProducers(cap, pool2, ps2);
  }

  lemma FoldProducers(cap: nat, pool: seq<Client>, ps: seq<nat>)
    requires 0 < cap <= 256
    requires forall j :: 0 <= j < |pool| ==> |pool[j].producers| == Share(|ps|, cap, j)
    requires forall j, k: PublisherId :: 0 <= j < |pool| ==> (k in pool[j].producers <==> k < Share(|ps|, cap, j))
    requires Needed(|ps|, cap) <= |pool|
    requires forall x :: 0 <= x < |ps| ==>
               Pos(x, cap) < |pool| && Slot(x, cap) in pool[Pos(x, cap)].producers &&
               pool[Pos(x, cap)].producers[Slot(x, cap)] == ps[x]
    ensures ProducerSlots(cap, pool, ps)
  {
  }

  /** Producers registered before the n-th one at client Pos(n) hold lower ids. */
  lemma SlotsBelow(cap: nat, n: nat)
    requires 0 < cap
    ensures forall x :: 0 <= x < n ==> Pos(x, cap) <= Pos(n, cap)
    ensures forall x :: 0 <= x < n && Pos(x, cap) == Pos(n, cap) ==> Slot(x, cap) != Slot(n, cap)
  {
    forall x | 0 <= x < n ensures Pos(x, cap) <= Pos(n, cap) && (Pos(x, cap) == Pos(n, cap) ==> Slot(x, cap) != Slot(n, cap)) {
      ShareAt(x, n, cap);
    }
  }

  /** Adding the n-th producer raises the load of client Pos(n) alone, under the next id. */
  lemma ProducerCountsAdd(cap: nat, pool: seq<Client>, pool2: seq<Client>, n: nat, m: nat, h: nat)
    requires 0 < cap && m == n + 1 && Needed(n, cap) <= |pool| && Pos(n, cap) <= |pool|
    requires forall j :: 0 <= j < |pool| ==> |pool[j].producers| == Share(n, cap, j)
    requires forall j, k: PublisherId :: 0 <= j < |pool| ==> (k in pool[j].producers <==> k < Share(n, cap, j))
    requires |pool2| == if Pos(n, cap) < |pool| then |pool| else |pool| + 1
    requires forall j :: 0 <= j < |pool| && j != Pos(n, cap) ==> pool2[j].producers == pool[j].producers
    requires pool2[Pos(n, cap)].producers ==
             (if Pos(n, cap) < |pool| then pool[Pos(n, cap)].producers else map[])[Slot(n, cap) := h]
    ensures forall j :: 0 <= j < |pool2| ==> |pool2[j].producers| == Share(m, cap, j)
    ensures forall j, k: PublisherId :: 0 <= j < |pool2| ==> (k in pool2[j].producers <==> k < Share(m, cap, j))
    ensures Needed(m, cap) <= |pool2|
  {
    if Pos(n, cap) == |pool| {
      ShareLoad(n, cap, Pos(n, cap));
    }
    LoadsAdd(cap, ProducerLoads(pool), ProducerLoads(pool2), n);
    ProducerKeysAdd(cap, pool, pool2, n, h);
  }

  /** The next publisher id of client Pos(n) is its share so far, so the ids in use stay
      an initial segment. */
  lemma ProducerKeysAdd(cap: nat, pool: seq<Client>, pool2: seq<Client>, n: nat, h: nat)
    requires 0 < cap && Needed(n, cap) <= |pool| && Pos(n, cap) <= |pool|
    requires forall j, k: PublisherId :: 0 <= j < |pool| ==> (k in pool[j].producers <==> k < Share(n, cap, j))
    requires |pool2| == if Pos(n, cap) < |pool| then |pool| else |pool| + 1
    requires forall j :: 0 <= j < |pool| && j != Pos(n, cap) ==> pool2[j].producers == pool[j].producers
    requires pool2[Pos(n, cap)].producers ==
             (if Pos(n, cap) < |pool| then pool[Pos(n, cap)].producers else map[])[Slot(n, cap) := h]
    ensures forall j, k: PublisherId :: 0 <= j < |pool2| ==> (k in pool2[j].producers <==> k < Share(n + 1, cap, j))
  {
    forall j, k: PublisherId | 0 <= j < |pool2| ensures k in pool2[j].producers <==> k < Share(n + 1, cap, j) {
      ShareNext(n, cap, j);
      if j == |pool| {
        ShareLoad(n, cap, j);
      }
    }
  }

  lemma TrackerSlotsAdd(cap: nat, pool: seq<Client>, pool2: seq<Client>, ts: seq<nat>, h: nat)
    requires 0 < cap && TrackerSlots(cap, pool, ts)
    requires |pool2| == if Pos(|ts|, cap) < |pool| then |pool| else |pool| + 1
    requires forall j :: 0 <= j < |pool| && j != Pos(|ts|, cap) ==> pool2[j].trackers == pool[j].trackers
    requires pool2[Pos(|ts|, cap)].trackers == (if Pos(|ts|, cap) < |pool| then pool[Pos(|ts|, cap)].trackers else {}) + {h}
    requires Pos(|ts|, cap) < |pool| ==> h !in pool[Pos(|ts|, cap)].trackers
    requires forall y :: 0 <= y < |ts| ==> ts[y] != h
    ensures TrackerSlots(cap, pool2, ts + [h])
  {
    var ts2 := ts + [h];
    TrackerCountsAdd(cap, pool, pool2, |ts|, |ts2|, h);
    TrackerPlacesAdd(cap, pool, pool2, ts, h);
    DistinctAdd(ts, h);
    FoldTrackers(cap, pool2, ts2);
  }

  lemma FoldTrackers(cap: nat, pool: seq<Client>, ts: seq<nat>)
    requires 0 < cap
    requires forall j :: 0 <= j < |pool| ==> |pool[j].trackers| == Share(|ts|, cap, j)
    requires Needed(|ts|, cap) <= |pool|
    requires forall y :: 0 <= y < |ts| ==> Pos(y, cap) < |pool| && ts[y] in pool[Pos(y, cap)].trackers
    requires forall y1, y2 :: 0 <= y1 < y2 < |ts| ==> ts[y1] != ts[y2]
    ensures TrackerSlots(cap, pool, ts)
  {
  }

  /** Adding the n-th tracking consumer raises the load of client Pos(n) alone. */
  lemma TrackerCountsAdd(cap: nat, pool: seq<Client>, pool2: seq<Client>, n: nat, m: nat, h: nat)
    requires 0 < cap && m == n + 1 && Needed(n, cap) <= |pool| && Pos(n, cap) <= |pool|
    requires forall j :: 0 <= j < |pool| ==> |pool[j].trackers| == Share(n, cap, j)
    requires |pool2| == if Pos(n, cap) < |pool| then |pool| else |pool| + 1
    requires forall j :: 0 <= j < |pool| && j != Pos(n, cap) ==> pool2[j].trackers == pool[j].trackers
    requires pool2[Pos(n, cap)].trackers == (if Pos(n, cap) < |pool| then pool[Pos(n, cap)].trackers else {}) + {h}
    requires Pos(n, cap) < |pool| ==> h !in pool[Pos(n, cap)].trackers
    ensures forall j :: 0 <= j < |pool2| ==> |pool2[j].trackers| == Share(m, cap, j)
    ensures Needed(m, cap) <= |pool2|
  {
    if Pos(n, cap) == |pool| {
      ShareLoad(n, cap, Pos(n, cap));
    }
    LoadsAdd(cap, TrackerLoads(pool), TrackerLoads(pool2), n);
  }

  /** A handle new to ts keeps ts + [h] free of repeats. */
  lemma DistinctAdd(ts: seq<nat>, h: nat)
    requires forall y1, y2 :: 0 <= y1 < y2 < |ts| ==> ts[y1] != ts[y2]
    requires forall y :: 0 <= y < |ts| ==> ts[y] != h
    ensures forall y1, y2 :: 0 <= y1 < y2 < |ts + [h]| ==> (ts + [h])[y1] != (ts + [h])[y2]
  {
  }

  // ------------------------------------------------------------ removing the last one

  /** A client needed by m attachments is still needed by one more. */
  lemma NeededNext(m: nat, cap: nat)
    requires 0 < cap
    ensures Needed(m, cap) <= Needed(m + 1, cap)
  {
    if Needed(m, cap) > 0 {
      var j := Needed(m, cap) - 1;
      ShareLoad(m, cap, j);
      ShareNext(m, cap, j);
      ShareLoad(m + 1, cap, j);
    }
  }

  /** Taking one key out of a map shrinks it by one. */
  lemma MapRemoveSize<K, V>(m: map<K, V>, k: K)
    requires k in m
    ensures |m - {k}| == |m| - 1
  {
    assert (m - {k}).Keys == m.Keys - {k};
  }

  /**
   * Freeing the slot of the last of n producers lowers the load of client Pos(n - 1)
   * alone and frees its highest id; the client may be closed only when it is the last
   * one and has no producer left.
   */
  lemma ProducerCountsRemove(cap: nat, pool: seq<Client>, pool2: seq<Client>, n: nat, m: nat)
    requires 0 < cap <= 256 && m + 1 == n && Pos(m, cap) < |pool| && Needed(n, cap) <= |pool|
    requires forall j :: 0 <= j < |pool| ==> |pool[j].producers| == Share(n, cap, j)
    requires forall j, k: PublisherId :: 0 <= j < |pool| ==> (k in pool[j].producers <==> k < Share(n, cap, j))
    requires |pool2| == |pool| ||
             (|pool2| + 1 == |pool| && Pos(m, cap) == |pool2| && pool[Pos(m, cap)].producers - {Slot(m, cap)} == map[])
    requires forall j :: 0 <= j < |pool2| && j != Pos(m, cap) ==> pool2[j].producers == pool[j].producers
    requires Pos(m, cap) < |pool2| ==> pool2[Pos(m, cap)].producers == pool[Pos(m, cap)].producers - {Slot(m, cap)}
    ensures forall j :: 0 <= j < |pool2| ==> |pool2[j].producers| == Share(m, cap, j)
    ensures forall j, k: PublisherId :: 0 <= j < |pool2| ==> (k in pool2[j].producers <==> k < Share(m, cap, j))
    ensures Needed(m, cap) <= |pool2|
  {
    var q, s := Pos(m, cap), Slot(m, cap);
    assert s in pool[q].producers by {
      ShareNext(m, cap, q);
    }
    forall j | 0 <= j < |pool2| ensures |pool2[j].producers| == Share(m, cap, j) {
      ShareNext(m, cap, j);
      if j == q {
        MapRemoveSize(pool[q].producers, s);
      }
    }
    forall j, k: PublisherId | 0 <= j < |pool2| ensures k in pool2[j].producers <==> k < Share(m, cap, j) {
      ShareNext(m, cap, j);
    }
    if |pool2| == |pool| {
      NeededNext(m, cap);
    } else {
      ShareNext(m, cap, q);
      ShareLoad(m, cap, q);
    }
  }

  /** The first m producers keep their slots when the last one's slot is freed. */
  lemma ProducerPlacesRemove(cap: nat, pool: seq<Client>, pool2: seq<Client>, ps: seq<nat>, ps2: seq<nat>)
    requires 0 < cap <= 256 && |ps| > 0 && ps2 == ps[..|ps| - 1]
    requires forall x :: 0 <= x < |ps| ==>
               Pos(x, cap) < |pool| && Slot(x, cap) in pool[Pos(x, cap)].producers &&
               pool[Pos(x, cap)].producers[Slot(x, cap)] == ps[x]
    requires |pool2| == |pool| ||
             (|pool2| + 1 == |pool| && Pos(|ps2|, cap) == |pool2| &&
              pool[Pos(|ps2|, cap)].producers - {Slot(|ps2|, cap)} == map[])
    requires forall j :: 0 <= j < |pool2| && j != Pos(|ps2|, cap) ==> pool2[j].producers == pool[j].producers
    requires Pos(|ps2|, cap) < |pool2| ==>
               pool2[Pos(|ps2|, cap)].producers == pool[Pos(|ps2|, cap)].producers - {Slot(|ps2|, cap)}
    ensures forall x :: 0 <= x < |ps2| ==>
              Pos(x, cap) < |pool2| && Slot(x, cap) in pool2[Pos(x, cap)].producers &&
              pool2[Pos(x, cap)].producers[Slot(x, cap)] == ps2[x]
  {
    var q := Pos(|ps2|, cap);
    SlotsBelow(cap, |ps2|);
    forall x | 0 <= x < |ps2|
      ensures Pos(x, cap) < |pool2| && Slot(x, cap) in pool2[Pos(x, cap)].producers &&
              pool2[Pos(x, cap)].producers[Slot(x, cap)] == ps2[x]
    {
      if Pos(x, cap) == q {
        assert Slot(x, cap) in pool[q].producers - {Slot(|ps2|, cap)};
      }
    }
  }

  /** The last producer's slot is freed, and its client closed when nothing is left in it. */
  lemma ProducerSlotsRemove(cap: nat, pool: seq<Client>, pool2: seq<Client>, ps: seq<nat>)
    requires 0 < cap <= 256 && ProducerSlots(cap, pool, ps) && |ps| > 0
    requires |pool2| == |pool| ||
             (|pool2| + 1 == |pool| && Pos(|ps| - 1, cap) == |pool2| &&
              pool[Pos(|ps| - 1, cap)].producers - {Slot(|ps| - 1, cap)} == map[])
    requires forall j :: 0 <= j < |pool2| && j != Pos(|ps| - 1, cap) ==> pool2[j].producers == pool[j].producers
    requires Pos(|ps| - 1, cap) < |pool2| ==>
               pool2[Pos(|ps| - 1, cap)].producers == pool[Pos(|ps| - 1, cap)].producers - {Slot(|ps| - 1, cap)}
    ensures ProducerSlots(cap, pool2, ps[..|ps| - 1])
  {
    var ps2 := ps[..|ps| - 1];
    ProducerCountsRemove(cap, pool, pool2, |ps|, |ps2|);
    ProducerPlacesRemove(cap, pool, pool2, ps, ps2);
    FoldProducers(cap, pool2, ps2);
  }

  /** Freeing the slot of the last of n tracking consumers lowers the load of client
      Pos(n - 1) alone; the client may be closed only when it is the last one. */
  lemma TrackerCountsRemove(cap: nat, pool: seq<Client>, pool2: seq<Client>, n: nat, m: nat, t: nat)
    requires 0 < cap && m + 1 == n && Pos(m, cap) < |pool| && Needed(n, cap) <= |pool|
    requires forall j :: 0 <= j < |pool| ==> |pool[j].trackers| == Share(n, cap, j)
    requires t in pool[Pos(m, cap)].trackers
    requires |pool2| == |pool| ||
             (|pool2| + 1 == |pool| && Pos(m, cap) == |pool2| && pool[Pos(m, cap)].trackers - {t} == {})
    requires forall j :: 0 <= j < |pool2| && j != Pos(m, cap) ==> pool2[j].trackers == pool[j].trackers
    requires Pos(m, cap) < |pool2| ==> pool2[Pos(m, cap)].trackers == pool[Pos(m, cap)].trackers - {t}
    ensures forall j :: 0 <= j < |pool2| ==> |pool2[j].trackers| == Share(m, cap, j)
    ensures Needed(m, cap) <= |pool2|
  {
    var q := Pos(m, cap);
    forall j | 0 <= j < |pool2| ensures |pool2[j].trackers| == Share(m, cap, j) {
      ShareNext(m, cap, j);
    }
    if |pool2| == |pool| {
      NeededNext(m, cap);
    } else {
      assert pool[q].trackers == {t};
      ShareNext(m, cap, q);
      ShareLoad(m, cap, q);
    }
  }

  /** The first m tracking consumers keep their clients when the last one leaves. */
  lemma TrackerPlacesRemove(cap: nat, pool: seq<Client>, pool2: seq<Client>, ts: seq<nat>, ts2: seq<nat>)
    requires 0 < cap && |ts| > 0 && ts2 == ts[..|ts| - 1]
    requires forall y :: 0 <= y < |ts| ==> Pos(y, cap) < |pool| && ts[y] in pool[Pos(y, cap)].trackers
    requires forall y1, y2 :: 0 <= y1 < y2 < |ts| ==> ts[y1] != ts[y2]
    requires |pool2| == |pool| ||
             (|pool2| + 1 == |pool| && Pos(|ts2|, cap) == |pool2| && pool[Pos(|ts2|, cap)].trackers - {ts[|ts2|]} == {})
    requires forall j :: 0 <= j < |pool2| && j != Pos(|ts2|, cap) ==> pool2[j].trackers == pool[j].trackers
    requires Pos(|ts2|, cap) < |pool2| ==> pool2[Pos(|ts2|, cap)].trackers == pool[Pos(|ts2|, cap)].trackers - {ts[|ts2|]}
    ensures forall y :: 0 <= y < |ts2| ==> Pos(y, cap) < |pool2| && ts2[y] in pool2[Pos(y, cap)].trackers
    ensures forall y1, y2 :: 0 <= y1 < y2 < |ts2| ==> ts2[y1] != ts2[y2]
  {
    var q := Pos(|ts2|, cap);
    SlotsBelow(cap, |ts2|);
    forall y | 0 <= y < |ts2| ensures Pos(y, cap) < |pool2| && ts2[y] in pool2[Pos(y, cap)].trackers {
      assert ts[y] != ts[|ts2|];
      if Pos(y, cap) == q {
        assert ts[y] in pool[q].trackers - {ts[|ts2|]};
      }
    }
  }

  /** The last tracking consumer's slot is freed, and its client closed when empty. */
  lemma TrackerSlotsRemove(cap: nat, pool: seq<Client>, pool2: seq<Client>, ts: seq<nat>)
    requires 0 < cap && TrackerSlots(cap, pool, ts) && |ts| > 0
    requires |pool2| == |pool| ||
             (|pool2| + 1 == |pool| && Pos(|ts| - 1, cap) == |pool2| &&
              pool[Pos(|ts| - 1, cap)].trackers - {ts[|ts| - 1]} == {})
    requires forall j :: 0 <= j < |pool2| && j != Pos(|ts| - 1, cap) ==> pool2[j].trackers == pool[j].trackers
    requires Pos(|ts| - 1, cap) < |pool2| ==>
               pool2[Pos(|ts| - 1, cap)].trackers == pool[Pos(|ts| - 1, cap)].trackers - {ts[|ts| - 1]}
    ensures TrackerSlots(cap, pool2, ts[..|ts| - 1])
  {
    var ts2 := ts[..|ts| - 1];
    TrackerCountsRemove(cap, pool, pool2, |ts|, |ts2|, ts[|ts2|]);
    TrackerPlacesRemove(cap, pool, pool2, ts, ts2);
    FoldTrackers(cap, pool2, ts2);
  }

  // ------------------------------------------------------------ swapping one producer

  /** A producer replaced under the same slot: the layout holds with the new handle. */
  lemma ProducerSlotsSwap(cap: nat, pool: seq<Client>, pool2: seq<Client>, ps: seq<nat>, x: nat, h: nat)
    requires 0 < cap <= 256 && ProducerSlots(cap, pool, ps) && x < |ps| && |pool2| == |pool|
    requires forall j :: 0 <= j < |pool| && j != Pos(x, cap) ==> pool2[j].producers == pool[j].producers
    requires pool2[Pos(x, cap)].producers == pool[Pos(x, cap)].producers[Slot(x, cap) := h]
    ensures ProducerSlots(cap, pool2, ps[x := h])
  {
    var ps2 := ps[x := h];
    SlotsDiffer(cap, x, |ps|);
    assert forall j :: 0 <= j < |pool2| ==> pool2[j].producers.Keys == pool[j].producers.Keys;
    assert forall j :: 0 <= j < |pool2| ==> |pool2[j].producers| == Share(|ps2|, cap, j);
    assert forall x' :: 0 <= x' < |ps2| ==>
             Pos(x', cap) < |pool2| && Slot(x', cap) in pool2[Pos(x', cap)].producers &&
             pool2[Pos(x', cap)].producers[Slot(x', cap)] == ps2[x'];
    FoldProducers(cap, pool2, ps2);
  }

  /** Two attachments never share a slot. */
  lemma SlotsDiffer(cap: nat, x: nat, n: nat)
    requires 0 < cap
    ensures forall x' :: 0 <= x' < n && x' != x && Pos(x', cap) == Pos(x, cap) ==> Slot(x', cap) != Slot(x, cap)
  {
    forall x' | 0 <= x' < n && x' != x && Pos(x', cap) == Pos(x, cap) ensures Slot(x', cap) != Slot(x, cap) {
      if x' < x {
        ShareAt(x', x, cap);
      } else {
        ShareAt(x, x', cap);
      }
    }
  }
}
