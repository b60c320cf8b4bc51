// The coordinator's published state: one last-writer-wins register per lock.
//
// An observation is stamped when its lock answers and delivered when its whole
// aggregation has finished, so deliveries come in any order; any number of
// aggregations may overlap, and commands publish in between.
module Coordinator {
  import opened Basics

  type Mac = string

  const LOCK_STATE_LOCKED := 0
  const LOCK_STATE_UNLOCKED := 1

  datatype Snapshot = Snapshot(locked: Option<bool>, battery: Option<int>)

  datatype Attribution = Attribution(source: string, observedAt: real, rssi: Option<int>, revision: nat)

  datatype Observation = Observation(state: Snapshot, attribution: Attribution)

  datatype PollResult = Failed | NoAnswer | Answered(observation: Observation)

  datatype Advertisement = Advertisement(lockState: int, hasNewRecords: bool, battery: int)

  const UNKNOWN := Snapshot(None, None)

  function ParseLockState(raw: Option<int>): Option<bool> {
    if raw == Some(LOCK_STATE_LOCKED) then Some(true)
    else if raw == Some(LOCK_STATE_UNLOCKED) then Some(false)
    else None
  }

  function Get<K, V>(m: map<K, V>, k: K): Option<V> {
    if k in m then Some(m[k]) else None
  }

  function Current(data: map<Mac, Snapshot>, mac: Mac): Snapshot {
    if mac in data then data[mac] else UNKNOWN
  }

  function Prefer<T>(reading: Option<T>, current: Option<T>): Option<T> {
    if reading.Some? then reading else current
  }

  // ---- The register -------------------------------------------------------

  // Of what was delivered, the known observation with the highest revision; of
  // equal ones, the first.
  function Latest(delivered: seq<Observation>): (o: Option<Observation>)
    ensures o.Some? ==> o.value in delivered && o.value.state.locked.Some?
  {
    if delivered == [] then None
    else
      var last := delivered[|delivered| - 1];
      var before := Latest(delivered[..|delivered| - 1]);
      if last.state.locked.None? then before
      else if before.Some? && last.attribution.revision <= before.value.attribution.revision then before
      else Some(last)
  }

  // The independent reading: nothing known that was delivered is newer.
  ghost predicate Newest(delivered: seq<Observation>, o: Observation) {
    && o in delivered && o.state.locked.Some?
    && forall p <- delivered :: p.state.locked.Some? ==> p.attribution.revision <= o.attribution.revision
  }

  lemma {:induction false} LatestIsNewest(delivered: seq<Observation>)
    ensures match Latest(delivered)
            case Some(o) => Newest(delivered, o)
            case None => forall p <- delivered :: p.state.locked.None?
  {
    if delivered != [] {
      var front := delivered[..|delivered| - 1];
      LatestIsNewest(front);
      assert delivered == front + [delivered[|delivered| - 1]];
    }
  }

  // Each revision stamps one observation.
  ghost predicate StampedOnce(delivered: seq<Observation>) {
    forall p <- delivered, q <- delivered :: p.attribution.revision == q.attribution.revision ==> p == q
  }

  // What is published does not depend on the order of delivery, nor on how
  // often the same observation is delivered.
  lemma OrderIndependent(a: seq<Observation>, b: seq<Observation>)
    requires StampedOnce(a)
    requires forall o :: o in a <==> o in b
    ensures Latest(a) == Latest(b)
  {
    LatestIsNewest(a);
    LatestIsNewest(b);
  }

  // Delivering more never makes the published observation older or unknown.
  lemma {:induction false} LatestAdvances(a: seq<Observation>, b: seq<Observation>)
    requires Latest(a).Some?
    ensures Latest(a + b).Some?
    ensures Latest(a + b) == Latest(a)
            || Latest(a + b).value.attribution.revision > Latest(a).value.attribution.revision
    decreases |b|
  {
    if b == [] {
      assert a + b == a;
    } else {
      var front := b[..|b| - 1];
      LatestAdvances(a, front);
      assert (a + b)[..|a + b| - 1] == a + front;
    }
  }

  // ---- Merging one result -------------------------------------------------

  // Already published for this lock: an observation at least as new.
  predicate Outdated(latest: Option<Attribution>, o: Observation) {
    latest.Some? && o.attribution.revision <= latest.value.revision
  }

  function MergedSnapshot(current: Snapshot, latest: Option<Attribution>, result: PollResult): Snapshot {
    if !result.Answered? || Outdated(latest, result.observation) then current
    else Snapshot(Prefer(result.observation.state.locked, current.locked),
                  Prefer(result.observation.state.battery, current.battery))
  }

  function MergedAttribution(latest: Option<Attribution>, result: PollResult): Option<Attribution> {
    if !result.Answered? || Outdated(latest, result.observation) || result.observation.state.locked.None? then latest
    else Some(result.observation.attribution)
  }

  function Deliveries(result: PollResult): seq<Observation> {
    if result.Answered? then [result.observation] else []
  }

  // `locked` and its attribution are those of the newest known observation.
  ghost predicate Publishes(snapshot: Snapshot, latest: Option<Attribution>, delivered: seq<Observation>) {
    match Latest(delivered)
    case None => snapshot.locked.None? && latest.None?
    case Some(o) => snapshot.locked == o.state.locked && latest == Some(o.attribution)
  }

  lemma LatestOf(delivered: seq<Observation>, o: Observation)
    ensures Latest(delivered + [o]) ==
              if o.state.locked.None? then Latest(delivered)
              else if Latest(delivered).Some? && o.attribution.revision <= Latest(delivered).value.attribution.revision
              then Latest(delivered)
              else Some(o)
  {
    assert (delivered + [o])[..|delivered|] == delivered;
  }

  // Merging a result publishes what the register holds after its delivery.
  lemma MergePublishes(current: Snapshot, latest: Option<Attribution>, delivered: seq<Observation>, result: PollResult)
    requires Publishes(current, latest, delivered)
    ensures Publishes(MergedSnapshot(current, latest, result), MergedAttribution(latest, result),
                      delivered + Deliveries(result))
  {
    hide Latest;
    if result.Answered? {
      LatestOf(delivered, result.observation);
    } else {
      assert delivered + [] == delivered;
    }
  }

  // One lock's part of the coordinator: `stamped` is listed by revision.
  ghost predicate Register(
    snapshot: Snapshot, latest: Option<Attribution>, delivered: seq<Observation>, stamped: seq<Observation>,
    revision: nat)
  {
    && |stamped| == revision
    && (forall o <- delivered :: Issued(stamped, o))
    && Publishes(snapshot, latest, delivered)
  }

  // An observation that was stamped for this lock.
  ghost predicate Issued(stamped: seq<Observation>, o: Observation) {
    1 <= o.attribution.revision <= |stamped| && stamped[o.attribution.revision - 1] == o
  }

  lemma RegisterStamps(
    snapshot: Snapshot, latest: Option<Attribution>, delivered: seq<Observation>, stamped: seq<Observation>,
    revision: nat,
    o: Observation)
    requires Register(snapshot, latest, delivered, stamped, revision) && o.attribution.revision == revision + 1
    ensures Register(snapshot, latest, delivered, stamped + [o], revision + 1)
    ensures Issued(stamped + [o], o)
  {
    hide Publishes;
  }

  lemma RegisterMerges(
    snapshot: Snapshot, latest: Option<Attribution>, delivered: seq<Observation>, stamped: seq<Observation>,
    revision: nat,
    result: PollResult)
    requires Register(snapshot, latest, delivered, stamped, revision)
    requires result.Answered? ==> Issued(stamped, result.observation)
    ensures Register(MergedSnapshot(snapshot, latest, result), MergedAttribution(latest, result),
                     delivered + Deliveries(result), stamped, revision)
  {
    hide Publishes, MergedSnapshot, MergedAttribution;
    MergePublishes(snapshot, latest, delivered, result);
  }

  // A state published at once carries the newest stamp of all.
  lemma RegisterPublishes(
    snapshot: Snapshot, latest: Option<Attribution>, delivered: seq<Observation>, stamped: seq<Observation>,
    revision: nat,
    locked: bool, battery: Option<int>, o: Observation)
    requires Register(snapshot, latest, delivered, stamped, revision)
    requires o.state.locked == Some(locked) && o.attribution.revision == revision && revision > 0
    requires stamped[revision - 1] == o
    requires latest.Some? ==> latest.value.revision < revision
    ensures Register(Snapshot(Some(locked), battery), Some(o.attribution), delivered + [o], stamped, revision)
  {
    LatestOf(delivered, o);
  }

  lemma RegisterIsOlder(
    snapshot: Snapshot, latest: Option<Attribution>, delivered: seq<Observation>, stamped: seq<Observation>,
    revision: nat)
    requires Register(snapshot, latest, delivered, stamped, revision)
    ensures |stamped| == revision && (latest.Some? ==> latest.value.revision <= revision)
    ensures latest.Some? <==> snapshot.locked.Some?
  {
  }

  // The battery level plays no part in it.
  lemma RegisterIgnoresBattery(
    snapshot: Snapshot, latest: Option<Attribution>, delivered: seq<Observation>, stamped: seq<Observation>,
    revision: nat,
    battery: Option<int>)
    requires Register(snapshot, latest, delivered, stamped, revision)
    ensures Register(Snapshot(snapshot.locked, battery), latest, delivered, stamped, revision)
  {
  }

  lemma RegisterIsNewest(
    snapshot: Snapshot, latest: Option<Attribution>, delivered: seq<Observation>, stamped: seq<Observation>,
    revision: nat)
    requires Register(snapshot, latest, delivered, stamped, revision)
    ensures snapshot.locked.Some? <==> latest.Some?
    ensures snapshot.locked.Some? ==>
              exists o :: Newest(delivered, o) && snapshot.locked == o.state.locked && latest == Some(o.attribution)
    ensures snapshot.locked.None? ==> forall o <- delivered :: o.state.locked.None?
    ensures StampedOnce(delivered)
  {
    LatestIsNewest(delivered);
  }

  // The battery level after both results, in this order.
  function BatteryAfter(current: Snapshot, latest: Option<Attribution>, a: Observation, b: Observation): Option<int> {
    var once := MergedSnapshot(current, latest, Answered(a));
    MergedSnapshot(once, MergedAttribution(latest, Answered(a)), Answered(b)).battery
  }

  // A battery level is not ordered so.  Of two answers, `a` stamped before `b`,
  // both orders of delivery leave the same level exactly if `a` is outdated or
  // brings none, or else: if `b` knows the lock state, and so makes `a` outdated
  // when it comes first, if `b` brings a level or `a` the current one; if not,
  // if `b` brings none or the same one.
  lemma BatteryOrder(current: Snapshot, latest: Option<Attribution>, a: Observation, b: Observation)
    requires a.attribution.revision < b.attribution.revision
    ensures BatteryAfter(current, latest, a, b) == BatteryAfter(current, latest, b, a) <==>
              || Outdated(latest, a)
              || a.state.battery.None?
              || if b.state.locked.Some? then b.state.battery.Some? || a.state.battery == current.battery
                 else b.state.battery.None? || a.state.battery == b.state.battery
  {
  }

  // Two answers without a lock state, stamped one after the other.
  lemma BatteryFollowsDelivery() returns (a: Observation, b: Observation)
    ensures a.attribution.revision < b.attribution.revision
    ensures BatteryAfter(UNKNOWN, None, a, b) != BatteryAfter(UNKNOWN, None, b, a)
  {
    a := Observation(Snapshot(None, Some(50)), Attribution("query", 0.0, None, 1));
    b := Observation(Snapshot(None, Some(60)), Attribution("query", 1.0, None, 2));
    BatteryOrder(UNKNOWN, None, a, b);
  }

  // ---- Merging an aggregation ---------------------------------------------

  // What one aggregation reads and writes: the snapshots to publish, their
  // attributions, the deliveries, and the locks whose bootstrap is to be
  // retried or whose operation log is to be fetched.
  datatype Tally = Tally(
    data: map<Mac, Snapshot>,
    attribution: map<Mac, Attribution>,
    delivered: map<Mac, seq<Observation>>,
    retries: set<Mac>,
    logs: set<Mac>)

  function DeliveredOf(t: Tally, mac: Mac): seq<Observation> {
    if mac in t.delivered then t.delivered[mac] else []
  }

  predicate Publishable(latest: Option<Attribution>, result: PollResult) {
    result.Answered? && !Outdated(latest, result.observation) && result.observation.state.locked.Some?
  }

  function Merge(t: Tally, known: bool, mac: Mac, result: PollResult): Tally {
    var latest := Get(t.attribution, mac);
    Tally(
      t.data[mac := MergedSnapshot(Current(t.data, mac), latest, result)],
      if Publishable(latest, result) then t.attribution[mac := result.observation.attribution] else t.attribution,
      t.delivered[mac := DeliveredOf(t, mac) + Deliveries(result)],
      if result.Answered? || known then t.retries else t.retries + {mac},
      if Publishable(latest, result) then t.logs + {mac} else t.logs)
  }

  // One lock's part of an aggregation that began with `a`: merged ...
  predicate Settled(a: Tally, b: Tally, mac: Mac, result: PollResult) {
    && mac in b.data
    && b.data[mac] == MergedSnapshot(Current(a.data, mac), Get(a.attribution, mac), result)
    && Get(b.attribution, mac) == MergedAttribution(Get(a.attribution, mac), result)
    && DeliveredOf(b, mac) == DeliveredOf(a, mac) + Deliveries(result)
    && (mac in b.retries <==> !result.Answered? && Current(a.data, mac).locked.None?)
    && (mac in b.logs <==> Get(b.attribution, mac) != Get(a.attribution, mac))
  }

  // ... or not touched.
  predicate Kept(a: Tally, b: Tally, mac: Mac) {
    && Get(b.data, mac) == Get(a.data, mac) && Get(b.attribution, mac) == Get(a.attribution, mac)
    && DeliveredOf(b, mac) == DeliveredOf(a, mac)
    && (mac in b.retries <==> mac in a.retries) && (mac in b.logs <==> mac in a.logs)
  }

  lemma MergeSettles(a: Tally, t: Tally, mac: Mac, result: PollResult)
    requires Kept(a, t, mac) && mac !in a.retries && mac !in a.logs
    ensures Settled(a, Merge(t, Current(a.data, mac).locked.Some?, mac, result), mac, result)
  {
  }

  lemma MergeKeeps(t: Tally, known: bool, mac: Mac, result: PollResult, other: Mac)
    requires other != mac
    ensures Kept(t, Merge(t, known, mac, result), other)
  {
  }

  lemma SettledAfter(a: Tally, t: Tally, b: Tally, mac: Mac, result: PollResult)
    requires Settled(a, t, mac, result) && Kept(t, b, mac)
    ensures Settled(a, b, mac, result)
  {
    assert Get(b.data, mac) == Get(t.data, mac);
  }

  lemma KeptAtFirst(a: Tally)
    ensures forall mac: Mac :: Kept(a, a, mac)
  {
  }

  lemma KeptReads(t: Tally, u: Tally, mac: Mac)
    requires Kept(t, u, mac)
    ensures Current(u.data, mac) == Current(t.data, mac) && Get(u.attribution, mac) == Get(t.attribution, mac)
    ensures DeliveredOf(u, mac) == DeliveredOf(t, mac)
  {
    assert Get(u.data, mac) == Get(t.data, mac);
  }

  lemma MergeAt(t: Tally, known: bool, mac: Mac, result: PollResult)
    ensures var u, latest := Merge(t, known, mac, result), Get(t.attribution, mac);
            && Current(u.data, mac) == MergedSnapshot(Current(t.data, mac), latest, result)
            && Get(u.attribution, mac) == MergedAttribution(latest, result)
            && DeliveredOf(u, mac) == DeliveredOf(t, mac) + Deliveries(result)
  {
  }

  lemma KeptTransitive(a: Tally, t: Tally, u: Tally, mac: Mac)
    requires Kept(a, t, mac) && Kept(t, u, mac)
    ensures Kept(a, u, mac)
  {
  }

  // One more turn: the lock of turn k is settled, the others are as before.
  lemma MergeTurn(a: Tally, t: Tally, u: Tally, results: seq<(Mac, PollResult)>, k: nat)
    requires k < |results| && u == Merge(t, Current(a.data, results[k].0).locked.Some?, results[k].0, results[k].1)
    requires forall i, j :: 0 <= i < j < |results| ==> results[i].0 != results[j].0
    requires forall i :: 0 <= i < k ==> Settled(a, t, results[i].0, results[i].1)
    requires forall mac: Mac :: (forall i :: 0 <= i < k ==> results[i].0 != mac) ==> Kept(a, t, mac)
    requires results[k].0 !in a.retries && results[k].0 !in a.logs
    ensures forall i :: 0 <= i < k + 1 ==> Settled(a, u, results[i].0, results[i].1)
    ensures forall mac: Mac :: (forall i :: 0 <= i < k + 1 ==> results[i].0 != mac) ==> Kept(a, u, mac)
  {
    hide Settled, Kept, Merge;
    var mac, result := results[k].0, results[k].1;
    var known := Current(a.data, mac).locked.Some?;
    assert Kept(a, t, mac);
    MergeSettles(a, t, mac, result);
    forall i | 0 <= i < k
      ensures Settled(a, u, results[i].0, results[i].1)
    {
      MergeKeeps(t, known, mac, result, results[i].0);
      SettledAfter(a, t, u, results[i].0, results[i].1);
    }
    forall m: Mac | forall i :: 0 <= i < k + 1 ==> results[i].0 != m
      ensures Kept(a, u, m)
    {
      MergeKeeps(t, known, mac, result, m);
      KeptTransitive(a, t, u, m);
    }
  }

  // What is published of a lock: known, and by which observation.
  function PublishedAs(snapshot: Snapshot, latest: Option<Attribution>): Option<(bool, Attribution)> {
    if snapshot.locked.Some? && latest.Some? then Some((snapshot.locked.value, latest.value)) else None
  }

  // Unchanged, or replaced by a newer observation; never unknown again.
  predicate Advances(a: Option<(bool, Attribution)>, b: Option<(bool, Attribution)>) {
    a == b || (b.Some? && (a.Some? ==> b.value.1.revision > a.value.1.revision))
  }

  lemma MergeAdvances(snapshot: Snapshot, latest: Option<Attribution>, result: PollResult)
    requires snapshot.locked.Some? <==> latest.Some?
    ensures Advances(PublishedAs(snapshot, latest),
                     PublishedAs(MergedSnapshot(snapshot, latest, result), MergedAttribution(latest, result)))
  {
  }

  ghost predicate Newer(
    data: map<Mac, Snapshot>, attribution: map<Mac, Attribution>,
    data': map<Mac, Snapshot>, attribution': map<Mac, Attribution>)
  {
    forall mac: Mac :: Advances(PublishedAs(Current(data, mac), Get(attribution, mac)),
                                PublishedAs(Current(data', mac), Get(attribution', mac)))
  }

  lemma NewerTransitive(
    data: map<Mac, Snapshot>, attribution: map<Mac, Attribution>,
    data': map<Mac, Snapshot>, attribution': map<Mac, Attribution>,
    data'': map<Mac, Snapshot>, attribution'': map<Mac, Attribution>)
    requires Newer(data, attribution, data', attribution') && Newer(data', attribution', data'', attribution'')
    ensures Newer(data, attribution, data'', attribution'')
  {
  }

  lemma NewerKnown(
    data: map<Mac, Snapshot>, attribution: map<Mac, Attribution>,
    data': map<Mac, Snapshot>, attribution': map<Mac, Attribution>)
    requires Newer(data, attribution, data', attribution')
    requires forall mac: Mac :: Current(data, mac).locked.Some? <==> Get(attribution, mac).Some?
    ensures forall mac: Mac :: Current(data, mac).locked.Some? ==> Current(data', mac).locked.Some?
  {
  }

  // The stamps of each lock, by revision.
  ghost function StampsOf(stamped: map<Mac, seq<Observation>>, mac: Mac): seq<Observation> {
    if mac in stamped then stamped[mac] else []
  }

  ghost predicate StampsGrow(stamped: map<Mac, seq<Observation>>, stamped': map<Mac, seq<Observation>>) {
    forall mac: Mac :: StampsOf(stamped, mac) <= StampsOf(stamped', mac)
  }

  // Polls of one aggregation that have ended so far.
  ghost predicate Polled(stamped: map<Mac, seq<Observation>>, results: seq<(Mac, PollResult)>) {
    && (forall i, j :: 0 <= i < j < |results| ==> results[i].0 != results[j].0)
    && (forall r <- results :: r.1.Answered? ==> Issued(StampsOf(stamped, r.0), r.1.observation))
  }

  ghost predicate AllPolled(stamped: map<Mac, seq<Observation>>, inFlight: seq<seq<(Mac, PollResult)>>) {
    forall k :: 0 <= k < |inFlight| ==> Polled(stamped, inFlight[k])
  }

  // What was stamped stays stamped, however long its aggregation takes.
  lemma PolledStays(
    stamped: map<Mac, seq<Observation>>, stamped': map<Mac, seq<Observation>>, inFlight: seq<seq<(Mac, PollResult)>>)
    requires AllPolled(stamped, inFlight) && StampsGrow(stamped, stamped')
    ensures AllPolled(stamped', inFlight)
  {
    forall k | 0 <= k < |inFlight|
      ensures Polled(stamped', inFlight[k])
    {
      assert Polled(stamped, inFlight[k]);
      forall r | r in inFlight[k] && r.1.Answered?
        ensures Issued(StampsOf(stamped', r.0), r.1.observation)
      {
        assert StampsOf(stamped, r.0) <= StampsOf(stamped', r.0);
      }
    }
  }

  lemma SettledReads(a: Tally, b: Tally, mac: Mac, result: PollResult)
    requires Settled(a, b, mac, result)
    ensures Current(b.data, mac) == MergedSnapshot(Current(a.data, mac), Get(a.attribution, mac), result)
    ensures Get(b.attribution, mac) == MergedAttribution(Get(a.attribution, mac), result)
  {
  }

  // Whatever an aggregation brings, nothing published gets older.
  lemma AggregationAdvances(a: Tally, b: Tally, results: seq<(Mac, PollResult)>)
    requires forall mac: Mac :: Current(a.data, mac).locked.Some? <==> Get(a.attribution, mac).Some?
    requires forall i :: 0 <= i < |results| ==> Settled(a, b, results[i].0, results[i].1)
    requires forall mac: Mac :: (forall i :: 0 <= i < |results| ==> results[i].0 != mac) ==> Kept(a, b, mac)
    ensures Newer(a.data, a.attribution, b.data, b.attribution)
  {
    hide Settled, Kept, Advances, PublishedAs;
    forall mac: Mac
      ensures Advances(PublishedAs(Current(a.data, mac), Get(a.attribution, mac)),
                       PublishedAs(Current(b.data, mac), Get(b.attribution, mac)))
    {
      if forall i :: 0 <= i < |results| ==> results[i].0 != mac {
        KeptReads(a, b, mac);
        NothingAdvances(PublishedAs(Current(a.data, mac), Get(a.attribution, mac)));
      } else {
        var i :| 0 <= i < |results| && results[i].0 == mac;
        SettledReads(a, b, mac, results[i].1);
        MergeAdvances(Current(a.data, mac), Get(a.attribution, mac), results[i].1);
      }
    }
  }

  lemma NewerIfSame(
    data: map<Mac, Snapshot>, attribution: map<Mac, Attribution>,
    data': map<Mac, Snapshot>, attribution': map<Mac, Attribution>)
    requires forall mac: Mac ::
               PublishedAs(Current(data, mac), Get(attribution, mac))
               == PublishedAs(Current(data', mac), Get(attribution', mac))
    ensures Newer(data, attribution, data', attribution')
  {
  }

  lemma NothingNewer(data: map<Mac, Snapshot>, attribution: map<Mac, Attribution>)
    ensures Newer(data, attribution, data, attribution)
  {
  }

  lemma NothingAdvances(a: Option<(bool, Attribution)>)
    ensures Advances(a, a)
  {
  }

  // ---- The coordinator ----------------------------------------------------

  class TtlockBleDataUpdateCoordinator {
    const connections: set<Mac>
    var data: map<Mac, Snapshot>
    var stateAttribution: map<Mac, Attribution>
    var observationRevisions: map<Mac, nat>
    var advertisementHints: map<Mac, int>
    var newRecordsHints: map<Mac, bool>
    var activeScanRequested: set<Mac>
    ghost var stamped: map<Mac, seq<Observation>>    // by revision, from 1
    ghost var delivered: map<Mac, seq<Observation>>  // in order of delivery

    ghost function Stamped(mac: Mac): seq<Observation>
      reads this`stamped
    {
      StampsOf(stamped, mac)
    }

    ghost function Delivered(mac: Mac): seq<Observation>
      reads this`delivered
    {
      if mac in delivered then delivered[mac] else []
    }

    function RevisionOf(mac: Mac): nat
      reads this`observationRevisions
    {
      if mac in observationRevisions then observationRevisions[mac] else 0
    }

    ghost predicate ValidFor(mac: Mac)
      reads this`data, this`stateAttribution, this`observationRevisions, this`stamped, this`delivered
    {
      Register(Current(data, mac), Get(stateAttribution, mac), Delivered(mac), Stamped(mac), RevisionOf(mac))
    }

    ghost predicate Valid()
      reads this`data, this`stateAttribution, this`observationRevisions, this`stamped, this`delivered
    {
      forall mac: Mac :: ValidFor(mac)
    }

    constructor (connections: set<Mac>)
      ensures Valid() && this.connections == connections && data == map[]
    {
      this.connections := connections;
      data, stateAttribution, observationRevisions := map[], map[], map[];
      advertisementHints, newRecordsHints, activeScanRequested := map[], map[], {};
      stamped, delivered := map[], map[];
    }

    predicate HasState(mac: Mac)
      reads this`data
    {
      mac in data && data[mac].locked.Some?
    }

    // What the register publishes for a lock.
    function Published(mac: Mac): Option<(bool, Attribution)>
      reads this`data, this`stateAttribution
    {
      PublishedAs(Current(data, mac), Get(stateAttribution, mac))
    }

    // No lock's published observation got older, and none became unknown.
    twostate predicate OnlyNewer()
      reads this`data, this`stateAttribution
    {
      Newer(old(data), old(stateAttribution), data, stateAttribution)
    }

    // The published observation is the newest known one delivered so far, and a
    // state is known exactly if any known one was delivered.
    lemma PublishedIsNewest(mac: Mac)
      requires Valid()
      ensures match Published(mac)
              case Some(p) =>
                exists o :: Newest(Delivered(mac), o) && o.state.locked == Some(p.0) && o.attribution == p.1
              case None => forall o <- Delivered(mac) :: o.state.locked.None?
      ensures HasState(mac) <==> mac in stateAttribution
    {
      hide Register;
      assert ValidFor(mac);
      RegisterIsNewest(Current(data, mac), Get(stateAttribution, mac), Delivered(mac), Stamped(mac), RevisionOf(mac));
    }

    // The same observations are stamped and delivered as before.
    twostate predicate SameRegisters()
      reads this
    {
      && stamped == old(stamped) && delivered == old(delivered)
      && observationRevisions == old(observationRevisions) && stateAttribution == old(stateAttribution)
    }

    // ---- Observing --------------------------------------------------------

    // Sequence a completed observation, at the moment the lock answered.
    method NextAttribution(mac: Mac, ghost state: Snapshot, source: string, rssi: Option<int>, now: real)
      returns (attribution: Attribution)
      requires Valid()
      modifies this`observationRevisions, this`stamped
      ensures Valid() && RevisionOf(mac) == old(RevisionOf(mac)) + 1
      ensures attribution == Attribution(source, now, rssi, RevisionOf(mac))
      ensures stamped == old(stamped)[mac := old(Stamped(mac)) + [Observation(state, attribution)]]
      ensures Issued(Stamped(mac), Observation(state, attribution)) && |Stamped(mac)| == RevisionOf(mac)
    {
      hide Register, Issued;
      var revision := (if mac in observationRevisions then observationRevisions[mac] else 0) + 1;
      assert ValidFor(mac);
      RegisterIsOlder(Current(data, mac), Get(stateAttribution, mac), Delivered(mac), Stamped(mac), RevisionOf(mac));
      attribution := Attribution(source, now, rssi, revision);
      ghost var o := Observation(state, attribution);
      RegisterStamps(Current(data, mac), Get(stateAttribution, mac), Delivered(mac), Stamped(mac), revision - 1, o);
      observationRevisions := observationRevisions[mac := revision];
      stamped := stamped[mac := Stamped(mac) + [o]];
      forall m: Mac
        ensures ValidFor(m)
      {
        assert old(ValidFor(m));
      }
    }

    // One lock's answer, stamped before the aggregation that asked for it ends.
    method Poll(mac: Mac, raw: Option<int>, battery: Option<int>, rssi: Option<int>, now: real)
      returns (o: Observation)
      requires Valid()
      modifies this`observationRevisions, this`stamped
      ensures Valid() && Issued(Stamped(mac), o)
      ensures raw == Some(0) ==> o.state.locked == Some(true)
      ensures raw == Some(1) ==> o.state.locked == Some(false)
      ensures raw != Some(0) && raw != Some(1) ==> o.state.locked == None
      ensures o.state.battery == battery
      ensures o.attribution == Attribution("query", now, rssi, old(RevisionOf(mac)) + 1)
      ensures stamped == old(stamped)[mac := old(Stamped(mac)) + [o]]
    {
      hide Register, Issued;
      var attribution := NextAttribution(mac, Snapshot(ParseLockState(raw), battery), "query", rssi, now);
      o := Observation(Snapshot(ParseLockState(raw), battery), attribution);
    }

    // A poll that nothing overtakes publishes the position it read, and no
    // position if it read none.
    method PollOne(mac: Mac, raw: Option<int>, battery: Option<int>, rssi: Option<int>, now: real)
      requires Valid()
      modifies this
      ensures Valid() && OthersKept(mac) && StampsGrow(old(stamped), stamped)
      ensures raw == Some(0) ==>
                Published(mac) == Some((true, Attribution("query", now, rssi, old(RevisionOf(mac)) + 1)))
      ensures raw == Some(1) ==>
                Published(mac) == Some((false, Attribution("query", now, rssi, old(RevisionOf(mac)) + 1)))
      ensures raw != Some(0) && raw != Some(1) ==> Published(mac) == old(Published(mac))
      ensures old(HasState(mac)) ==> HasState(mac)
    {
      hide Register, Issued;
      KnownIsAttributed();
      assert ValidFor(mac);
      RegisterIsOlder(Current(data, mac), Get(stateAttribution, mac), Delivered(mac), Stamped(mac), RevisionOf(mac));
      var o := Poll(mac, raw, battery, rssi, now);
      var results := [(mac, Answered(o))];
      ghost var a := AsTally({}, {});
      var retries, logs := FinishUpdate(results);
      ghost var b := AsTally(retries, logs);
      assert Settled(a, b, results[0].0, results[0].1);
      forall m: Mac | m != mac
        ensures Stamped(m) == old(Stamped(m)) && Delivered(m) == old(Delivered(m))
        ensures Published(m) == old(Published(m))
      {
        assert Kept(a, b, m);
      }
      KnownIsAttributed();
    }

    // A command's or direct query's state: newest of all, published at once.
    method ApplyAuthoritativeState(
      mac: Mac, locked: bool, battery: Option<int>, source: string, rssi: Option<int>, now: real)
      requires Valid()
      modifies this
      ensures Valid() && OthersKept(mac)
      ensures Published(mac) == Some((locked, Attribution(source, now, rssi, old(RevisionOf(mac)) + 1)))
      ensures data == old(data)[mac := Snapshot(Some(locked), Prefer(battery, Current(old(data), mac).battery))]
      ensures var o := Observation(Snapshot(Some(locked), battery), Published(mac).value.1);
              Stamped(mac) == old(Stamped(mac)) + [o] && Delivered(mac) == old(Delivered(mac)) + [o]
    {
      hide Register, Issued;
      var snapshot := Snapshot(Some(locked), Prefer(battery, Current(data, mac).battery));
      assert ValidFor(mac);
      RegisterIsOlder(Current(data, mac), Get(stateAttribution, mac), Delivered(mac), Stamped(mac), RevisionOf(mac));
      var attribution := NextAttribution(mac, Snapshot(Some(locked), battery), source, rssi, now);
      PublishNow(mac, snapshot, Observation(Snapshot(Some(locked), battery), attribution));
    }

    method PublishNow(mac: Mac, snapshot: Snapshot, o: Observation)
      requires Valid() && snapshot.locked.Some? && o.state.locked == snapshot.locked
      requires o.attribution.revision == RevisionOf(mac) > 0 && |Stamped(mac)| == RevisionOf(mac)
      requires Stamped(mac)[RevisionOf(mac) - 1] == o
      requires mac in stateAttribution ==> stateAttribution[mac].revision < RevisionOf(mac)
      modifies this`data, this`stateAttribution, this`delivered
      ensures Valid()
      ensures data == old(data)[mac := snapshot] && stateAttribution == old(stateAttribution)[mac := o.attribution]
      ensures delivered == old(delivered)[mac := old(Delivered(mac)) + [o]]
    {
      hide Register, Issued;
      assert ValidFor(mac);
      RegisterPublishes(Current(data, mac), Get(stateAttribution, mac), Delivered(mac), Stamped(mac), RevisionOf(mac),
                        snapshot.locked.value, snapshot.battery, o);
      stateAttribution := stateAttribution[mac := o.attribution];
      data := data[mac := snapshot];
      delivered := delivered[mac := Delivered(mac) + [o]];
      forall m: Mac
        ensures ValidFor(m)
      {
        assert old(ValidFor(m));
      }
    }

    // The registers of every other lock, and the hints, are as they were.
    twostate predicate OthersKept(mac: Mac)
      reads this
    {
      && (forall m: Mac :: m != mac ==>
            Stamped(m) == old(Stamped(m)) && Delivered(m) == old(Delivered(m)) && Published(m) == old(Published(m)))
      && advertisementHints == old(advertisementHints) && newRecordsHints == old(newRecordsHints)
      && activeScanRequested == old(activeScanRequested)
    }

    // ---- Hints ------------------------------------------------------------

    method RequestActiveStateRefresh(mac: Mac)
      modifies this`activeScanRequested
      ensures activeScanRequested == old(activeScanRequested) + (if mac in connections then {mac} else {})
    {
      if mac in connections {
        activeScanRequested := activeScanRequested + {mac};
      }
    }

    method SetBattery(mac: Mac, battery: int)
      requires Valid()
      modifies this`data
      ensures Valid()
      ensures data == old(data)[mac := Snapshot(Current(old(data), mac).locked, Some(battery))]
    {
      hide Register;
      assert ValidFor(mac);
      RegisterIgnoresBattery(
        Current(data, mac), Get(stateAttribution, mac), Delivered(mac), Stamped(mac), RevisionOf(mac), Some(battery));
      data := data[mac := Snapshot(Current(data, mac).locked, Some(battery))];
      forall m: Mac
        ensures ValidFor(m)
      {
        assert old(ValidFor(m));
      }
    }

    // An advertisement publishes its battery level; its state bit only asks for
    // a refresh, when it changed or when new records appeared.
    method ApplyAdvertisement(mac: Mac, advertisement: Advertisement) returns (refresh: bool)
      requires Valid()
      modifies this
      ensures Valid() && SameRegisters()
      ensures forall m: Mac :: Published(m) == old(Published(m)) && HasState(m) == old(HasState(m))
      ensures data == old(data)[mac := Snapshot(Current(old(data), mac).locked, Some(advertisement.battery))]
      ensures advertisementHints == old(advertisementHints)[mac := advertisement.lockState]
      ensures newRecordsHints == old(newRecordsHints)[mac := advertisement.hasNewRecords]
      ensures refresh <==>
                || (mac in old(advertisementHints) && old(advertisementHints)[mac] != advertisement.lockState)
                || (advertisement.hasNewRecords && Get(old(newRecordsHints), mac) != Some(true))
      ensures activeScanRequested == old(activeScanRequested) + (if refresh && mac in connections then {mac} else {})
    {
      hide Register;
      var previousHint := Get(advertisementHints, mac);
      var previousNewRecords := Get(newRecordsHints, mac);
      advertisementHints := advertisementHints[mac := advertisement.lockState];
      newRecordsHints := newRecordsHints[mac := advertisement.hasNewRecords];
      SetBattery(mac, advertisement.battery);
      var stateHintChanged := previousHint.Some? && previousHint.value != advertisement.lockState;
      var newRecordsAppeared := advertisement.hasNewRecords && previousNewRecords != Some(true);
      refresh := stateHintChanged || newRecordsAppeared;
      if refresh {
        RequestActiveStateRefresh(mac);
      }
    }

    // ---- One aggregation --------------------------------------------------

    // Which locks to poll, and which of them with an active scan: every request
    // made so far is used up by this aggregation and by no other.
    method StartUpdate() returns (plan: map<Mac, bool>)
      requires Valid()
      modifies this`activeScanRequested
      ensures Valid() && activeScanRequested == {}
      ensures plan.Keys == connections
      ensures forall mac <- plan :: plan[mac] <==> mac in old(activeScanRequested) || !HasState(mac)
    {
      var requested := activeScanRequested;
      activeScanRequested := activeScanRequested - requested;
      plan := map mac | mac in connections :: mac in requested || !HasState(mac);
      assert forall m: Mac :: old(ValidFor(m)) ==> ValidFor(m);
    }

    ghost function AsTally(retries: set<Mac>, logs: set<Mac>): Tally
      reads this`data, this`stateAttribution, this`delivered
    {
      Tally(data, stateAttribution, delivered, retries, logs)
    }

    // The registers as they will be once `t` is published.
    ghost predicate Pending(t: Tally)
      reads this`stamped, this`observationRevisions
    {
      forall mac: Mac ::
        Register(Current(t.data, mac), Get(t.attribution, mac), DeliveredOf(t, mac), Stamped(mac), RevisionOf(mac))
    }

    // The end of an aggregation: its results are merged in turn and published.
    method FinishUpdate(results: seq<(Mac, PollResult)>) returns (retries: set<Mac>, logs: set<Mac>)
      requires Valid()
      requires forall i, j :: 0 <= i < j < |results| ==> results[i].0 != results[j].0
      requires forall r <- results :: r.1.Answered? ==> Issued(Stamped(r.0), r.1.observation)
      modifies this`data, this`stateAttribution, this`delivered
      ensures Valid()
      ensures forall i :: 0 <= i < |results| ==>
                Settled(old(AsTally({}, {})), AsTally(retries, logs), results[i].0, results[i].1)
      ensures forall mac: Mac :: (forall i :: 0 <= i < |results| ==> results[i].0 != mac) ==>
                Kept(old(AsTally({}, {})), AsTally(retries, logs), mac)
    {
      hide Register, Issued, Settled, Kept, Merge;
      ghost var before := AsTally({}, {});
      ghost var t := before;
      var state := data;
      retries, logs := {}, {};
      ValidIsPending();
      KeptAtFirst(before);
      for k := 0 to |results|
        invariant data == old(data) && t == Tally(state, stateAttribution, delivered, retries, logs) && Pending(t)
        invariant forall i :: 0 <= i < k ==> Settled(before, t, results[i].0, results[i].1)
        invariant forall mac: Mac :: (forall i :: 0 <= i < k ==> results[i].0 != mac) ==> Kept(before, t, mac)
      {
        var mac, result := results[k].0, results[k].1;
        ghost var u := Merge(t, HasState(mac), mac, result);
        MergeTurn(before, t, u, results, k);
        PendingMerge(t, HasState(mac), mac, result);
        state, retries, logs := MergeState(state, retries, logs, mac, result);
        t := u;
      }
      data := state;
      PendingIsValid(t);
    }

    lemma ValidIsPending()
      requires Valid()
      ensures Pending(AsTally({}, {}))
    {
      hide Register;
      assert forall mac: Mac :: ValidFor(mac) ==>
        Register(Current(data, mac), Get(stateAttribution, mac), DeliveredOf(AsTally({}, {}), mac), Stamped(mac),
                 RevisionOf(mac));
    }

    lemma PendingIsValid(t: Tally)
      requires Pending(t) && t.data == data && t.attribution == stateAttribution && t.delivered == delivered
      ensures Valid()
    {
      hide Register;
      forall mac: Mac
        ensures ValidFor(mac)
      {
        assert DeliveredOf(t, mac) == Delivered(mac);
      }
    }

    lemma PendingMerge(t: Tally, known: bool, mac: Mac, result: PollResult)
      requires Pending(t) && (result.Answered? ==> Issued(Stamped(mac), result.observation))
      ensures Pending(Merge(t, known, mac, result))
      ensures mac in t.attribution ==> mac in t.data
    {
      hide Register, Issued, MergedSnapshot, Kept, Merge;
      var u := Merge(t, known, mac, result);
      assert Register(
        Current(t.data, mac), Get(t.attribution, mac), DeliveredOf(t, mac), Stamped(mac), RevisionOf(mac));
      RegisterIsOlder(
        Current(t.data, mac), Get(t.attribution, mac), DeliveredOf(t, mac), Stamped(mac), RevisionOf(mac));
      RegisterMerges(
        Current(t.data, mac), Get(t.attribution, mac), DeliveredOf(t, mac), Stamped(mac), RevisionOf(mac), result);
      MergeAt(t, known, mac, result);
      forall m: Mac
        ensures Register(Current(u.data, m), Get(u.attribution, m), DeliveredOf(u, m), Stamped(m), RevisionOf(m))
      {
        assert Register(Current(t.data, m), Get(t.attribution, m), DeliveredOf(t, m), Stamped(m), RevisionOf(m));
        if m != mac {
          MergeKeeps(t, known, mac, result, m);
          KeptReads(t, u, m);
        }
      }
    }

    // One turn of the loop, on the field it writes.
    method MergeState(state0: map<Mac, Snapshot>, retries0: set<Mac>, logs0: set<Mac>, mac: Mac, result: PollResult)
      returns (state: map<Mac, Snapshot>, retries: set<Mac>, logs: set<Mac>)
      requires mac in stateAttribution ==> mac in state0
      modifies this`stateAttribution, this`delivered
      ensures Tally(state, stateAttribution, delivered, retries, logs)
              == Merge(Tally(state0, old(stateAttribution), old(delivered), retries0, logs0), HasState(mac),
                       mac, result)
    {
      state, retries, logs := state0, retries0, logs0;
      delivered := delivered[mac := Delivered(mac) + Deliveries(result)];
      if !result.Answered? {
        state := if mac in state then state else state[mac := UNKNOWN];
        if !HasState(mac) {
          retries := retries + {mac};
        }
        return;
      }
      var o := result.observation;
      if mac in stateAttribution && o.attribution.revision <= stateAttribution[mac].revision {
        return;
      }
      var current := Current(state, mac);
      state := state[mac := Snapshot(Prefer(o.state.locked, current.locked), Prefer(o.state.battery, current.battery))];
      if o.state.locked.Some? {
        stateAttribution := stateAttribution[mac := o.attribution];
        logs := logs + {mac};
      }
    }

    // ---- Every run --------------------------------------------------------

    lemma KnownIsAttributed()
      requires Valid()
      ensures forall mac: Mac :: Current(data, mac).locked.Some? <==> Get(stateAttribution, mac).Some?
    {
      hide Register;
      forall mac: Mac
        ensures Current(data, mac).locked.Some? <==> Get(stateAttribution, mac).Some?
      {
        assert ValidFor(mac);
        RegisterIsOlder(Current(data, mac), Get(stateAttribution, mac), Delivered(mac), Stamped(mac), RevisionOf(mac));
      }
    }

    method Finish(results: seq<(Mac, PollResult)>)
      requires Valid() && Polled(stamped, results)
      modifies this`data, this`stateAttribution, this`delivered
      ensures Valid() && OnlyNewer()
    {
      hide Register, Issued, Settled, Kept, Newer;
      KnownIsAttributed();
      ghost var a := AsTally({}, {});
      var retries, logs := FinishUpdate(results);
      AggregationAdvances(a, AsTally(retries, logs), results);
    }

    method Publish(mac: Mac, locked: bool, battery: Option<int>, source: string, rssi: Option<int>, now: real)
      requires Valid()
      modifies this
      ensures Valid() && OnlyNewer() && StampsGrow(old(stamped), stamped)
      ensures HasState(mac) && data[mac].locked == Some(locked)
      ensures Published(mac) == Some((locked, Attribution(source, now, rssi, old(RevisionOf(mac)) + 1)))
    {
      hide Register, Issued;
      assert ValidFor(mac);
      RegisterIsOlder(Current(data, mac), Get(stateAttribution, mac), Delivered(mac), Stamped(mac), RevisionOf(mac));
      ApplyAuthoritativeState(mac, locked, battery, source, rssi, now);
      forall m: Mac
        ensures Advances(PublishedAs(Current(old(data), m), Get(old(stateAttribution), m)),
                         PublishedAs(Current(data, m), Get(stateAttribution, m)))
        ensures StampsOf(old(stamped), m) <= StampsOf(stamped, m)
      {
        assert Published(m) == PublishedAs(Current(data, m), Get(stateAttribution, m));
        assert m != mac ==> Stamped(m) == old(Stamped(m)) && Published(m) == old(Published(m));
      }
    }

    // One step of one of the aggregations in flight, or of something else.
    method DriveStep(inFlight0: seq<seq<(Mac, PollResult)>>) returns (inFlight: seq<seq<(Mac, PollResult)>>)
      requires Valid() && AllPolled(stamped, inFlight0)
      modifies this
      ensures Valid() && AllPolled(stamped, inFlight) && OnlyNewer()
      ensures forall m: Mac :: old(HasState(m)) ==> HasState(m)
    {
      KnownIsAttributed();
      inFlight := StepOne(inFlight0);
      NewerKnown(old(data), old(stateAttribution), data, stateAttribution);
      assert forall m: Mac :: HasState(m) <==> Current(data, m).locked.Some?;
      assert forall m: Mac :: old(HasState(m)) ==> Current(old(data), m).locked.Some?;
    }

    method StepOne(inFlight0: seq<seq<(Mac, PollResult)>>) returns (inFlight: seq<seq<(Mac, PollResult)>>)
      requires Valid() && AllPolled(stamped, inFlight0)
      modifies this
      ensures Valid() && AllPolled(stamped, inFlight) && OnlyNewer()
    {
      hide Register, Issued, Newer, StampsGrow, Advances;
      var mac: Mac := *;
      var k: int := *;
      inFlight := inFlight0;
      NothingNewer(data, stateAttribution);
      if {
        case true =>
          var _ := StartUpdate();
          inFlight := inFlight + [[]];
        case 0 <= k < |inFlight| && forall i :: 0 <= i < |inFlight[k]| ==> inFlight[k][i].0 != mac =>
          inFlight := PollFor(inFlight, k, mac);
        case 0 <= k < |inFlight| =>
          Finish(inFlight[k]);
          inFlight := inFlight[..k] + inFlight[k + 1..];
        case true =>
          var locked: bool := *;
          var battery: Option<int> := *;
          var source: string := *;
          var rssi: Option<int> := *;
          var now: real := *;
          Publish(mac, locked, battery, source, rssi, now);
          PolledStays(old(stamped), stamped, inFlight);
        case true =>
          var advertisement: Advertisement := *;
          var _ := ApplyAdvertisement(mac, advertisement);
          NewerIfSame(old(data), old(stateAttribution), data, stateAttribution);
        case true =>
          RequestActiveStateRefresh(mac);
      }
    }

    method PollFor(inFlight0: seq<seq<(Mac, PollResult)>>, k: nat, mac: Mac)
      returns (inFlight: seq<seq<(Mac, PollResult)>>)
      requires Valid() && AllPolled(stamped, inFlight0) && k < |inFlight0|
      requires forall i :: 0 <= i < |inFlight0[k]| ==> inFlight0[k][i].0 != mac
      modifies this`observationRevisions, this`stamped
      ensures Valid() && AllPolled(stamped, inFlight)
    {
      hide Register, Issued;
      var result := NoAnswer;
      if {
        case true => result := Failed;
        case true =>
        case true =>
          var raw: Option<int> := *;
          var battery: Option<int> := *;
          var rssi: Option<int> := *;
          var now: real := *;
          var o := Poll(mac, raw, battery, rssi, now);
          result := Answered(o);
      }
      PolledStays(old(stamped), stamped, inFlight0);
      inFlight := inFlight0[k := inFlight0[k] + [(mac, result)]];
    }

    // Any number of aggregations at once, finishing in any order, with polls
    // answering, commands, queries and advertisements in between: published
    // revisions only grow, and no known state becomes unknown.
    method Drive()
      requires Valid()
      modifies this
      ensures Valid() && OnlyNewer()
    {
      hide Register, Issued, Newer, Polled;
      var inFlight: seq<seq<(Mac, PollResult)>> := [];
      var steps: nat := *;
      NothingNewer(data, stateAttribution);
      while steps > 0
        invariant Valid() && OnlyNewer() && AllPolled(stamped, inFlight)
      {
        ghost var d, a := data, stateAttribution;
        inFlight := DriveStep(inFlight);
        NewerTransitive(old(data), old(stateAttribution), d, a, data, stateAttribution);
        steps := steps - 1;
      }
    }
  }
}
