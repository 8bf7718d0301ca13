/**
 * The API process state and its transitions: the two subscription endpoints,
 * the two stats requests, and one run of `collectStats` followed by the
 * broadcast it triggers.
 */
module Service {
  import opened Options
  import opened JsNumber
  import opened JsString
  import opened Replies
  import opened Aggregation
  import opened Registry
  import opened Feeds

  /** The module-level variables of lines 27-32. */
  datatype ApiState = ApiState(
    current: Option<Snapshot>,              // currentStats; None is the initial `{}`
    minerStats: map<string, MinerStat>,
    minersHashrate: map<string, Num>,
    live: Registry,                         // liveConnections
    watchers: Registry)                     // addressConnections

  const Initial := ApiState(None, map[], map[], map[], map[])

  /** `urlParts.query.address ? urlParts.query.address : 'undefined'` (line 53). */
  function LiveAddress(address: Option<string>): (a: string)
    ensures TruthyText(address) ==> a == address.value
    ensures !TruthyText(address) ==> a == "undefined"
  {
    if TruthyText(address) then address.value else "undefined"
  }

  /** A query parameter used in string concatenation: a missing one reads "undefined". */
  function QueryText(address: Option<string>): string
  {
    address.GetOr("undefined")
  }

  /** `/live_stats` (lines 52-64): the response waits in `liveConnections`; nothing else changes. */
  function SubscribeLive(s: ApiState, address: Option<string>, uid: string, sink: SinkId): (t: ApiState)
    ensures t.live.Keys == s.live.Keys + {ConnectionKey(LiveAddress(address), uid)}
    ensures t.live[ConnectionKey(LiveAddress(address), uid)] == sink
    ensures t.(live := s.live) == s
  {
    s.(live := Register(s.live, LiveAddress(address), uid, sink))
  }

  /**
   * The longpoll branch of `handleMinerStats` (lines 495-522): when the
   * workers hash exists the response waits in `addressConnections`;
   * otherwise it is answered "Not found" at once and the state is unchanged.
   */
  function SubscribeWorker(s: ApiState, address: Option<string>, uid: string, sink: SinkId, exists_: bool)
    : (r: (ApiState, Option<WorkerFeed>))
    ensures exists_ ==>
      && r.1.None?
      && r.0.watchers.Keys == s.watchers.Keys + {ConnectionKey(QueryText(address), uid)}
      && r.0.watchers[ConnectionKey(QueryText(address), uid)] == sink
      && r.0.(watchers := s.watchers) == s
    ensures !exists_ ==> r == (s, Some(NotFound))
  {
    if exists_ then (s.(watchers := Register(s.watchers, QueryText(address), uid, sink)), None)
    else (s, Some(NotFound))
  }

  /** `/stats` (lines 469-487). */
  function HandleStats(s: ApiState, address: Option<string>): (f: PoolFeed)
    ensures f.snapshot == s.current
    ensures Recorded(s.minerStats, address) ==> f.miner == s.minerStats[address.value]
    ensures !Recorded(s.minerStats, address) ==> f.miner == NoRecord
  {
    PoolFeedFor(s.current, s.minerStats, address)
  }

  /** The non-longpoll branch of `/stats_address` (lines 524-593). */
  function HandleMinerStats(s: ApiState, address: Option<string>, read: Option<WorkerReplies>,
                            naming: Naming, charts: string, unique: Store): (f: WorkerFeed)
    ensures f.NotFound? <==> read.None? || read.value.workers.None?
    ensures f.Feed? ==> f.stats.hashrate == HashrateOf(s.minerStats, QueryText(address))
    ensures f.Feed? ==>
      && f.stats == WorkerStats(read.value.workers.value, HashrateOf(s.minerStats, QueryText(address)),
                                RoundHashesOf(s.minerStats, QueryText(address)))
      && f.payments == Flatten(read.value.payments)
      && f.charts == charts
      && f.workers == Enrich(WorkerRows(read.value.workerKeys, naming, s.minerStats), QueryText(address), unique)
  {
    WorkerFeedFor(QueryText(address), read, s.minerStats, naming, charts, unique)
  }

  /**
   * For a consistent store (the workers hash exists exactly when the MULTI
   * reads one), a longpoll request subscribes exactly when the plain request
   * would have been answered with a feed rather than "Not found".
   */
  lemma LongpollAgreesWithPlain(s: ApiState, address: Option<string>, uid: string, sink: SinkId,
                                read: WorkerReplies, naming: Naming, charts: string, unique: Store)
    ensures var r := SubscribeWorker(s, address, uid, sink, read.workers.Some?);
      r.1.None? <==> HandleMinerStats(s, address, Some(read), naming, charts, unique).Feed?
  {
  }

  /** What one `collectStats` run receives from its four parallel tasks (None: that task failed). */
  datatype Collection = Collection(pool: Option<PoolReplies>, network: Option<Header>, charts: Option<string>)

  predicate Succeeded(c: Collection)
  {
    c.pool.Some? && c.network.Some? && c.charts.Some?
  }

  /** The responses ended by one broadcast, by connection key. */
  datatype Outbox = Outbox(live: map<string, Delivery>, watchers: map<string, Delivery>)

  /** The environment a cycle runs in: configuration and the reads the broadcast makes. */
  datatype Env = Env(
    window: nat,                               // config.api.hashrateWindow
    naming: Naming,                            // utils.getAddressParts
    ports: seq<Port>,                          // config.poolServer.ports
    encodePool: PoolFeed -> string,            // JSON.stringify
    encodeWorker: WorkerFeed -> string,        // JSON.stringify
    readWorker: string -> Option<WorkerReplies>,
    userCharts: string -> string,              // charts.getUserChartsData
    unique: Store)                             // the unique_workers hashes

  /** The pool feed a live group receives (lines 367-375). */
  function LiveBody(t: ApiState, env: Env, group: string): PoolFeed
  {
    PoolFeedFor(t.current, t.minerStats, Some(group))
  }

  /** The worker feed a watcher group receives (lines 393-439). */
  function WatcherBody(t: ApiState, env: Env, group: string): WorkerFeed
  {
    WorkerFeedFor(group, env.readWorker(group), t.minerStats, env.naming, env.userCharts(group), env.unique)
  }

  /**
   * One run of `collectStats` (lines 166-350) and, on success, the broadcast
   * of lines 355-391:
   * - a failed Redis read changes nothing;
   * - a successful one replaces `minerStats` and `minersHashrate`, even when
   *   the daemon or chart task fails;
   * - only when every task succeeds is `currentStats` replaced and every
   *   waiting connection ended with its group's payload; each finish handler
   *   then deletes its key, so both registries end empty.
   */
  method CollectStats(s: ApiState, c: Collection, env: Env) returns (t: ApiState, out: Outbox)
    requires env.window > 0
    ensures c.pool.None? ==> t == s && out == Outbox(map[], map[])
    ensures c.pool.Some? ==>
      var cycle := CollectPool(c.pool.value, env.window, env.naming);
      t.minerStats == cycle.minerStats && t.minersHashrate == cycle.minersHashrate
    ensures Succeeded(c) ==>
      t.current == Some(Snapshot(CollectPool(c.pool.value, env.window, env.naming).data,
                                 c.network.value, PublicPorts(env.ports), c.charts.value))
    ensures !Succeeded(c) ==>
      t.current == s.current && t.live == s.live && t.watchers == s.watchers && out == Outbox(map[], map[])
    ensures Succeeded(c) ==>
      && out.live.Keys == s.live.Keys
      && (forall k :: k in out.live ==>
            out.live[k] == Delivery(s.live[k], env.encodePool(LiveBody(t, env, GroupOf(k)))))
      && out.watchers.Keys == s.watchers.Keys
      && (forall k :: k in out.watchers ==>
            out.watchers[k] == Delivery(s.watchers[k], env.encodeWorker(WatcherBody(t, env, GroupOf(k)))))
      && t.live == map[] && t.watchers == map[]
  {
    if c.pool.None? {
      return s, Outbox(map[], map[]);
    }
    var cycle := CollectPool(c.pool.value, env.window, env.naming);
    t := s.(minerStats := cycle.minerStats, minersHashrate := cycle.minersHashrate);
    if !Succeeded(c) {
      return t, Outbox(map[], map[]);
    }
    t := t.(current := Some(Snapshot(cycle.data, c.network.value, PublicPorts(env.ports), c.charts.value)));
    t, out := BroadcastAll(t, env);
  }

  /**
   * `broadcastLiveStats` and `broadcastWorkerStats` (lines 355-439): every
   * waiting connection is ended with its group's payload, and each finish
   * handler deletes its key, so both registries end empty.
   */
  method BroadcastAll(s: ApiState, env: Env) returns (t: ApiState, out: Outbox)
    ensures t == s.(live := map[], watchers := map[])
    ensures out.live.Keys == s.live.Keys
    ensures forall k :: k in out.live ==>
      out.live[k] == Delivery(s.live[k], env.encodePool(LiveBody(s, env, GroupOf(k))))
    ensures out.watchers.Keys == s.watchers.Keys
    ensures forall k :: k in out.watchers ==>
      out.watchers[k] == Delivery(s.watchers[k], env.encodeWorker(WatcherBody(s, env, GroupOf(k))))
  {
    var liveOut := Broadcast(s.live, g => LiveBody(s, env, g), env.encodePool);
    var watcherOut := Broadcast(s.watchers, g => WatcherBody(s, env, g), env.encodeWorker);
    out := Outbox(liveOut, watcherOut);
    t := s.(live := s.live - liveOut.Keys, watchers := s.watchers - watcherOut.Keys);
    assert t.live.Keys == {};
    assert t.watchers.Keys == {};
  }

  /**
   * A visitor who subscribed with a '+'-free address receives at the next
   * successful broadcast exactly what `/stats?address=` returns afterwards.
   */
  lemma LiveMatchesStats(s: ApiState, env: Env, address: string, uid: string, t: ApiState)
    requires address != "" && '+' !in address
    ensures LiveBody(t, env, GroupOf(ConnectionKey(LiveAddress(Some(address)), uid)))
      == HandleStats(t, Some(address))
  {
    GroupOfConnectionKey(address, uid);
  }

  /**
   * A watcher who subscribed with a '+'-free address receives at the next
   * successful broadcast exactly what the plain `/stats_address` request
   * answers on the same reads.
   */
  lemma WatcherMatchesMinerStats(s: ApiState, env: Env, address: string, uid: string, t: ApiState)
    requires '+' !in address
    ensures WatcherBody(t, env, GroupOf(ConnectionKey(QueryText(Some(address)), uid)))
      == HandleMinerStats(t, Some(address), env.readWorker(address), env.naming, env.userCharts(address), env.unique)
  {
    GroupOfConnectionKey(address, uid);
  }

  /**
   * A visitor with no address is grouped under "undefined", the same key a
   * hashrate sample without a second field is booked under; once such a
   * sample has been collected, that visitor's `miner` is the malformed
   * sample's record rather than `{}`.
   */
  lemma AddresslessVisitorSeesUndefinedRecord(s: ApiState, r: PoolReplies, env: Env, uid: string, i: nat)
    requires env.window > 0
    requires i < |r.hashrates| && ':' !in r.hashrates[i]
    ensures var t := s.(minerStats := CollectPool(r, env.window, env.naming).minerStats);
      && LiveBody(t, env, GroupOf(ConnectionKey(LiveAddress(None), uid))).miner == t.minerStats["undefined"]
      && t.minerStats["undefined"].hashrate.Some?
  {
    var t := s.(minerStats := CollectPool(r, env.window, env.naming).minerStats);
    var samples := Samples(r.hashrates);
    SampleWithoutLogin(r.hashrates[i]);
    assert samples[i].key == "undefined";
    assert HasKey(samples, "undefined");
    var c := CollectPool(r, env.window, env.naming);
    assert "undefined" in c.minersHashrate;
    assert Recorded(t.minerStats, Some("undefined"));
    assert LiveAddress(None) == "undefined";
    GroupOfConnectionKey("undefined", uid);
    UndefinedHasNoPlus();
    assert GroupOf(ConnectionKey(LiveAddress(None), uid)) == "undefined";
  }

  /** A sample with no `:` has no second field, so its key is the text "undefined". */
  lemma SampleWithoutLogin(raw: string)
    requires ':' !in raw
    ensures ParseSample(raw).key == "undefined"
  {
    assert Join([raw], ':') == raw;
    SplitJoin([raw], ':');
  }

  lemma UndefinedHasNoPlus()
    ensures '+' !in "undefined"
  {
    assert "undefined" == ['u', 'n', 'd', 'e', 'f', 'i', 'n', 'e', 'd'];
  }
}
