/**
 * The payloads the API sends per address: the pool feed (the last snapshot
 * with the address's `minerStats` record attached) and the worker feed (the
 * address's workers hash, payments and workers list).
 */
module Feeds {
  import opened Options
  import opened JsNumber
  import opened JsString
  import opened Replies
  import opened Aggregation

  /** `config.poolServer.ports[i]`; an absent `hidden` flag is false. */
  datatype Port = Port(port: nat, difficulty: nat, desc: string, hidden: bool)

  /** `getPublicPorts` (lines 1360-1364): the ports not marked hidden, in configured order. */
  function PublicPorts(ports: seq<Port>): (r: seq<Port>)
    ensures |r| <= |ports|
    ensures forall p :: p in r <==> p in ports && !p.hidden
  {
    if |ports| == 0 then []
    else
      var rest := PublicPorts(ports[1..]);
      assert forall p :: p in ports <==> p == ports[0] || p in ports[1..];
      if ports[0].hidden then rest else [ports[0]] + rest
  }

  /** Filtering the public ports again removes nothing more. */
  lemma {:induction false} PublicPortsIdempotent(ports: seq<Port>)
    ensures PublicPorts(PublicPorts(ports)) == PublicPorts(ports)
  {
    if |ports| > 0 {
      PublicPortsIdempotent(ports[1..]);
      if !ports[0].hidden {
        assert ([ports[0]] + PublicPorts(ports[1..]))[1..] == PublicPorts(ports[1..]);
      }
    }
  }

  /** The `network` result: the daemon's last block header (lines 296-302). */
  datatype Header = Header(difficulty: nat, height: nat, timestamp: nat, reward: nat, hash: string)

  /**
   * `currentStats`: the results of one successful collection. Of the echoed
   * configuration only the public ports are kept; chart data is opaque text.
   */
  datatype Snapshot = Snapshot(pool: PoolData, network: Header, ports: seq<Port>, charts: string)

  /** The pool feed: the snapshot (none before the first success, `{}`) plus `miner`. */
  datatype PoolFeed = PoolFeed(snapshot: Option<Snapshot>, miner: MinerStat)

  /** The `{}` that stands for "no record". */
  const NoRecord := MinerStat(None, None)

  /** `address && minerStats[address]`: a non-empty address with a record. */
  predicate Recorded(ms: map<string, MinerStat>, address: Option<string>)
  {
    address.Some? && address.value != "" && address.value in ms
  }

  /**
   * Lines 367-373 and 470-476: the snapshot with `miner` replaced by the
   * address's record when there is one, and by `{}` otherwise.
   */
  function PoolFeedFor(current: Option<Snapshot>, ms: map<string, MinerStat>, address: Option<string>): (f: PoolFeed)
    ensures f.snapshot == current
    ensures Recorded(ms, address) ==> f.miner == ms[address.value]
    ensures !Recorded(ms, address) ==> f.miner == NoRecord
  {
    PoolFeed(current, if Recorded(ms, address) then ms[address.value] else NoRecord)
  }

  /** `x ? x : 0` for a `minerStats` field that may be missing. */
  function FieldOrZero(x: Option<Num>): (r: nat)
    ensures r != 0 <==> x.Some? && Truthy(x.value)
    ensures r != 0 ==> x.value == Val(r)
  {
    if x.Some? then OrZero(x.value) else 0
  }

  /** `minerStats[k] && minerStats[k]['hashrate'] ? minerStats[k]['hashrate'] : 0`. */
  function HashrateOf(ms: map<string, MinerStat>, k: string): (r: nat)
    ensures k !in ms ==> r == 0
    ensures k in ms ==> r == FieldOrZero(ms[k].hashrate)
  {
    if k in ms then FieldOrZero(ms[k].hashrate) else 0
  }

  /** The same default for `roundHashes`. */
  function RoundHashesOf(ms: map<string, MinerStat>, k: string): (r: nat)
    ensures k !in ms ==> r == 0
    ensures k in ms ==> r == FieldOrZero(ms[k].roundHashes)
  {
    if k in ms then FieldOrZero(ms[k].roundHashes) else 0
  }

  /** A Redis keyspace of hashes. */
  type Store = map<string, Hash>

  /** HGETALL on that keyspace: node_redis gives null for a missing or empty hash. */
  function HGetAll(store: Store, key: string): (r: Option<Hash>)
    ensures r.Some? <==> key in store && |store[key]| > 0
    ensures r.Some? ==> r.value == store[key]
  {
    if key in store && |store[key]| > 0 then Some(store[key]) else None
  }

  /** `h[f] ? parseInt(h[f]) : 0`: missing and empty fields read as 0. */
  function HashNumber(h: Hash, f: string): (r: Num)
    ensures !TruthyText(Get(h, f)) ==> r == Val(0)
    ensures TruthyText(Get(h, f)) ==> r == ParseInt(Get(h, f).value)
  {
    var v := Get(h, f);
    if TruthyText(v) then ParseInt(v.value) else Val(0)
  }

  /** The login of a `unique_workers` key: its third `:` field, if any. */
  function LoginOf(key: string): Option<string>
  {
    Field(Split(key, ':'), 2)
  }

  /** The key names a login with a worker name (`addrParts.workerName` is truthy). */
  predicate NamesWorker(naming: Naming, key: string)
  {
    LoginOf(key).Some? && HasWorker(naming, LoginOf(key).value)
  }

  /** One element of `workersData`; `lastShare` and `hashes` are set by the enrichment. */
  datatype WorkerRow = WorkerRow(name: string, hashrate: nat, lastShare: Option<Num>, hashes: Option<Num>)

  /** The row pushed for a key naming a worker (lines 416-422 and 551-557). */
  function RowOf(naming: Naming, ms: map<string, MinerStat>, key: string): (w: WorkerRow)
    requires NamesWorker(naming, key)
    ensures w.name != "" && Some(w.name) == naming(LoginOf(key).value)
    ensures w.hashrate == HashrateOf(ms, LoginOf(key).value)
    ensures w.lastShare.None? && w.hashes.None?
  {
    var login := LoginOf(key).value;
    WorkerRow(naming(login).value, HashrateOf(ms, login), None, None)
  }

  /**
   * The loops of lines 411-423 and 546-558: one row per key that names a
   * worker, in key order; keys without a worker name add nothing.
   */
  function WorkerRows(keys: seq<string>, naming: Naming, ms: map<string, MinerStat>): (rows: seq<WorkerRow>)
    ensures |rows| <= |keys|
  {
    if |keys| == 0 then []
    else
      var rows := WorkerRows(keys[..|keys| - 1], naming, ms);
      var last := keys[|keys| - 1];
      if NamesWorker(naming, last) then rows + [RowOf(naming, ms, last)] else rows
  }

  /** Every listed row comes from a key that names a worker. */
  lemma {:induction false} WorkerRowsSound(keys: seq<string>, naming: Naming, ms: map<string, MinerStat>, i: nat)
    requires i < |WorkerRows(keys, naming, ms)|
    ensures exists j ::
      0 <= j < |keys| && NamesWorker(naming, keys[j]) && WorkerRows(keys, naming, ms)[i] == RowOf(naming, ms, keys[j])
  {
    var init := keys[..|keys| - 1];
    var rows := WorkerRows(init, naming, ms);
    if i < |rows| {
      WorkerRowsSound(init, naming, ms, i);
      var j :| 0 <= j < |init| && NamesWorker(naming, init[j]) && rows[i] == RowOf(naming, ms, init[j]);
      assert keys[j] == init[j];
    } else {
      assert NamesWorker(naming, keys[|keys| - 1]);
    }
  }

  /** Every key that names a worker is listed. */
  lemma {:induction false} WorkerRowsComplete(keys: seq<string>, naming: Naming, ms: map<string, MinerStat>, j: nat)
    requires j < |keys| && NamesWorker(naming, keys[j])
    ensures exists i ::
      0 <= i < |WorkerRows(keys, naming, ms)| && WorkerRows(keys, naming, ms)[i] == RowOf(naming, ms, keys[j])
  {
    var init := keys[..|keys| - 1];
    var rows := WorkerRows(init, naming, ms);
    var out := WorkerRows(keys, naming, ms);
    if j == |keys| - 1 {
      assert out[|rows|] == RowOf(naming, ms, keys[j]);
    } else {
      assert keys[j] == init[j];
      WorkerRowsComplete(init, naming, ms, j);
      var i :| 0 <= i < |rows| && rows[i] == RowOf(naming, ms, init[j]);
      assert out[i] == rows[i];
    }
  }

  /** The workers list after the enrichment, plus the rows before it. */
  function Enrich(rows: seq<WorkerRow>, address: string, unique: Store): (r: seq<WorkerRow>)
    ensures |r| == |rows|
    ensures forall i :: 0 <= i < |r| ==> r[i].name == rows[i].name && r[i].hashrate == rows[i].hashrate
    ensures forall i :: 0 <= i < |r| ==>
      var detail := HGetAll(unique, address + "+" + rows[i].name);
      && (detail.None? ==> r[i].lastShare == rows[i].lastShare && r[i].hashes == rows[i].hashes)
      && (detail.Some? ==>
            r[i].lastShare == Some(HashNumber(detail.value, "lastShare"))
            && r[i].hashes == Some(HashNumber(detail.value, "hashes")))
  {
    seq(|rows|, i requires 0 <= i < |rows| =>
      var w := rows[i];
      match HGetAll(unique, address + "+" + w.name)
      case None => w
      case Some(h) => w.(lastShare := Some(HashNumber(h, "lastShare")), hashes := Some(HashNumber(h, "hashes"))))
  }

  /** What the first MULTI of a worker request reads (lines 395-399 and 525-529). */
  datatype WorkerReplies = WorkerReplies(workers: Option<Hash>, payments: seq<Scored>, workerKeys: seq<string>)

  /** `stats`: the workers hash with `hashrate` and `roundHashes` filled in. */
  datatype WorkerStats = WorkerStats(fields: Hash, hashrate: nat, roundHashes: nat)

  /** The worker feed, or `{error: 'Not found'}`. */
  datatype WorkerFeed =
    | NotFound
    | Feed(stats: WorkerStats, payments: seq<string>, charts: string, workers: seq<WorkerRow>)

  /**
   * `broadcastWorkerStats` (lines 395-439) and the non-longpoll branch of
   * `handleMinerStats` (lines 524-573), which repeat the same steps: a failed
   * read or a missing workers hash gives "Not found"; otherwise the stats
   * carry the address's rate and round count (0 when unknown), and the
   * workers are the worker-naming keys, enriched from their `unique_workers`
   * hashes. `read` is None when the MULTI failed.
   */
  function WorkerFeedFor(address: string, read: Option<WorkerReplies>, ms: map<string, MinerStat>,
                         naming: Naming, charts: string, unique: Store): (f: WorkerFeed)
    ensures f.NotFound? <==> read.None? || read.value.workers.None?
    ensures f.Feed? ==>
      && f.stats == WorkerStats(read.value.workers.value, HashrateOf(ms, address), RoundHashesOf(ms, address))
      && f.payments == Flatten(read.value.payments)
      && f.charts == charts
      && f.workers == Enrich(WorkerRows(read.value.workerKeys, naming, ms), address, unique)
  {
    match read
    case None => NotFound
    case Some(rs) =>
      match rs.workers
      case None => NotFound
      case Some(h) =>
        var stats := WorkerStats(h, HashrateOf(ms, address), RoundHashesOf(ms, address));
        Feed(stats, Flatten(rs.payments), charts, Enrich(WorkerRows(rs.workerKeys, naming, ms), address, unique))
  }
}
