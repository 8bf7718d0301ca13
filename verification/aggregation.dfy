/**
 * The pool branch of `collectStats`: from the replies of one Redis MULTI to
 * the pool record, the per-participant hashrate table (`minersHashrate`) and
 * the per-participant metric table (`minerStats`).
 */
module Aggregation {
  import opened Options
  import opened JsNumber
  import opened JsString
  import opened Replies

  /**
   * `utils.getAddressParts(key).workerName`. lib/utils.js is not part of this
   * model, so the split of a key into address and worker name is a parameter.
   */
  type Naming = string -> Option<string>

  /** `if (addrParts.workerName)`: the key names a worker (a non-empty worker name). */
  predicate HasWorker(naming: Naming, key: string)
  {
    TruthyText(naming(key))
  }

  /** The difficulty a sample contributes once `(x || 0)` has absorbed NaN. */
  function Amount(x: Num): nat
  {
    if x.Val? then x.n else 0
  }

  predicate AllNumeric(samples: seq<Sample>)
  {
    forall i :: 0 <= i < |samples| ==> samples[i].difficulty.Val?
  }

  predicate HasKey(samples: seq<Sample>, k: string)
  {
    exists i :: 0 <= i < |samples| && samples[i].key == k
  }

  function Keys(samples: seq<Sample>): seq<string>
  {
    seq(|samples|, i requires 0 <= i < |samples| => samples[i].key)
  }

  /** `minersHashrate[k] || 0`: an absent or falsy entry reads as 0. */
  function Lookup0(m: map<string, Num>, k: string): nat
  {
    if k in m then OrZero(m[k]) else 0
  }

  /**
   * The fold of lines 237-240: each sample adds its difficulty to its key's
   * running volume, `(minersHashrate[key] || 0) + parseInt(difficulty)`.
   */
  function Volumes(samples: seq<Sample>): (vol: map<string, Num>)
    ensures forall k :: k in vol <==> HasKey(samples, k)
  {
    if |samples| == 0 then map[]
    else
      var init := samples[..|samples| - 1];
      var x := samples[|samples| - 1];
      var m := Volumes(init);
      assert forall k :: HasKey(samples, k) <==> HasKey(init, k) || x.key == k by {
        assert forall i :: 0 <= i < |init| ==> init[i] == samples[i];
      }
      m[x.key := Add(Val(Lookup0(m, x.key)), x.difficulty)]
  }

  // Reference definitions, summing sample by sample from the front.

  /** The total difficulty of the samples of key `k`. */
  function KeyVolume(samples: seq<Sample>, k: string): nat
  {
    if |samples| == 0 then 0
    else (if samples[0].key == k then Amount(samples[0].difficulty) else 0) + KeyVolume(samples[1..], k)
  }

  /** The total difficulty of the samples whose key names no worker. */
  function MinerVolume(samples: seq<Sample>, naming: Naming): nat
  {
    if |samples| == 0 then 0
    else
      var own := if !HasWorker(naming, samples[0].key) then Amount(samples[0].difficulty) else 0;
      own + MinerVolume(samples[1..], naming)
  }

  lemma {:induction false} KeyVolumeSnoc(s: seq<Sample>, x: Sample, k: string)
    ensures KeyVolume(s + [x], k) == KeyVolume(s, k) + (if x.key == k then Amount(x.difficulty) else 0)
  {
    if |s| > 0 {
      assert (s + [x])[1..] == s[1..] + [x];
      KeyVolumeSnoc(s[1..], x, k);
    }
  }

  lemma {:induction false} MinerVolumeSnoc(s: seq<Sample>, x: Sample, naming: Naming)
    ensures MinerVolume(s + [x], naming)
      == MinerVolume(s, naming) + (if !HasWorker(naming, x.key) then Amount(x.difficulty) else 0)
  {
    if |s| > 0 {
      assert (s + [x])[1..] == s[1..] + [x];
      MinerVolumeSnoc(s[1..], x, naming);
    }
  }

  lemma {:induction false} KeyVolumeAbsent(s: seq<Sample>, k: string)
    requires !HasKey(s, k)
    ensures KeyVolume(s, k) == 0
  {
    if |s| > 0 {
      assert !HasKey(s[1..], k) by {
        assert forall i :: 0 <= i < |s| - 1 ==> s[1..][i] == s[i + 1];
      }
      KeyVolumeAbsent(s[1..], k);
    }
  }

  /** With well-formed samples, each key's volume is the sum of its samples' difficulties. */
  lemma {:induction false} VolumesAreSums(samples: seq<Sample>)
    requires AllNumeric(samples)
    ensures forall k :: k in Volumes(samples) ==> Volumes(samples)[k] == Val(KeyVolume(samples, k))
  {
    if |samples| > 0 {
      var init := samples[..|samples| - 1];
      var x := samples[|samples| - 1];
      assert samples == init + [x];
      assert AllNumeric(init) by {
        assert forall i :: 0 <= i < |init| ==> init[i] == samples[i];
      }
      VolumesAreSums(init);
      var m := Volumes(init);
      forall k | k in Volumes(samples)
        ensures Volumes(samples)[k] == Val(KeyVolume(samples, k))
      {
        KeyVolumeSnoc(init, x, k);
        if k == x.key {
          if k !in m {
            KeyVolumeAbsent(init, k);
          }
          assert Lookup0(m, k) == KeyVolume(init, k);
        }
      }
    }
  }

  /** The per-key loop of lines 244-257, as counted so far. */
  datatype Tally = Tally(miners: nat, workers: nat, minerVolume: Num)

  /**
   * Walks the keys in `for…in` order: a key without a worker name is one
   * miner and adds its volume to the pool total, any other key is one worker.
   */
  function TallyKeys(order: seq<string>, vol: map<string, Num>, naming: Naming): (t: Tally)
    requires forall i :: 0 <= i < |order| ==> order[i] in vol
    ensures t.miners + t.workers == |order|
  {
    if |order| == 0 then Tally(0, 0, Val(0))
    else
      var rest := TallyKeys(order[1..], vol, naming);
      var k := order[0];
      if !HasWorker(naming, k) then Tally(rest.miners + 1, rest.workers, Add(vol[k], rest.minerVolume))
      else Tally(rest.miners, rest.workers + 1, rest.minerVolume)
  }

  predicate Distinct(s: seq<string>)
  {
    forall i, j :: 0 <= i < j < |s| ==> s[i] != s[j]
  }

  /** Over distinct keys the counts are the sizes of the two classes of keys. */
  lemma {:induction false} TallyCounts(order: seq<string>, vol: map<string, Num>, naming: Naming)
    requires forall i :: 0 <= i < |order| ==> order[i] in vol
    requires Distinct(order)
    ensures TallyKeys(order, vol, naming).miners == |set k | k in order && !HasWorker(naming, k)|
    ensures TallyKeys(order, vol, naming).workers == |set k | k in order && HasWorker(naming, k)|
  {
    if |order| > 0 {
      var tail := order[1..];
      TallyCounts(tail, vol, naming);
      var k := order[0];
      assert k !in tail;
      var m := set x | x in order && !HasWorker(naming, x);
      var w := set x | x in order && HasWorker(naming, x);
      var mt := set x | x in tail && !HasWorker(naming, x);
      var wt := set x | x in tail && HasWorker(naming, x);
      assert forall x :: x in order <==> x == k || x in tail;
      if HasWorker(naming, k) {
        assert m == mt;
        assert w == wt + {k};
      } else {
        assert m == mt + {k};
        assert w == wt;
      }
    }
  }

  /** The volumes of the worker-less keys of `order`, by the reference definition. */
  function MinerKeySum(order: seq<string>, samples: seq<Sample>, naming: Naming): nat
  {
    if |order| == 0 then 0
    else
      var own := if !HasWorker(naming, order[0]) then KeyVolume(samples, order[0]) else 0;
      own + MinerKeySum(order[1..], samples, naming)
  }

  lemma {:induction false} MinerKeySumSnoc(order: seq<string>, s: seq<Sample>, x: Sample, naming: Naming)
    requires Distinct(order)
    ensures MinerKeySum(order, s + [x], naming) == MinerKeySum(order, s, naming)
      + (if x.key in order && !HasWorker(naming, x.key) then Amount(x.difficulty) else 0)
  {
    if |order| > 0 {
      KeyVolumeSnoc(s, x, order[0]);
      MinerKeySumSnoc(order[1..], s, x, naming);
      assert x.key in order <==> x.key == order[0] || x.key in order[1..];
      assert x.key == order[0] ==> x.key !in order[1..];
    }
  }

  /**
   * Regrouping: summing volumes key by key over a distinct list that covers
   * every sample key gives the sum over the worker-less samples.
   */
  lemma {:induction false} MinerKeySumRegroup(order: seq<string>, samples: seq<Sample>, naming: Naming)
    requires Distinct(order)
    requires forall i :: 0 <= i < |samples| ==> samples[i].key in order
    ensures MinerKeySum(order, samples, naming) == MinerVolume(samples, naming)
  {
    if |samples| == 0 {
      MinerKeySumEmpty(order, naming);
    } else {
      var init := samples[..|samples| - 1];
      var x := samples[|samples| - 1];
      assert samples == init + [x];
      MinerKeySumRegroup(order, init, naming);
      MinerKeySumSnoc(order, init, x, naming);
      MinerVolumeSnoc(init, x, naming);
    }
  }

  lemma {:induction false} MinerKeySumEmpty(order: seq<string>, naming: Naming)
    ensures MinerKeySum(order, [], naming) == 0
  {
    if |order| > 0 {
      MinerKeySumEmpty(order[1..], naming);
    }
  }

  lemma {:induction false} TallyVolume(order: seq<string>, vol: map<string, Num>, samples: seq<Sample>, naming: Naming)
    requires forall k :: k in order ==> k in vol && vol[k] == Val(KeyVolume(samples, k))
    ensures TallyKeys(order, vol, naming).minerVolume == Val(MinerKeySum(order, samples, naming))
  {
    if |order| > 0 {
      var tail := order[1..];
      assert forall k :: k in tail ==> k in order;
      TallyVolume(tail, vol, samples, naming);
      var rest := TallyKeys(tail, vol, naming);
      assert TallyKeys(order, vol, naming).minerVolume
        == if !HasWorker(naming, order[0]) then Add(vol[order[0]], rest.minerVolume) else rest.minerVolume;
    }
  }

  /** `minerStats[key]`: each field is present only when that loop wrote it. */
  datatype MinerStat = MinerStat(hashrate: Option<Num>, roundHashes: Option<Num>)

  /** `parseInt(replies[5][miner])` summed over the round's participants. */
  function RoundSum(order: seq<string>, h: Hash): Num
    requires forall i :: 0 <= i < |order| ==> Get(h, order[i]).Some?
  {
    if |order| == 0 then Val(0)
    else Add(ParseInt(Get(h, order[0]).value), RoundSum(order[1..], h))
  }

  /** `data.roundHashes` with time-decay weighting disabled. */
  function RoundTotal(round: Option<Hash>): Num
  {
    match round
    case None => Val(0)
    case Some(h) => RoundSum(Fields(h), h)
  }

  /** Per-block totals accumulated by the loop of lines 221-230. */
  datatype BlockTotals = BlockTotals(difficulty: Num, shares: Num)

  function AddTotals(a: BlockTotals, b: BlockTotals): BlockTotals
  {
    BlockTotals(Add(a.difficulty, b.difficulty), Add(a.shares, b.shares))
  }

  /** Only rows whose sixth field is non-empty add their difficulty and shares. */
  function BlockSums(rows: seq<string>): (t: BlockTotals)
  {
    if |rows| == 0 then BlockTotals(Val(0), Val(0))
    else
      var rest := BlockSums(rows[1..]);
      if Revenued(rows[0]) then AddTotals(BlockTotals(RowDifficulty(rows[0]), RowShares(rows[0])), rest)
      else rest
  }

  lemma AddAssoc(a: Num, b: Num, c: Num)
    ensures Add(Add(a, b), c) == Add(a, Add(b, c))
  {
  }

  /** Block totals of a concatenation combine the totals of the parts (candidates ++ matured). */
  lemma {:induction false} BlockSumsConcat(a: seq<string>, b: seq<string>)
    ensures BlockSums(a + b) == AddTotals(BlockSums(a), BlockSums(b))
  {
    if |a| == 0 {
      assert a + b == b;
    } else {
      assert (a + b)[1..] == a[1..] + b;
      BlockSumsConcat(a[1..], b);
      var r := BlockTotals(RowDifficulty(a[0]), RowShares(a[0]));
      AddAssoc(r.difficulty, BlockSums(a[1..]).difficulty, BlockSums(b).difficulty);
      AddAssoc(r.shares, BlockSums(a[1..]).shares, BlockSums(b).shares);
    }
  }

  /** The rows whose sixth field is non-empty, in order. */
  function RevenuedRows(rows: seq<string>): (r: seq<string>)
    ensures forall x :: x in r ==> x in rows && Revenued(x)
    ensures forall x :: x in rows && Revenued(x) ==> x in r
  {
    if |rows| == 0 then []
    else
      var rest := RevenuedRows(rows[1..]);
      assert forall x :: x in rows <==> x == rows[0] || x in rows[1..];
      if Revenued(rows[0]) then [rows[0]] + rest else rest
  }

  /** Dropping every row without revenue leaves the totals unchanged. */
  lemma {:induction false} BlockSumsOnlyRevenued(rows: seq<string>)
    ensures BlockSums(rows) == BlockSums(RevenuedRows(rows))
  {
    if |rows| > 0 {
      BlockSumsOnlyRevenued(rows[1..]);
      if Revenued(rows[0]) {
        assert ([rows[0]] + RevenuedRows(rows[1..]))[1..] == RevenuedRows(rows[1..]);
      }
    }
  }

  /** The replies `collectStats` reads, in the order of its MULTI (lines 175-187). */
  datatype PoolReplies = PoolReplies(
    hashrates: seq<string>,     // replies[1], already trimmed to the window by Redis
    stats: Option<Hash>,        // replies[2] and replies[6], the same HGETALL
    candidates: seq<Scored>,    // replies[3]
    matured: seq<Scored>,       // replies[4]
    roundShares: Option<Hash>,  // replies[5]
    maturedCount: nat,          // replies[7]
    payments: seq<Scored>,      // replies[8]
    paymentsCount: nat,         // replies[9]
    paymentKeys: seq<string>)   // replies[10]

  /** The `data` record of the pool branch (efficiency is not modelled). */
  datatype PoolData = PoolData(
    stats: Option<Hash>,
    blocks: seq<string>,
    totalBlocks: nat,
    totalDiff: Num,
    totalShares: Num,
    payments: seq<string>,
    totalPayments: nat,
    totalMinersPaid: nat,
    miners: nat,
    workers: nat,
    hashrate: Num,
    roundHashes: Num,
    lastBlockFound: Option<string>)

  /** What one successful pool read produces: `data`, `minerStats` and `minersHashrate`. */
  datatype PoolCycle = PoolCycle(data: PoolData, minerStats: map<string, MinerStat>, minersHashrate: map<string, Num>)

  function Samples(raw: seq<string>): (s: seq<Sample>)
    ensures |s| == |raw|
    ensures forall i :: 0 <= i < |raw| ==> s[i] == ParseSample(raw[i])
  {
    seq(|raw|, i requires 0 <= i < |raw| => ParseSample(raw[i]))
  }

  /** The participants of the current round: the fields of `replies[5]`. */
  predicate InRound(round: Option<Hash>, k: string)
  {
    round.Some? && Get(round.value, k).Some?
  }

  /**
   * A key order for the `for…in` loop over `minersHashrate`: first occurrence
   * in the samples. JavaScript visits integer-like keys first, in ascending
   * order; no result depends on the order, only on each key being visited once.
   */
  function KeyOrder(samples: seq<Sample>): (order: seq<string>)
    ensures Distinct(order)
    ensures forall k :: k in order <==> HasKey(samples, k)
  {
    var keys := Keys(samples);
    forall k ensures k in keys <==> HasKey(samples, k) {
      if HasKey(samples, k) {
        var i :| 0 <= i < |samples| && samples[i].key == k;
        assert keys[i] == k;
      }
    }
    Dedup(keys)
  }

  /** Lines 242-252 over the hashrate samples: the miner and worker counts and the miner-only volume. */
  function MinerTally(samples: seq<Sample>, naming: Naming): (t: Tally)
    ensures t.miners == |set k | k in Volumes(samples) && !HasWorker(naming, k)|
    ensures t.workers == |set k | k in Volumes(samples) && HasWorker(naming, k)|
    ensures t.miners + t.workers == |Volumes(samples)|
  {
    var vol := Volumes(samples);
    var order := KeyOrder(samples);
    TallyCounts(order, vol, naming);
    assert (set k | k in order && !HasWorker(naming, k)) == (set k | k in vol && !HasWorker(naming, k));
    assert (set k | k in order && HasWorker(naming, k)) == (set k | k in vol && HasWorker(naming, k));
    DistinctCard(order);
    assert (set k | k in order) == vol.Keys;
    TallyKeys(order, vol, naming)
  }

  /** Line 253: every volume becomes a rate over the window. */
  function Rates(vol: map<string, Num>, window: nat): (rates: map<string, Num>)
    requires window > 0
    ensures rates.Keys == vol.Keys
    ensures forall k :: k in rates ==> rates[k] == Round(vol[k], window)
  {
    map k | k in vol :: Round(vol[k], window)
  }

  /**
   * Lines 255-256 and 275-276: `minerStats` holds a record for every key that
   * has a rate or a round share count, with exactly those two fields set.
   */
  function MinerStats(rates: map<string, Num>, round: Option<Hash>): (ms: map<string, MinerStat>)
    ensures forall k :: k in ms <==> k in rates || InRound(round, k)
    ensures forall k :: k in ms ==> (ms[k].hashrate.Some? <==> k in rates)
    ensures forall k :: k in ms && k in rates ==> ms[k].hashrate == Some(rates[k])
    ensures forall k :: k in ms ==> (ms[k].roundHashes.Some? <==> InRound(round, k))
    ensures forall k :: k in ms && InRound(round, k) ==>
      ms[k].roundHashes == Some(ParseInt(Get(round.value, k).value))
  {
    var roundKeys := if round.Some? then (set k | k in Fields(round.value)) else {};
    map k | k in rates.Keys + roundKeys ::
      MinerStat(
        if k in rates then Some(rates[k]) else None,
        if InRound(round, k) then Some(ParseInt(Get(round.value, k).value)) else None)
  }

  /** The pool branch of `collectStats` with slush-mining time decay disabled. */
  function CollectPool(r: PoolReplies, window: nat, naming: Naming): (c: PoolCycle)
    requires window > 0
    ensures c.data.blocks == Flatten(r.candidates) + Flatten(r.matured)
    ensures 2 * c.data.totalBlocks == 2 * r.maturedCount + |Flatten(r.candidates)|
    ensures c.data.totalMinersPaid == if |r.paymentKeys| > 0 then |r.paymentKeys| - 1 else 0
    ensures forall k :: k in c.minersHashrate <==> HasKey(Samples(r.hashrates), k)
    ensures forall k :: k in c.minerStats <==> k in c.minersHashrate || InRound(r.roundShares, k)
    ensures forall k :: k in c.minersHashrate ==> c.minerStats[k].hashrate == Some(c.minersHashrate[k])
    ensures forall k :: k in c.minerStats && k !in c.minersHashrate ==> c.minerStats[k].hashrate.None?
    ensures c.data.miners == |set k | k in c.minersHashrate && !HasWorker(naming, k)|
    ensures c.data.workers == |set k | k in c.minersHashrate && HasWorker(naming, k)|
    ensures c.data.miners + c.data.workers == |c.minersHashrate|
    ensures forall k :: k in c.minerStats ==> (c.minerStats[k].roundHashes.Some? <==> InRound(r.roundShares, k))
    ensures forall k :: InRound(r.roundShares, k) ==>
      c.minerStats[k].roundHashes == Some(ParseInt(Get(r.roundShares.value, k).value))
    ensures c.data.stats == r.stats
    ensures c.data.payments == Flatten(r.payments)
    ensures c.data.totalPayments == r.paymentsCount
    ensures c.data.lastBlockFound.Some? ==> r.stats.Some?
    ensures c.data.roundHashes == RoundTotal(r.roundShares)
  {
    var samples := Samples(r.hashrates);
    var vol := Volumes(samples);
    var tally := MinerTally(samples, naming);
    var rates := Rates(vol, window);
    var blocks := Flatten(r.candidates) + Flatten(r.matured);
    var totals := BlockSums(blocks);
    var data := PoolData(
      r.stats,
      blocks,
      r.maturedCount + |r.candidates|,
      totals.difficulty,
      totals.shares,
      Flatten(r.payments),
      r.paymentsCount,
      if |r.paymentKeys| > 0 then |r.paymentKeys| - 1 else 0,
      tally.miners,
      tally.workers,
      Round(tally.minerVolume, window),
      RoundTotal(r.roundShares),
      if r.stats.Some? then Get(r.stats.value, "lastBlockFound") else None);
    PoolCycle(data, MinerStats(rates, r.roundShares), rates)
  }

  /**
   * Lines 236-257: with well-formed samples, every sampled key's rate is its
   * summed difficulty over the window, rounded as `Math.round` does, and its
   * `minerStats` record carries the same rate.
   */
  lemma RatesAreRoundedSums(r: PoolReplies, window: nat, naming: Naming)
    requires window > 0
    requires AllNumeric(Samples(r.hashrates))
    ensures var c := CollectPool(r, window, naming);
      forall k :: k in c.minersHashrate ==>
        && c.minersHashrate[k] == Val(RoundDiv(KeyVolume(Samples(r.hashrates), k), window))
        && c.minerStats[k].hashrate == Some(c.minersHashrate[k])
  {
    VolumesAreSums(Samples(r.hashrates));
  }

  /**
   * Lines 242-259: the pool hashrate is the rounded total of the samples whose
   * key names no worker; the unrounded volumes are summed before the single
   * rounding, and worker samples never contribute.
   */
  lemma PoolHashrateCountsMinersOnly(r: PoolReplies, window: nat, naming: Naming)
    requires window > 0
    requires AllNumeric(Samples(r.hashrates))
    ensures CollectPool(r, window, naming).data.hashrate
      == Val(RoundDiv(MinerVolume(Samples(r.hashrates), naming), window))
  {
    var samples := Samples(r.hashrates);
    var vol := Volumes(samples);
    var order := KeyOrder(samples);
    VolumesAreSums(samples);
    TallyVolume(order, vol, samples, naming);
    MinerKeySumRegroup(order, samples, naming);
  }

  /** The `roundHashes` of the listed `minerStats` records, summed first to last. */
  function StatRoundSum(keys: seq<string>, ms: map<string, MinerStat>): Num
    requires forall i :: 0 <= i < |keys| ==> keys[i] in ms && ms[keys[i]].roundHashes.Some?
  {
    if |keys| == 0 then Val(0)
    else Add(ms[keys[0]].roundHashes.value, StatRoundSum(keys[1..], ms))
  }

  lemma {:induction false} RoundSumIsStatSum(keys: seq<string>, h: Hash, ms: map<string, MinerStat>)
    requires forall i :: 0 <= i < |keys| ==> Get(h, keys[i]).Some?
    requires forall i :: 0 <= i < |keys| ==>
      keys[i] in ms && ms[keys[i]].roundHashes == Some(ParseInt(Get(h, keys[i]).value))
    ensures RoundSum(keys, h) == StatRoundSum(keys, ms)
  {
    if |keys| > 0 {
      RoundSumIsStatSum(keys[1..], h, ms);
    }
  }

  /**
   * The round total is the sum of the `roundHashes` that `minerStats` records
   * for the round's participants, each listed once; 0 without a round hash.
   */
  lemma RoundTotalIsParticipantSum(rates: map<string, Num>, round: Option<Hash>)
    ensures round.None? ==> RoundTotal(round) == Val(0)
    ensures round.Some? ==>
      var keys := Fields(round.value);
      var ms := MinerStats(rates, round);
      && Distinct(keys)
      && (forall k :: k in keys <==> InRound(round, k))
      && (forall i :: 0 <= i < |keys| ==> keys[i] in ms && ms[keys[i]].roundHashes.Some?)
      && RoundTotal(round) == StatRoundSum(keys, ms)
  {
    if round.Some? {
      var h := round.value;
      RoundSumIsStatSum(Fields(h), h, MinerStats(rates, round));
    }
  }

  /**
   * Lines 260-277: the pool's `roundHashes` is the sum of the `roundHashes`
   * recorded in `minerStats` for the round's participants, each counted once,
   * and 0 when there is no round hash.
   */
  lemma RoundHashesAreParticipantSum(r: PoolReplies, window: nat, naming: Naming)
    requires window > 0
    ensures var c := CollectPool(r, window, naming);
      && (r.roundShares.None? ==> c.data.roundHashes == Val(0))
      && (r.roundShares.Some? ==>
            var keys := Fields(r.roundShares.value);
            && Distinct(keys)
            && (forall k :: k in keys <==> InRound(r.roundShares, k))
            && (forall i :: 0 <= i < |keys| ==> keys[i] in c.minerStats && c.minerStats[keys[i]].roundHashes.Some?)
            && c.data.roundHashes == StatRoundSum(keys, c.minerStats))
  {
    RoundTotalIsParticipantSum(Rates(Volumes(Samples(r.hashrates)), window), r.roundShares);
  }

  /**
   * Lines 206-230: the block totals come from the revenued rows alone, and
   * they are the candidate totals plus the matured totals.
   */
  lemma BlockTotalsFromRevenuedRows(r: PoolReplies, window: nat, naming: Naming)
    requires window > 0
    ensures var d := CollectPool(r, window, naming).data;
      var t := BlockSums(RevenuedRows(Flatten(r.candidates) + Flatten(r.matured)));
      && d.totalDiff == t.difficulty && d.totalShares == t.shares
      && BlockTotals(d.totalDiff, d.totalShares)
        == AddTotals(BlockSums(Flatten(r.candidates)), BlockSums(Flatten(r.matured)))
  {
    BlockSumsOnlyRevenued(Flatten(r.candidates) + Flatten(r.matured));
    BlockSumsConcat(Flatten(r.candidates), Flatten(r.matured));
  }

  /** A duplicate-free list has as many elements as the set of its elements. */
  lemma {:induction false} DistinctCard(s: seq<string>)
    requires Distinct(s)
    ensures |set x | x in s| == |s|
  {
    if |s| > 0 {
      DistinctCard(s[1..]);
      assert (set x | x in s) == (set x | x in s[1..]) + {s[0]};
      assert s[0] !in s[1..];
    }
  }
}
