/**
 * `/admin_stats` (lines 1059-1125): balances summed over every worker and
 * matured blocks split into unlocked and orphaned by their sixth field.
 */
module Admin {
  import opened Options
  import opened JsNumber
  import opened Replies
  import opened Aggregation
  import opened Feeds

  /** The `stats` record of lines 1092-1101. */
  datatype AdminStats = AdminStats(
    totalOwed: nat,
    totalPaid: nat,
    totalRevenue: Num,
    totalDiff: Num,
    totalShares: Num,
    blocksOrphaned: nat,
    blocksUnlocked: nat,
    totalWorkers: nat)

  /** `parseInt(x) || 0` of one `hmget` field: missing, empty or non-numeric reads 0. */
  function FieldAmount(h: Hash, f: string): (r: nat)
    ensures ParseOptInt(Get(h, f)).Val? ==> r == ParseOptInt(Get(h, f)).n
    ensures Get(h, f).None? ==> r == 0
    ensures !ParseOptInt(Get(h, f)).Val? ==> r == 0
    ensures Get(h, f).Some? && (|Get(h, f).value| == 0 || !IsDigit(Get(h, f).value[0])) ==> r == 0
  {
    OrZero(ParseOptInt(Get(h, f)))
  }

  /** The reply of `hmget key balance paid`; a missing key reads as an empty hash. */
  function BalanceHash(store: Store, key: string): Hash
  {
    if key in store then store[key] else []
  }

  /** Reference sum of one field over the workers, first to last. */
  function FieldTotal(keys: seq<string>, store: Store, f: string): nat
  {
    if |keys| == 0 then 0 else FieldAmount(BalanceHash(store, keys[0]), f) + FieldTotal(keys[1..], store, f)
  }

  lemma {:induction false} FieldTotalSnoc(keys: seq<string>, k: string, store: Store, f: string)
    ensures FieldTotal(keys + [k], store, f) == FieldTotal(keys, store, f) + FieldAmount(BalanceHash(store, k), f)
  {
    if |keys| > 0 {
      assert (keys + [k])[1..] == keys[1..] + [k];
      FieldTotalSnoc(keys[1..], k, store, f);
    }
  }

  /** Reference sum of `parseInt(block[5])` over the revenued rows. */
  function RevenueTotal(rows: seq<string>): Num
  {
    if |rows| == 0 then Val(0)
    else
      var rest := RevenueTotal(rows[1..]);
      if Revenued(rows[0]) then Add(RowRevenue(rows[0]), rest) else rest
  }

  lemma {:induction false} RevenueTotalSnoc(rows: seq<string>, x: string)
    ensures RevenueTotal(rows + [x]) == if Revenued(x) then Add(RevenueTotal(rows), RowRevenue(x)) else RevenueTotal(rows)
  {
    if |rows| > 0 {
      assert (rows + [x])[1..] == rows[1..] + [x];
      RevenueTotalSnoc(rows[1..], x);
      if Revenued(x) {
        AddAssoc(RowRevenue(rows[0]), RevenueTotal(rows[1..]), RowRevenue(x));
      }
    } else {
      assert rows + [x] == [x];
    }
  }

  lemma RevenuedRowsSnoc(rows: seq<string>, x: string)
    ensures |RevenuedRows(rows + [x])| == |RevenuedRows(rows)| + (if Revenued(x) then 1 else 0)
  {
    if |rows| > 0 {
      assert (rows + [x])[1..] == rows[1..] + [x];
      RevenuedRowsSnoc(rows[1..], x);
    } else {
      assert rows + [x] == [x];
    }
  }

  /** The first loop of lines 1103-1107: every worker counted, balances and payments added. */
  method SumBalances(workerKeys: seq<string>, balances: Store) returns (owed: nat, paid: nat, workers: nat)
    ensures workers == |workerKeys|
    ensures owed == FieldTotal(workerKeys, balances, "balance")
    ensures paid == FieldTotal(workerKeys, balances, "paid")
  {
    owed, paid, workers := 0, 0, 0;
    var i := 0;
    while i < |workerKeys|
      invariant 0 <= i <= |workerKeys|
      invariant workers == i
      invariant owed == FieldTotal(workerKeys[..i], balances, "balance")
      invariant paid == FieldTotal(workerKeys[..i], balances, "paid")
    {
      var h := BalanceHash(balances, workerKeys[i]);
      assert workerKeys[..i + 1] == workerKeys[..i] + [workerKeys[i]];
      FieldTotalSnoc(workerKeys[..i], workerKeys[i], balances, "balance");
      FieldTotalSnoc(workerKeys[..i], workerKeys[i], balances, "paid");
      owed := owed + FieldAmount(h, "balance");
      paid := paid + FieldAmount(h, "paid");
      workers := workers + 1;
      i := i + 1;
    }
    assert workerKeys[..i] == workerKeys;
  }

  /** What one more matured row adds to each figure. */
  lemma CountStep(prefix: seq<string>, row: string)
    ensures BlockSums(prefix + [row]) ==
      if Revenued(row) then AddTotals(BlockSums(prefix), BlockTotals(RowDifficulty(row), RowShares(row)))
      else BlockSums(prefix)
    ensures RevenueTotal(prefix + [row]) ==
      if Revenued(row) then Add(RevenueTotal(prefix), RowRevenue(row)) else RevenueTotal(prefix)
    ensures |RevenuedRows(prefix + [row])| == |RevenuedRows(prefix)| + (if Revenued(row) then 1 else 0)
  {
    BlockSumsConcat(prefix, [row]);
    assert [row][1..] == [];
    RevenueTotalSnoc(prefix, row);
    RevenuedRowsSnoc(prefix, row);
  }

  /** The unlocked-block figures of lines 1109-1121. */
  datatype BlockCount = BlockCount(unlocked: nat, orphaned: nat, totals: BlockTotals, revenue: Num)

  /**
   * The second loop of lines 1109-1121: every matured row is unlocked or
   * orphaned, and the unlocked ones carry the same difficulty and share
   * totals `collectStats` computes.
   */
  method CountBlocks(blocks: seq<string>) returns (c: BlockCount)
    ensures c.unlocked + c.orphaned == |blocks|
    ensures c.unlocked == |RevenuedRows(blocks)|
    ensures c.totals == BlockSums(blocks)
    ensures c.revenue == RevenueTotal(blocks)
  {
    c := BlockCount(0, 0, BlockTotals(Val(0), Val(0)), Val(0));
    var j := 0;
    while j < |blocks|
      invariant 0 <= j <= |blocks|
      invariant c.unlocked + c.orphaned == j
      invariant c.unlocked == |RevenuedRows(blocks[..j])|
      invariant c.totals == BlockSums(blocks[..j])
      invariant c.revenue == RevenueTotal(blocks[..j])
    {
      var row := blocks[j];
      assert blocks[..j + 1] == blocks[..j] + [row];
      CountStep(blocks[..j], row);
      if Revenued(row) {
        c := BlockCount(c.unlocked + 1, c.orphaned,
                        AddTotals(c.totals, BlockTotals(RowDifficulty(row), RowShares(row))),
                        Add(c.revenue, RowRevenue(row)));
      } else {
        c := c.(orphaned := c.orphaned + 1);
      }
      j := j + 1;
    }
    assert blocks[..j] == blocks;
  }

  /** The third step of the waterfall (lines 1091-1123). */
  method Summarise(workerKeys: seq<string>, balances: Store, blocks: seq<string>) returns (s: AdminStats)
    ensures s.totalWorkers == |workerKeys|
    ensures s.totalOwed == FieldTotal(workerKeys, balances, "balance")
    ensures s.totalPaid == FieldTotal(workerKeys, balances, "paid")
    ensures s.blocksUnlocked + s.blocksOrphaned == |blocks|
    ensures s.blocksUnlocked == |RevenuedRows(blocks)|
    ensures BlockTotals(s.totalDiff, s.totalShares) == BlockSums(blocks)
    ensures s.totalRevenue == RevenueTotal(blocks)
  {
    var owed, paid, workers := SumBalances(workerKeys, balances);
    var c := CountBlocks(blocks);
    s := AdminStats(owed, paid, c.revenue, c.totals.difficulty, c.totals.shares, c.orphaned, c.unlocked, workers);
  }

  /** The reply: the summary, or `{error: 'Error collecting stats'}`. */
  datatype AdminResult = AdminError | Summary(stats: AdminStats)

  /** What the first MULTI reads: the `workers:*` keys and every matured block row. */
  datatype AdminKeys = AdminKeys(workerKeys: seq<string>, blocks: seq<string>)

  /**
   * `handleAdminStats`: either MULTI failing gives the error reply; otherwise
   * the summary of the worker balances and the matured rows.
   */
  method HandleAdminStats(first: Option<AdminKeys>, balances: Option<Store>) returns (r: AdminResult)
    ensures r.AdminError? <==> first.None? || balances.None?
    ensures r.Summary? ==>
      && r.stats.totalWorkers == |first.value.workerKeys|
      && r.stats.totalOwed == FieldTotal(first.value.workerKeys, balances.value, "balance")
      && r.stats.totalPaid == FieldTotal(first.value.workerKeys, balances.value, "paid")
      && r.stats.blocksUnlocked + r.stats.blocksOrphaned == |first.value.blocks|
      && r.stats.blocksUnlocked == |RevenuedRows(first.value.blocks)|
      && BlockTotals(r.stats.totalDiff, r.stats.totalShares) == BlockSums(first.value.blocks)
      && r.stats.totalRevenue == RevenueTotal(first.value.blocks)
  {
    if first.None? || balances.None? {
      return AdminError;
    }
    var s := Summarise(first.value.workerKeys, balances.value, first.value.blocks);
    return Summary(s);
  }
}
