/**
 * `/get_top10miners` (lines 666-718): one row per `workers:*` key, the
 * address masked, sorted by hashrate with `compareTopMiners`, first ten kept.
 */
module TopMiners {
  import opened Options
  import opened JsNumber
  import opened JsString
  import opened Replies
  import opened Aggregation
  import opened Feeds

  /** `address.substring(0, 7) + '****' + address.substring(address.length - 7)`. */
  function MaskAddress(a: string): (m: string)
    ensures |a| >= 7 ==> |m| == 18 && m[..7] == a[..7] && m[7..11] == "****" && m[11..] == a[|a| - 7..]
    ensures |a| < 7 ==> m == a + "****" + a
  {
    SubstringTo(a, 7) + "****" + SubstringFrom(a, |a| - 7)
  }

  /** Two addresses sharing their first and last seven characters mask alike. */
  lemma MaskKeepsOnlyEnds(a: string, b: string)
    requires |a| >= 7 && |b| >= 7
    requires a[..7] == b[..7] && a[|a| - 7..] == b[|b| - 7..]
    ensures MaskAddress(a) == MaskAddress(b)
  {
    var ma := MaskAddress(a);
    var mb := MaskAddress(b);
    assert ma == ma[..7] + ma[7..11] + ma[11..];
    assert mb == mb[..7] + mb[7..11] + mb[11..];
  }

  /** One element of `minersData`. */
  datatype TopRow = TopRow(miner: string, hashrate: Num, lastShare: Option<string>, hashes: Option<string>)

  /** The address of a `workers:*` key: its last `:` field. */
  function AddressOf(key: string): string
  {
    var parts := Split(key, ':');
    parts[|parts| - 1]
  }

  /**
   * `minersHashrate[a] && minerStats[a]['hashrate'] ? minersHashrate[a] : 0`.
   * Every key of `minersHashrate` has a `minerStats` record after a cycle;
   * without one the source would throw.
   */
  function TopHashrate(mh: map<string, Num>, ms: map<string, MinerStat>, a: string): (r: Num)
    requires forall k :: k in mh ==> k in ms
    ensures r != Val(0) ==> a in mh && r == mh[a] && Truthy(r) && FieldOrZero(ms[a].hashrate) != 0
    ensures a in mh && Truthy(mh[a]) && FieldOrZero(ms[a].hashrate) != 0 ==> r == mh[a]
  {
    if a in mh && Truthy(mh[a]) && FieldOrZero(ms[a].hashrate) != 0 then mh[a] else Val(0)
  }

  /** The row built for one key from its `hmget lastShare hashes` reply (lines 678-686). */
  function TopRowOf(key: string, details: Store, mh: map<string, Num>, ms: map<string, MinerStat>): (r: TopRow)
    requires forall k :: k in mh ==> k in ms
    ensures r.miner == MaskAddress(AddressOf(key))
    ensures r.hashrate == TopHashrate(mh, ms, AddressOf(key))
    ensures key in details ==>
      r.lastShare == Get(details[key], "lastShare") && r.hashes == Get(details[key], "hashes")
    ensures key !in details ==> r.lastShare.None? && r.hashes.None?
  {
    var h := if key in details then details[key] else [];
    TopRow(MaskAddress(AddressOf(key)), TopHashrate(mh, ms, AddressOf(key)), Get(h, "lastShare"), Get(h, "hashes"))
  }

  /** `a.hashrate ? parseInt(a.hashrate) : 0`, the sort key of `compareTopMiners`. */
  function Rank(r: TopRow): nat
  {
    OrZero(r.hashrate)
  }

  /** Non-increasing by rank: what sorting with `compareTopMiners` produces. */
  predicate Sorted(s: seq<TopRow>)
  {
    forall i, j :: 0 <= i < j < |s| ==> Rank(s[i]) >= Rank(s[j])
  }

  /** Insert `x` before the first element it does not rank below (earlier rows stay first). */
  function Insert(x: TopRow, s: seq<TopRow>): (r: seq<TopRow>)
    requires Sorted(s)
    ensures |r| == |s| + 1
    ensures r[0] == x || (|s| > 0 && r[0] == s[0])
    ensures Sorted(r)
    ensures multiset(r) == multiset(s) + multiset{x}
  {
    if |s| == 0 || Rank(s[0]) <= Rank(x) then [x] + s
    else
      var rest := Insert(x, s[1..]);
      assert s == [s[0]] + s[1..];
      assert Rank(rest[0]) <= Rank(s[0]) by {
        if rest[0] != x {
          assert rest[0] == s[1];
        }
      }
      assert forall j :: 0 <= j < |rest| ==> Rank(rest[j]) <= Rank(rest[0]);
      [s[0]] + rest
  }

  /** A stable sort by non-increasing rank. */
  function SortByRank(s: seq<TopRow>): (r: seq<TopRow>)
    ensures Sorted(r)
    ensures multiset(r) == multiset(s)
  {
    if |s| == 0 then []
    else
      assert s == [s[0]] + s[1..];
      Insert(s[0], SortByRank(s[1..]))
  }

  /** The reply: the rows, or the error answered when listing the keys failed. */
  datatype TopResult = TopError | Top(rows: seq<TopRow>)

  /**
   * `handleTopMiners`: a failed KEYS gives the error reply; a failed MULTI
   * leaves `minersData` empty (its loop runs over an undefined reply);
   * otherwise the result holds at most ten rows, in rank order, each built
   * from one key, and no row left out ranks above one kept.
   */
  function TopTen(keys: Option<seq<string>>, details: Option<Store>, mh: map<string, Num>, ms: map<string, MinerStat>)
    : (r: TopResult)
    requires forall k :: k in mh ==> k in ms
    ensures r.TopError? <==> keys.None?
    ensures r.Top? && details.None? ==> r.rows == []
    ensures r.Top? ==> |r.rows| <= 10 && Sorted(r.rows)
    ensures r.Top? && details.Some? ==>
      exists rest: seq<TopRow> ::
        && multiset(r.rows) + multiset(rest) == multiset(RowsOf(keys.value, details.value, mh, ms))
        && (forall i, j :: 0 <= i < |r.rows| && 0 <= j < |rest| ==> Rank(rest[j]) <= Rank(r.rows[i]))
        && (|rest| > 0 ==> |r.rows| == 10)
  {
    match keys
    case None => TopError
    case Some(ks) =>
      match details
      case None => Top([])
      case Some(d) => Top(FirstTen(SortByRank(RowsOf(ks, d, mh, ms))))
  }

  /** `minersData.slice(0, 10)` of a sorted list: what is cut off ranks no higher than what is kept. */
  function FirstTen(s: seq<TopRow>): (r: seq<TopRow>)
    requires Sorted(s)
    ensures |r| <= 10 && Sorted(r)
    ensures exists rest: seq<TopRow> ::
      && multiset(r) + multiset(rest) == multiset(s)
      && (forall i, j :: 0 <= i < |r| && 0 <= j < |rest| ==> Rank(rest[j]) <= Rank(r[i]))
      && (|rest| > 0 ==> |r| == 10)
  {
    var n := if |s| < 10 then |s| else 10;
    SortedSplit(s, n);
    s[..n]
  }

  /** One row per key, in key order. */
  function RowsOf(keys: seq<string>, details: Store, mh: map<string, Num>, ms: map<string, MinerStat>): (rows: seq<TopRow>)
    requires forall k :: k in mh ==> k in ms
    ensures |rows| == |keys|
    ensures forall i :: 0 <= i < |keys| ==> rows[i] == TopRowOf(keys[i], details, mh, ms)
  {
    seq(|keys|, i requires 0 <= i < |keys| => TopRowOf(keys[i], details, mh, ms))
  }

  /** In a sorted list every element of a prefix ranks at least as high as every later one. */
  lemma SortedSplit(s: seq<TopRow>, n: nat)
    requires Sorted(s) && n <= |s|
    ensures Sorted(s[..n])
    ensures s == s[..n] + s[n..]
    ensures multiset(s[..n]) + multiset(s[n..]) == multiset(s)
    ensures forall i, j :: 0 <= i < n && 0 <= j < |s| - n ==> Rank(s[n..][j]) <= Rank(s[..n][i])
  {
    assert s == s[..n] + s[n..];
    forall i, j | 0 <= i < n && 0 <= j < |s| - n
      ensures Rank(s[n..][j]) <= Rank(s[..n][i])
    {
      assert s[..n][i] == s[i] && s[n..][j] == s[n + j];
    }
  }
}
