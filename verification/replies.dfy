/**
 * The shapes of the Redis replies the API reads, and the colon-separated
 * records stored in them: hashrate samples and block rows.
 */
module Replies {
  import opened Options
  import opened JsNumber
  import opened JsString

  /** One field of a Redis hash, in the order HGETALL lists it. */
  datatype Entry = Entry(field: string, value: string)

  /** An HGETALL reply; node_redis turns it into a plain object. */
  type Hash = seq<Entry>

  /** `obj[f]` on that object: the value listed last for `f` wins. */
  function Get(h: Hash, f: string): (r: Option<string>)
    ensures r.Some? <==> exists i :: 0 <= i < |h| && h[i].field == f
    ensures r.Some? ==> exists i :: LastFor(h, f, i) && h[i].value == r.value
  {
    if |h| == 0 then None
    else if h[|h| - 1].field == f then
      assert LastFor(h, f, |h| - 1);
      Some(h[|h| - 1].value)
    else
      var init := h[..|h| - 1];
      var r := Get(init, f);
      assert forall i :: 0 <= i < |init| ==> init[i] == h[i];
      if r.Some? then
        var i :| LastFor(init, f, i) && init[i].value == r.value;
        assert LastFor(h, f, i);
        r
      else
        r
  }

  /** Position `i` holds the last entry for `f`. */
  predicate LastFor(h: Hash, f: string, i: int)
  {
    0 <= i < |h| && h[i].field == f && forall j :: i < j < |h| ==> h[j].field != f
  }

  /** Distinct elements in order of first occurrence (the order `for…in` uses for non-integer-like keys). */
  function Dedup(s: seq<string>): (r: seq<string>)
    ensures forall i, j :: 0 <= i < j < |r| ==> r[i] != r[j]
    ensures forall x :: x in r <==> x in s
    ensures |r| <= |s|
  {
    if |s| == 0 then []
    else
      var d := Dedup(s[..|s| - 1]);
      assert forall x :: x in s <==> x in s[..|s| - 1] || x == s[|s| - 1];
      if s[|s| - 1] in d then d else d + [s[|s| - 1]]
  }

  /** The keys of the object built from `h`, each once; integer-like keys aside, in `for…in` order. */
  function Fields(h: Hash): (r: seq<string>)
    ensures forall i, j :: 0 <= i < j < |r| ==> r[i] != r[j]
    ensures forall f :: f in r <==> Get(h, f).Some?
  {
    var names := seq(|h|, i requires 0 <= i < |h| => h[i].field);
    forall f
      ensures f in names <==> exists i :: 0 <= i < |h| && h[i].field == f
    {
      if exists i :: 0 <= i < |h| && h[i].field == f {
        var i :| 0 <= i < |h| && h[i].field == f;
        assert names[i] == f;
      }
    }
    Dedup(names)
  }

  /** One element of a `WITHSCORES` reply. */
  datatype Scored = Scored(member: string, score: string)

  /** The alternating member/score list node_redis returns for `WITHSCORES`. */
  function Flatten(s: seq<Scored>): (r: seq<string>)
    ensures |r| == 2 * |s|
    ensures forall i :: 0 <= i < |s| ==> r[2 * i] == s[i].member && r[2 * i + 1] == s[i].score
  {
    if |s| == 0 then [] else [s[0].member, s[0].score] + Flatten(s[1..])
  }

  /** `parseInt(x)` where `x` may be undefined (which gives NaN). */
  function ParseOptInt(x: Option<string>): (r: Num)
    ensures x.None? ==> r == NaN
    ensures x.Some? ==> r == ParseInt(x.value)
  {
    match x
    case Some(s) => ParseInt(s)
    case None => NaN
  }

  /** A hashrate sample after `split(':')`: the difficulty field and the participant key. */
  datatype Sample = Sample(difficulty: Num, key: string)

  /**
   * A member of the hashrate sorted set: the difficulty is `parseInt` of the
   * first `:` field and the key is the second field (the text "undefined" when
   * there is no second field, since that is how JavaScript spells the
   * missing property name).
   */
  function ParseSample(raw: string): (s: Sample)
    ensures s.difficulty == ParseInt(Split(raw, ':')[0])
    ensures ':' !in s.key
    ensures |Split(raw, ':')| >= 2 ==> s.key == Split(raw, ':')[1]
    ensures |Split(raw, ':')| < 2 ==> s.key == "undefined"
  {
    var parts := Split(raw, ':');
    Sample(ParseInt(parts[0]), Field(parts, 1).GetOr("undefined"))
  }

  /** A sample written as `difficulty:login:time`. */
  function FormatSample(difficulty: nat, login: string, time: nat): string
  {
    DecimalText(difficulty) + ":" + login + ":" + DecimalText(time)
  }

  lemma DigitsHaveNoColon(s: string)
    requires AllDigits(s)
    ensures ':' !in s
  {
  }

  /** Parsing a formatted sample recovers its difficulty and login. */
  lemma ParseFormatSample(difficulty: nat, login: string, time: nat)
    requires ':' !in login
    ensures ParseSample(FormatSample(difficulty, login, time)) == Sample(Val(difficulty), login)
  {
    var d := DecimalText(difficulty);
    var t := DecimalText(time);
    var parts := [d, login, t];
    DigitsHaveNoColon(d);
    DigitsHaveNoColon(t);
    assert Join(parts, ':') == FormatSample(difficulty, login, time) by {
      assert Join(parts[1..], ':') == login + [':'] + t by {
        assert parts[1..][1..] == [t];
      }
    }
    SplitJoin(parts, ':');
    ParseIntDecimalText(difficulty, "");
    assert d + "" == d;
  }

  /** The `:` fields of a block row. */
  function BlockFields(row: string): seq<string>
  {
    Split(row, ':')
  }

  /**
   * `if (block[5])`: the row has a sixth field and it is non-empty. Both
   * `collectStats` and the admin summary treat only such rows as unlocked.
   */
  predicate Revenued(row: string)
  {
    TruthyText(Field(BlockFields(row), 5))
  }

  /** `parseInt(block[2])`, `parseInt(block[3])` and `parseInt(block[5])`. */
  function RowDifficulty(row: string): Num { ParseOptInt(Field(BlockFields(row), 2)) }

  function RowShares(row: string): Num { ParseOptInt(Field(BlockFields(row), 3)) }

  function RowRevenue(row: string): Num { ParseOptInt(Field(BlockFields(row), 5)) }

  /**
   * A stored row is revenued exactly when it has at least six fields and the
   * sixth is non-empty; so a score entry or a four-field candidate row never is.
   */
  lemma RevenuedJoin(fields: seq<string>)
    requires |fields| >= 1
    requires forall i :: 0 <= i < |fields| ==> ':' !in fields[i]
    ensures Revenued(Join(fields, ':')) <==> |fields| >= 6 && fields[5] != ""
    ensures RowDifficulty(Join(fields, ':')) == ParseOptInt(Field(fields, 2))
    ensures RowShares(Join(fields, ':')) == ParseOptInt(Field(fields, 3))
  {
    SplitJoin(fields, ':');
  }

  /** A row without any `:` (the score half of a WITHSCORES pair) is skipped. */
  lemma ScoreNotRevenued(score: string)
    requires ':' !in score
    ensures !Revenued(score)
  {
    assert Join([score], ':') == score;
    RevenuedJoin([score]);
  }
}
