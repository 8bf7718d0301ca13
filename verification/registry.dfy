/**
 * The two live-connection registries (`liveConnections` and
 * `addressConnections`) and the one-shot fan-out over them: keys are
 * `address + '+' + uid`, a broadcast groups keys by the text before the first
 * '+', sends each group one serialised payload, and every delivered
 * connection's finish handler deletes its key.
 */
module Registry {
  import opened Options
  import opened JsString

  /** An open HTTP response waiting for its one payload, named by identity. */
  type SinkId = nat

  /** A registry: connection key to waiting response. */
  type Registry = map<string, SinkId>

  /** `address + '+' + uid` (lines 55 and 512). */
  function ConnectionKey(address: string, uid: string): string
  {
    address + "+" + uid
  }

  /** `registry[key] = response`: a repeated uid replaces the older response. */
  function Register(reg: Registry, address: string, uid: string, sink: SinkId): (r: Registry)
    ensures r.Keys == reg.Keys + {ConnectionKey(address, uid)}
    ensures r[ConnectionKey(address, uid)] == sink
    ensures forall k :: k in reg && k != ConnectionKey(address, uid) ==> r[k] == reg[k]
  {
    reg[ConnectionKey(address, uid) := sink]
  }

  /** `delete registry[key]`, run by the finish and close handlers. */
  function Unregister(reg: Registry, key: string): (r: Registry)
    ensures r.Keys == reg.Keys - {key}
    ensures forall k :: k in r ==> r[k] == reg[k]
  {
    reg - {key}
  }

  /** Deleting a key twice (finish, then close) is the same as deleting it once. */
  lemma UnregisterIdempotent(reg: Registry, key: string)
    ensures Unregister(Unregister(reg, key), key) == Unregister(reg, key)
  {
  }

  /** A connection that closes before any broadcast leaves the registry as it was. */
  lemma RegisterThenClose(reg: Registry, address: string, uid: string, sink: SinkId)
    requires ConnectionKey(address, uid) !in reg
    ensures Unregister(Register(reg, address, uid, sink), ConnectionKey(address, uid)) == reg
  {
  }

  /**
   * `key.substr(0, key.indexOf('+'))`: the text before the first '+'. A key
   * without '+' gives `substr(0, -1)`, the empty string.
   */
  function GroupOf(key: string): (g: string)
    ensures '+' !in g
    ensures '+' in key ==> |g| < |key| && key[..|g|] == g && key[|g|] == '+'
    ensures '+' !in key ==> g == ""
  {
    var i := IndexOf(key, '+');
    if i < 0 then "" else key[..i]
  }

  /**
   * A key registered for an address groups under that address when the
   * address has no '+'; otherwise it groups under the address's own text
   * before its first '+', so several addresses can share one group.
   */
  lemma GroupOfConnectionKey(address: string, uid: string)
    ensures GroupOf(ConnectionKey(address, uid)) == if '+' in address then GroupOf(address) else address
  {
    var key := ConnectionKey(address, uid);
    if '+' in address {
      var i := IndexOf(address, '+');
      assert key == address[..i] + "+" + (address[i + 1..] + "+" + uid);
      IndexOfAfterFree(address[..i], '+', address[i + 1..] + "+" + uid);
      assert key[..i] == address[..i];
    } else {
      assert key == address + ['+'] + uid;
      IndexOfAfterFree(address, '+', uid);
      assert key[..|address|] == address;
    }
  }

  /** `processAddresses`: the registry's keys grouped by `GroupOf`. */
  function Groups(reg: Registry): (gs: map<string, set<string>>)
    ensures forall k :: k in reg ==> GroupOf(k) in gs && k in gs[GroupOf(k)]
    ensures forall g, k :: g in gs && k in gs[g] ==> k in reg && GroupOf(k) == g
    ensures forall g :: g in gs ==> gs[g] != {}
  {
    var names := set k | k in reg :: GroupOf(k);
    map g | g in names :: set k | k in reg && GroupOf(k) == g
  }

  /** The total size of a family of sets, summed one member at a time. */
  ghost function SumSizes(gs: map<string, set<string>>): nat
    decreases |gs.Keys|
  {
    if gs.Keys == {} then 0
    else
      var g :| g in gs.Keys;
      assert (gs - {g}).Keys == gs.Keys - {g};
      |gs[g]| + SumSizes(gs - {g})
  }

  ghost function Flat(gs: map<string, set<string>>): set<string>
  {
    set g, k | g in gs && k in gs[g] :: k
  }

  lemma {:induction false} SumSizesDisjoint(gs: map<string, set<string>>)
    requires forall g1, g2 :: g1 in gs && g2 in gs && g1 != g2 ==> gs[g1] !! gs[g2]
    ensures SumSizes(gs) == |Flat(gs)|
    decreases |gs.Keys|
  {
    if gs.Keys != {} {
      var g :| g in gs.Keys && SumSizes(gs) == |gs[g]| + SumSizes(gs - {g});
      var rest := gs - {g};
      assert rest.Keys == gs.Keys - {g};
      SumSizesDisjoint(rest);
      forall k | k in Flat(gs)
        ensures k in gs[g] || k in Flat(rest)
      {
        var h :| h in gs && k in gs[h];
        if h != g {
          assert h in rest && k in rest[h];
        }
      }
      forall k | k in Flat(rest)
        ensures k in Flat(gs) && k !in gs[g]
      {
        var h :| h in rest && k in rest[h];
        assert h in gs && k in gs[h];
      }
      assert Flat(gs) == gs[g] + Flat(rest);
    }
  }

  /** Grouping partitions the registry: the group sizes add up to its size. */
  lemma GroupSizesSum(reg: Registry)
    ensures SumSizes(Groups(reg)) == |reg|
  {
    var gs := Groups(reg);
    SumSizesDisjoint(gs);
    assert Flat(gs) == reg.Keys;
    assert |reg| == |reg.Keys|;
  }

  /** One `response.end(dataJSON)`. */
  datatype Delivery = Delivery(sink: SinkId, body: string)

  /**
   * `sendLiveStats(data, destinations)` (lines 457-464): the payload is
   * serialised once and every destination is ended with that same text; a
   * missing destination list sends nothing.
   */
  function SendLiveStats<P>(data: P, encode: P -> string, destinations: Option<seq<SinkId>>): (out: seq<Delivery>)
    ensures destinations.None? ==> out == []
    ensures destinations.Some? ==> |out| == |destinations.value|
    ensures forall i :: 0 <= i < |out| ==> out[i].sink == destinations.value[i]
    ensures forall i, j :: 0 <= i < |out| && 0 <= j < |out| ==> out[i].body == out[j].body == encode(data)
  {
    match destinations
    case None => []
    case Some(ds) =>
      var json := encode(data);
      seq(|ds|, i requires 0 <= i < |ds| => Delivery(ds[i], json))
  }

  /**
   * One broadcast over a registry snapshot (lines 359-377 and 380-390): each
   * group's payload is built and serialised once, and every registered
   * connection receives the payload of its own group.
   */
  method Broadcast<P>(reg: Registry, payloadFor: string -> P, encode: P -> string)
    returns (sent: map<string, Delivery>)
    ensures sent.Keys == reg.Keys
    ensures forall k :: k in sent ==> sent[k] == Delivery(reg[k], encode(payloadFor(GroupOf(k))))
  {
    var groups := Groups(reg);
    var todo := groups.Keys;
    var body := g => encode(payloadFor(g));
    sent := map[];
    while todo != {}
      invariant forall k :: k in sent <==> k in reg && GroupOf(k) !in todo
      invariant forall k :: k in sent ==> sent[k] == Delivery(reg[k], body(GroupOf(k)))
      decreases todo
    {
      var g :| g in todo;
      var json := encode(payloadFor(g));
      var batch := map k | k in reg && GroupOf(k) == g :: Delivery(reg[k], json);
      AddGroup(reg, sent, todo, g, batch, body);
      sent := sent + batch;
      todo := todo - {g};
    }
  }

  /** One loop step of `Broadcast`: the keys of group `g` join the delivered ones. */
  lemma AddGroup(reg: Registry, sent: map<string, Delivery>, todo: set<string>, g: string,
                 batch: map<string, Delivery>, body: string -> string)
    requires forall k :: k in sent <==> k in reg && GroupOf(k) !in todo
    requires forall k :: k in sent ==> sent[k] == Delivery(reg[k], body(GroupOf(k)))
    requires forall k :: k in batch <==> k in reg && GroupOf(k) == g
    requires forall k :: k in batch ==> batch[k] == Delivery(reg[k], body(g))
    requires g in todo
    ensures forall k :: k in sent + batch <==> k in reg && GroupOf(k) !in todo - {g}
    ensures forall k :: k in sent + batch ==> (sent + batch)[k] == Delivery(reg[k], body(GroupOf(k)))
  {
  }

  /** The sinks registered under `keys`, in the order given. */
  function SinksOf(reg: Registry, keys: seq<string>): (ds: seq<SinkId>)
    requires forall i :: 0 <= i < |keys| ==> keys[i] in reg
    ensures |ds| == |keys| && forall i :: 0 <= i < |keys| ==> ds[i] == reg[keys[i]]
  {
    if keys == [] then [] else [reg[keys[0]]] + SinksOf(reg, keys[1..])
  }

  /**
   * What `Broadcast` delivers to one group, listed in any order, is exactly
   * `sendLiveStats` of that group's payload to the group's sinks.
   */
  lemma GroupDeliveriesAreSendLiveStats<P>(reg: Registry, payloadFor: string -> P, encode: P -> string,
                                           sent: map<string, Delivery>, g: string, keys: seq<string>)
    requires sent.Keys == reg.Keys
    requires forall k :: k in sent ==> sent[k] == Delivery(reg[k], encode(payloadFor(GroupOf(k))))
    requires forall i :: 0 <= i < |keys| ==> keys[i] in reg && GroupOf(keys[i]) == g
    ensures var out := SendLiveStats(payloadFor(g), encode, Some(SinksOf(reg, keys)));
      |out| == |keys| && forall i :: 0 <= i < |keys| ==> out[i] == sent[keys[i]]
  {
  }

  /** The finish handlers of delivered connections, run one after another. */
  function UnregisterAll(reg: Registry, keys: seq<string>): (r: Registry)
    ensures r.Keys == reg.Keys - (set k | k in keys)
    ensures forall k :: k in r ==> r[k] == reg[k]
  {
    if |keys| == 0 then reg
    else
      var r := UnregisterAll(Unregister(reg, keys[0]), keys[1..]);
      assert (set k | k in keys) == {keys[0]} + (set k | k in keys[1..]);
      r
  }

  /**
   * After delivery no delivered key is left, connections registered after the
   * snapshot are untouched, and repeating the deletions changes nothing.
   */
  lemma SettleAfterDelivery(current: Registry, delivered: seq<string>)
    ensures forall k :: k in delivered ==> k !in UnregisterAll(current, delivered)
    ensures forall k :: k in current && k !in delivered ==>
      k in UnregisterAll(current, delivered) && UnregisterAll(current, delivered)[k] == current[k]
    ensures UnregisterAll(UnregisterAll(current, delivered), delivered) == UnregisterAll(current, delivered)
  {
  }
}
