/** The generated `batch_get` client call and the `run` loop of its builder:
    the caller's keys are converted to attribute values, then drained from
    the front in requests of at most 100 keys, each response's items for the
    table decoded and appended, and the store's unprocessed keys for the table
    collected into a separate result list. */
module BatchGet {
  import opened Attribute
  import opened Shared

  /** Most keys one request carries (`std::cmp::min(100, self.keys.len())`). */
  const MaxKeysPerRequest: nat := 100

  /** A converted key: a partition key alone, or a (partition, sort) pair. */
  datatype BatchKey = Single(pk: AttributeValue) | Pair(pk: AttributeValue, sk: AttributeValue)

  type KeyMap = map<string, AttributeValue>

  datatype KeysAndAttributes = KeysAndAttributes(keys: seq<KeyMap>)

  datatype BatchGetItemInput = BatchGetItemInput(requestItems: map<string, KeysAndAttributes>)

  /** The capacity report is passed through; its contents are not modelled. */
  datatype ConsumedCapacity = ConsumedCapacity(tableName: string)

  /** The store's raw response. */
  datatype BatchGetItemOutput = BatchGetItemOutput(
    consumedCapacity: Option<seq<ConsumedCapacity>>,
    responses: Option<map<string, seq<Item>>>,
    unprocessedKeys: Option<map<string, KeysAndAttributes>>)

  /** What `run` hands back to the caller. */
  datatype BatchGetOutput<V> = BatchGetOutput(
    consumedCapacity: Option<seq<ConsumedCapacity>>,
    items: seq<Record<V>>,
    unprocessedKeys: Option<KeysAndAttributes>)

  /** The transport: the n-th request of a run (counting from 0) and its
      answer, either a response or the error the `?` operator propagates. */
  type Client = (nat, BatchGetItemInput) -> Result<BatchGetItemOutput>

  /** Compile-time configuration of one entity. The key names are the Rust
      identifiers of the key fields (`stringify!`), not renamed keys. */
  datatype Config<V> = Config(tableName: string, partitionKey: string, sortKey: string, schema: Schema<V>)

  /** `batch_get` for a table without a sort key: one converted key per
      caller key, in order. */
  method BatchGetKeys<K>(keys: seq<K>, intoAttr: K -> AttributeValue) returns (keyAttrs: seq<BatchKey>)
    ensures |keyAttrs| == |keys|
    ensures forall i :: 0 <= i < |keys| ==> keyAttrs[i] == Single(intoAttr(keys[i]))
  {
    keyAttrs := [];
    for i := 0 to |keys|
      invariant |keyAttrs| == i
      invariant forall j :: 0 <= j < i ==> keyAttrs[j] == Single(intoAttr(keys[j]))
    {
      keyAttrs := keyAttrs + [Single(intoAttr(keys[i]))];
    }
  }

  /** `batch_get` for a table with a sort key: one converted pair per caller
      pair, in order. */
  method BatchGetCompositeKeys<PK, SK>(keys: seq<(PK, SK)>, pkInto: PK -> AttributeValue, skInto: SK -> AttributeValue)
    returns (keyAttrs: seq<BatchKey>)
    ensures |keyAttrs| == |keys|
    ensures forall i :: 0 <= i < |keys| ==> keyAttrs[i] == Pair(pkInto(keys[i].0), skInto(keys[i].1))
  {
    keyAttrs := [];
    for i := 0 to |keys|
      invariant |keyAttrs| == i
      invariant forall j :: 0 <= j < i ==> keyAttrs[j] == Pair(pkInto(keys[j].0), skInto(keys[j].1))
    {
      var (pk, sk) := keys[i];
      keyAttrs := keyAttrs + [Pair(pkInto(pk), skInto(sk))];
    }
  }

  /** The key map sent for one key: the partition-key name to its value, then,
      for a pair, the sort-key name to its value (inserted second, so it wins
      should the two names coincide). It holds exactly the key attributes of
      that key. */
  function KeyMapOf<V>(cfg: Config<V>, key: BatchKey): (m: KeyMap)
    ensures key.Single? ==> m.Keys == {cfg.partitionKey}
    ensures key.Pair? ==> m.Keys == {cfg.partitionKey, cfg.sortKey}
    ensures m[cfg.partitionKey] == if key.Pair? && cfg.sortKey == cfg.partitionKey then key.sk else key.pk
    ensures key.Pair? ==> m[cfg.sortKey] == key.sk
  {
    match key
    case Single(pk) => map[cfg.partitionKey := pk]
    case Pair(pk, sk) => map[cfg.partitionKey := pk][cfg.sortKey := sk]
  }

  /** The request for one drained batch: only this table, one key map per key. */
  function BatchRequest<V>(cfg: Config<V>, batch: seq<BatchKey>): BatchGetItemInput
  {
    BatchGetItemInput(map[cfg.tableName := KeysAndAttributes(seq(|batch|, i requires 0 <= i < |batch| => KeyMapOf(cfg, batch[i])))])
  }

  /** The conversion loop that fills `item.keys` for one batch. */
  method BuildKeyMaps<V>(cfg: Config<V>, batch: seq<BatchKey>) returns (keyMaps: seq<KeyMap>)
    ensures |keyMaps| == |batch|
    ensures forall i :: 0 <= i < |batch| ==> keyMaps[i] == KeyMapOf(cfg, batch[i])
    ensures BatchRequest(cfg, batch) == BatchGetItemInput(map[cfg.tableName := KeysAndAttributes(keyMaps)])
  {
    keyMaps := [];
    for i := 0 to |batch|
      invariant |keyMaps| == i
      invariant forall j :: 0 <= j < i ==> keyMaps[j] == KeyMapOf(cfg, batch[j])
    {
      var keyVal := KeyMapOf(cfg, batch[i]);
      keyMaps := keyMaps + [keyVal];
    }
    assert keyMaps == seq(|batch|, i requires 0 <= i < |batch| => KeyMapOf(cfg, batch[i]));
  }

  /** Turns one stored item into a record: the entity's generated
      conversion, `DecodeItem` of its schema. */
  type Decoder<V> = Item -> Result<Record<V>>

  function ItemDecoder<V>(schema: Schema<V>): Decoder<V>
  {
    item => DecodeItem(schema, item)
  }

  /** Decoding every item of one response, the first failure deciding. */
  function DecodeAll<V>(decode: Decoder<V>, resItems: seq<Item>): (r: Result<seq<Record<V>>>)
    ensures r.Ok? ==> |r.value| == |resItems|
    ensures r.Ok? ==> forall i :: 0 <= i < |resItems| ==> decode(resItems[i]) == Ok(r.value[i])
    ensures r.Err? ==> exists i :: 0 <= i < |resItems| && decode(resItems[i]) == Err(r.error)
                                  && forall j :: 0 <= j < i ==> decode(resItems[j]).Ok?
  {
    if resItems == [] then Ok([])
    else
      match decode(resItems[0])
      case Err(e) => Err(e)
      case Ok(v) =>
        match DecodeAll(decode, resItems[1..])
        case Err(e) =>
          assert forall j :: 1 <= j <= |resItems[1..]| ==> resItems[1..][j - 1] == resItems[j];
          Err(e)
        case Ok(vs) => Ok([v] + vs)
  }

  /** The `for res_item in res_items` loop: push each decoded item onto
      `items`, returning the first decode error. */
  method DecodeInto<V>(decode: Decoder<V>, resItems: seq<Item>, items: seq<Record<V>>) returns (r: Result<seq<Record<V>>>)
    ensures DecodeAll(decode, resItems).Err? ==> r == Err(DecodeAll(decode, resItems).error)
    ensures DecodeAll(decode, resItems).Ok? ==> r == Ok(items + DecodeAll(decode, resItems).value)
  {
    var acc := items;
    for i := 0 to |resItems|
      invariant |acc| == |items| + i
      invariant acc[..|items|] == items
      invariant forall j :: 0 <= j < i ==> decode(resItems[j]) == Ok(acc[|items| + j])
    {
      var decoded := decode(resItems[i]);
      if decoded.Err? {
        return Err(decoded.error);
      }
      acc := acc + [decoded.value];
    }
    var all := DecodeAll(decode, resItems);
    assert acc == items + all.value;
    return Ok(acc);
  }

  /** The requests sent for a sequence of batches, one per batch, in order. */
  function Requests<V>(cfg: Config<V>, batches: seq<seq<BatchKey>>): (rs: seq<BatchGetItemInput>)
    ensures |rs| == |batches|
    ensures forall i :: 0 <= i < |batches| ==> rs[i] == BatchRequest(cfg, batches[i])
  {
    seq(|batches|, i requires 0 <= i < |batches| => BatchRequest(cfg, batches[i]))
  }

  lemma RequestsSnoc<V>(cfg: Config<V>, batches: seq<seq<BatchKey>>, batch: seq<BatchKey>)
    ensures Requests(cfg, batches + [batch]) == Requests(cfg, batches) + [BatchRequest(cfg, batch)]
  {
  }

  /** How one pass of the loop ends. */
  datatype PassOutcome<V> =
    | Failed(error: RaidenError)
    | Completed(decoded: seq<Record<V>>, unprocessed: seq<KeyMap>, capacity: Option<seq<ConsumedCapacity>>)

  function TableNotFoundMessage(table: string): string
  {
    "'" + table + "' table not found or not active"
  }

  /** The unprocessed keys the store reports for this table, if any. */
  function UnprocessedFor(table: string, res: BatchGetItemOutput): seq<KeyMap>
  {
    if res.unprocessedKeys.Some? && table in res.unprocessedKeys.value then res.unprocessedKeys.value[table].keys else []
  }

  /** One pass: send the batch as the `call`-th request and interpret the
      answer. A transport error passes through unchanged; a response without
      a `responses` map, or without this table in it, is `ResourceNotFound`;
      the first item that does not decode gives its decode error. */
  function Pass<V>(cfg: Config<V>, call: nat, batch: seq<BatchKey>, client: Client): (o: PassOutcome<V>)
    ensures client(call, BatchRequest(cfg, batch)).Err? ==> o == Failed(client(call, BatchRequest(cfg, batch)).error)
    ensures client(call, BatchRequest(cfg, batch)).Ok? && client(call, BatchRequest(cfg, batch)).value.responses.None?
            ==> o == Failed(ResourceNotFound("resource not found"))
    ensures client(call, BatchRequest(cfg, batch)).Ok? && client(call, BatchRequest(cfg, batch)).value.responses.Some?
            && cfg.tableName !in client(call, BatchRequest(cfg, batch)).value.responses.value
            ==> o == Failed(ResourceNotFound(TableNotFoundMessage(cfg.tableName)))
    ensures o.Completed? ==>
              && client(call, BatchRequest(cfg, batch)).Ok?
              && var res := client(call, BatchRequest(cfg, batch)).value;
                 && res.responses.Some? && cfg.tableName in res.responses.value
                 && DecodeAll(ItemDecoder(cfg.schema), res.responses.value[cfg.tableName]) == Ok(o.decoded)
                 && o.unprocessed == UnprocessedFor(cfg.tableName, res)
                 && o.capacity == res.consumedCapacity
    ensures client(call, BatchRequest(cfg, batch)).Ok? ==>
              var res := client(call, BatchRequest(cfg, batch)).value;
              res.responses.Some? && cfg.tableName in res.responses.value ==>
                var d := DecodeAll(ItemDecoder(cfg.schema), res.responses.value[cfg.tableName]);
                && (d.Err? ==> o == Failed(d.error))
                && (d.Ok? ==> o == Completed(d.value, UnprocessedFor(cfg.tableName, res), res.consumedCapacity))
  {
    match client(call, BatchRequest(cfg, batch))
    case Err(e) => Failed(e)
    case Ok(res) =>
      if res.responses.None? then Failed(ResourceNotFound("resource not found"))
      else if cfg.tableName !in res.responses.value then Failed(ResourceNotFound(TableNotFoundMessage(cfg.tableName)))
      else
        match DecodeAll(ItemDecoder(cfg.schema), res.responses.value[cfg.tableName])
        case Err(e) => Failed(e)
        case Ok(decoded) => Completed(decoded, UnprocessedFor(cfg.tableName, res), res.consumedCapacity)
  }

  /** What one pass does, given the request index and the drained batch. */
  type PassFn<V> = (nat, seq<BatchKey>) -> PassOutcome<V>

  function PassOf<V>(cfg: Config<V>, client: Client): PassFn<V>
  {
    (call: nat, batch: seq<BatchKey>) => Pass(cfg, call, batch, client)
  }

  /** How many keys a pass drains from `len` pending ones. */
  function Drained(len: nat): nat
  {
    if len < MaxKeysPerRequest then len else MaxKeysPerRequest
  }

  /** The loop as a function of what a pass does, the pending keys, the index
      of the next request and the two accumulators. It stops after the pass
      that leaves the pending list empty, or at the first failure. On success
      nothing already collected is lost: both accumulators only grow. */
  function RunSpec<V>(pass: PassFn<V>, pending: seq<BatchKey>, call: nat, items: seq<Record<V>>,
                      unprocessed: seq<KeyMap>): (r: Result<BatchGetOutput<V>>)
    ensures r.Ok? ==> r.value.unprocessedKeys.Some?
    ensures r.Ok? ==> items <= r.value.items && unprocessed <= r.value.unprocessedKeys.value.keys
    decreases |pending|
  {
    var n := Drained(|pending|);
    match pass(call, pending[..n])
    case Failed(e) => Err(e)
    case Completed(decoded, unproc, capacity) =>
      if |pending[n..]| == 0 then Ok(BatchGetOutput(capacity, items + decoded, Some(KeysAndAttributes(unprocessed + unproc))))
      else RunSpec(pass, pending[n..], call + 1, items + decoded, unprocessed + unproc)
  }

  /** The batches the loop actually sends, in order. */
  function SentBatches<V>(pass: PassFn<V>, pending: seq<BatchKey>, call: nat): seq<seq<BatchKey>>
    decreases |pending|
  {
    var n := Drained(|pending|);
    [pending[..n]]
    + if pass(call, pending[..n]).Failed? || |pending[n..]| == 0 then []
      else SentBatches(pass, pending[n..], call + 1)
  }

  /** One step of `RunSpec`: the pass on the drained batch decides whether the
      run fails, returns, or goes on with the rest. */
  lemma RunStep<V>(pass: PassFn<V>, pending: seq<BatchKey>, call: nat, items: seq<Record<V>>, unprocessed: seq<KeyMap>)
    ensures var n := Drained(|pending|);
            var o := pass(call, pending[..n]);
            RunSpec(pass, pending, call, items, unprocessed)
            == if o.Failed? then Err(o.error)
               else if |pending[n..]| == 0 then Ok(BatchGetOutput(o.capacity, items + o.decoded, Some(KeysAndAttributes(unprocessed + o.unprocessed))))
               else RunSpec(pass, pending[n..], call + 1, items + o.decoded, unprocessed + o.unprocessed)
  {
  }

  /** One step of `SentBatches`: the batch drained now, then the rest when
      the pass completed and keys remain. */
  lemma SentStep<V>(pass: PassFn<V>, pending: seq<BatchKey>, call: nat)
    ensures var n := Drained(|pending|);
            SentBatches(pass, pending, call)
            == [pending[..n]] + if pass(call, pending[..n]).Failed? || |pending[n..]| == 0 then []
                                else SentBatches(pass, pending[n..], call + 1)
  {
  }

  /** After a completed pass that leaves keys pending, the batches sent so
      far grow by the drained one and the rest follow from the next call. */
  lemma SentContinues<V>(pass: PassFn<V>, pending: seq<BatchKey>, call: nat,
                         before: seq<seq<BatchKey>>, whole: seq<seq<BatchKey>>)
    requires whole == before + SentBatches(pass, pending, call)
    requires pass(call, pending[..Drained(|pending|)]).Completed? && |pending[Drained(|pending|)..]| > 0
    ensures whole == (before + [pending[..Drained(|pending|)]]) + SentBatches(pass, pending[Drained(|pending|)..], call + 1)
  {
    SentStep(pass, pending, call);
  }

  /** After a failed pass, or one that drained the last keys, nothing more
      is sent. */
  lemma SentStops<V>(pass: PassFn<V>, pending: seq<BatchKey>, call: nat,
                     before: seq<seq<BatchKey>>, whole: seq<seq<BatchKey>>)
    requires whole == before + SentBatches(pass, pending, call)
    requires pass(call, pending[..Drained(|pending|)]).Failed? || |pending[Drained(|pending|)..]| == 0
    ensures whole == before + [pending[..Drained(|pending|)]]
  {
    SentStep(pass, pending, call);
  }

  /** The batches the pending list is cut into: at most 100 keys each, and a
      single empty batch for an empty list. */
  function Batches<K>(keys: seq<K>): seq<seq<K>>
    decreases |keys|
  {
    if |keys| <= MaxKeysPerRequest then [keys]
    else [keys[..MaxKeysPerRequest]] + Batches(keys[MaxKeysPerRequest..])
  }

  function Flatten<K>(ss: seq<seq<K>>): seq<K>
  {
    if ss == [] then [] else ss[0] + Flatten(ss[1..])
  }

  lemma FlattenCons<K>(x: seq<K>, ss: seq<seq<K>>)
    ensures Flatten([x] + ss) == x + Flatten(ss)
  {
    assert ([x] + ss)[1..] == ss;
  }

  /** max(1, ceil(n / 100)). */
  function RequestCount(n: nat): nat
  {
    if n == 0 then 1 else (n + MaxKeysPerRequest - 1) / MaxKeysPerRequest
  }

  /** The batches cover the keys in order, all but the last are full, and
      there are max(1, ceil(n / 100)) of them. */
  lemma {:induction false} BatchesPartition<K>(keys: seq<K>)
    ensures |Batches(keys)| == RequestCount(|keys|)
    ensures Flatten(Batches(keys)) == keys
    ensures forall i :: 0 <= i < |Batches(keys)| - 1 ==> |Batches(keys)[i]| == MaxKeysPerRequest
    ensures |Batches(keys)[|Batches(keys)| - 1]| == |keys| - MaxKeysPerRequest * (|Batches(keys)| - 1)
    decreases |keys|
  {
    if |keys| <= MaxKeysPerRequest {
      assert Flatten([keys]) == keys + Flatten([]);
    } else {
      var head, rest := keys[..MaxKeysPerRequest], keys[MaxKeysPerRequest..];
      BatchesPartition(rest);
      var bs := Batches(keys);
      assert bs == [head] + Batches(rest);
      FlattenCons(head, Batches(rest));
      assert head + rest == keys;
    }
  }

  /** 250 keys are sent as 100, 100 and 50. */
  lemma Batches250<K>(keys: seq<K>)
    requires |keys| == 250
    ensures |Batches(keys)| == 3
    ensures |Batches(keys)[0]| == 100 && |Batches(keys)[1]| == 100 && |Batches(keys)[2]| == 50
  {
    BatchesPartition(keys);
  }

  /** The i-th pass of a run that starts at request `call`. */
  function PassAt<V>(pass: PassFn<V>, pending: seq<BatchKey>, call: nat, i: nat): PassOutcome<V>
    requires i < |Batches(pending)|
  {
    pass(call + i, Batches(pending)[i])
  }

  /** A list of at most 100 keys is sent in one pass. */
  lemma OnePass<V>(pass: PassFn<V>, pending: seq<BatchKey>, call: nat)
    requires |pending| <= MaxKeysPerRequest
    ensures pending[..Drained(|pending|)] == pending
    ensures Batches(pending) == [pending]
    ensures PassAt(pass, pending, call, 0) == pass(call, pending)
  {
    assert pending[..|pending|] == pending;
  }

  lemma BatchesCons<K>(keys: seq<K>)
    requires |keys| > MaxKeysPerRequest
    ensures Batches(keys) == [keys[..MaxKeysPerRequest]] + Batches(keys[MaxKeysPerRequest..])
    ensures |Batches(keys)| == 1 + |Batches(keys[MaxKeysPerRequest..])|
    ensures Batches(keys)[0] == keys[..MaxKeysPerRequest]
    ensures forall i :: 1 <= i < |Batches(keys)| ==> Batches(keys)[i] == Batches(keys[MaxKeysPerRequest..])[i - 1]
  {
  }

  /** Passes after the first are the passes of the remaining keys, one
      request index later. */
  lemma PassesShift<V>(pass: PassFn<V>, pending: seq<BatchKey>, call: nat)
    requires |pending| > MaxKeysPerRequest
    ensures Batches(pending) == [pending[..MaxKeysPerRequest]] + Batches(pending[MaxKeysPerRequest..])
    ensures PassAt(pass, pending, call, 0) == pass(call, pending[..MaxKeysPerRequest])
    ensures forall i :: 1 <= i < |Batches(pending)| ==>
              PassAt(pass, pending, call, i) == PassAt(pass, pending[MaxKeysPerRequest..], call + 1, i - 1)
  {
    BatchesCons(pending);
  }

  /** Every batch sent is the next batch of the ORIGINAL keys, so unprocessed
      keys never re-enter the pending list. At least one request is sent, and
      a successful run sends exactly max(1, ceil(n / 100)) of them. */
  lemma {:induction false} SentFollowsBatches<V>(pass: PassFn<V>, pending: seq<BatchKey>, call: nat,
                                                 items: seq<Record<V>>, unprocessed: seq<KeyMap>)
    ensures 1 <= |SentBatches(pass, pending, call)| <= |Batches(pending)|
    ensures SentBatches(pass, pending, call) == Batches(pending)[..|SentBatches(pass, pending, call)|]
    ensures RunSpec(pass, pending, call, items, unprocessed).Ok? ==>
              |SentBatches(pass, pending, call)| == |Batches(pending)| == RequestCount(|pending|)
    decreases |pending|
  {
    BatchesPartition(pending);
    var n := Drained(|pending|);
    var o := pass(call, pending[..n]);
    if |pending| <= MaxKeysPerRequest {
      OnePass(pass, pending, call);
    } else {
      var rest := pending[n..];
      PassesShift(pass, pending, call);
      if o.Completed? {
        SentFollowsBatches(pass, rest, call + 1, items + o.decoded, unprocessed + o.unprocessed);
        var s, rs := SentBatches(pass, pending, call), SentBatches(pass, rest, call + 1);
        assert s == [pending[..n]] + rs;
        assert s == Batches(pending)[..|s|];
      }
    }
  }

  /** A run fails exactly when its last pass fails, with that pass's error;
      nothing decoded earlier is returned with it. */
  lemma {:induction false} RunFailsWithLastPass<V>(pass: PassFn<V>, pending: seq<BatchKey>, call: nat,
                                                   items: seq<Record<V>>, unprocessed: seq<KeyMap>)
    ensures 1 <= |SentBatches(pass, pending, call)| <= |Batches(pending)|
    ensures RunSpec(pass, pending, call, items, unprocessed).Err?
            <==> PassAt(pass, pending, call, |SentBatches(pass, pending, call)| - 1).Failed?
    ensures RunSpec(pass, pending, call, items, unprocessed).Err? ==>
              RunSpec(pass, pending, call, items, unprocessed).error
              == PassAt(pass, pending, call, |SentBatches(pass, pending, call)| - 1).error
    decreases |pending|
  {
    SentFollowsBatches(pass, pending, call, items, unprocessed);
    var n := Drained(|pending|);
    var o := pass(call, pending[..n]);
    if |pending| <= MaxKeysPerRequest {
      OnePass(pass, pending, call);
    } else {
      PassesShift(pass, pending, call);
      if o.Completed? {
        var rest := pending[n..];
        RunFailsWithLastPass(pass, rest, call + 1, items + o.decoded, unprocessed + o.unprocessed);
        assert |SentBatches(pass, pending, call)| == 1 + |SentBatches(pass, rest, call + 1)|;
      }
    }
  }

  function DecodedOf<V>(o: PassOutcome<V>): seq<Record<V>>
  {
    if o.Completed? then o.decoded else []
  }

  function UnprocessedOf<V>(o: PassOutcome<V>): seq<KeyMap>
  {
    if o.Completed? then o.unprocessed else []
  }

  /** Each pass's decoded items, in request order (empty for a failed pass). */
  function DecodedPerPass<V>(pass: PassFn<V>, pending: seq<BatchKey>, call: nat): seq<seq<Record<V>>>
  {
    seq(|Batches(pending)|, i requires 0 <= i < |Batches(pending)| => DecodedOf(PassAt(pass, pending, call, i)))
  }

  /** Each pass's unprocessed keys, in request order (empty for a failed pass). */
  function UnprocessedPerPass<V>(pass: PassFn<V>, pending: seq<BatchKey>, call: nat): seq<seq<KeyMap>>
  {
    seq(|Batches(pending)|, i requires 0 <= i < |Batches(pending)| => UnprocessedOf(PassAt(pass, pending, call, i)))
  }

  lemma PerPassShift<V>(pass: PassFn<V>, pending: seq<BatchKey>, call: nat)
    requires |pending| > MaxKeysPerRequest
    ensures DecodedPerPass(pass, pending, call)
            == [DecodedOf(pass(call, pending[..MaxKeysPerRequest]))] + DecodedPerPass(pass, pending[MaxKeysPerRequest..], call + 1)
    ensures UnprocessedPerPass(pass, pending, call)
            == [UnprocessedOf(pass(call, pending[..MaxKeysPerRequest]))] + UnprocessedPerPass(pass, pending[MaxKeysPerRequest..], call + 1)
  {
    PassesShift(pass, pending, call);
    var rest := pending[MaxKeysPerRequest..];
    var d, rd := DecodedPerPass(pass, pending, call), DecodedPerPass(pass, rest, call + 1);
    var u, ru := UnprocessedPerPass(pass, pending, call), UnprocessedPerPass(pass, rest, call + 1);
    assert d[1..] == rd;
    assert d == [d[0]] + d[1..];
    assert u[1..] == ru;
    assert u == [u[0]] + u[1..];
  }

  lemma PerPassOne<V>(pass: PassFn<V>, pending: seq<BatchKey>, call: nat)
    requires |pending| <= MaxKeysPerRequest
    ensures Flatten(DecodedPerPass(pass, pending, call)) == DecodedOf(pass(call, pending))
    ensures Flatten(UnprocessedPerPass(pass, pending, call)) == UnprocessedOf(pass(call, pending))
  {
    OnePass(pass, pending, call);
    var d, u := DecodedOf(pass(call, pending)), UnprocessedOf(pass(call, pending));
    assert DecodedPerPass(pass, pending, call) == [d] + [];
    assert UnprocessedPerPass(pass, pending, call) == [u] + [];
    FlattenCons(d, []);
    FlattenCons(u, []);
    assert d + [] == d;
    assert u + [] == u;
  }

  /** A successful run completed every pass, and its capacity report is the
      last response's, not an accumulation. */
  lemma {:induction false} RunOkCompleted<V>(pass: PassFn<V>, pending: seq<BatchKey>, call: nat,
                                             items: seq<Record<V>>, unprocessed: seq<KeyMap>)
    requires RunSpec(pass, pending, call, items, unprocessed).Ok?
    ensures forall i :: 0 <= i < |Batches(pending)| ==> PassAt(pass, pending, call, i).Completed?
    ensures RunSpec(pass, pending, call, items, unprocessed).value.consumedCapacity
            == PassAt(pass, pending, call, |Batches(pending)| - 1).capacity
    decreases |pending|
  {
    var n := Drained(|pending|);
    var o := pass(call, pending[..n]);
    if |pending| <= MaxKeysPerRequest {
      OnePass(pass, pending, call);
    } else {
      var rest := pending[n..];
      assert RunSpec(pass, pending, call, items, unprocessed)
          == RunSpec(pass, rest, call + 1, items + o.decoded, unprocessed + o.unprocessed);
      PassesShift(pass, pending, call);
      RunOkCompleted(pass, rest, call + 1, items + o.decoded, unprocessed + o.unprocessed);
      forall i | 0 <= i < |Batches(pending)|
        ensures PassAt(pass, pending, call, i).Completed?
      {
        if i > 0 {
          assert PassAt(pass, pending, call, i) == PassAt(pass, rest, call + 1, i - 1);
        }
      }
      assert PassAt(pass, pending, call, |Batches(pending)| - 1) == PassAt(pass, rest, call + 1, |Batches(rest)| - 1);
    }
  }

  /** A successful run returns the accumulated items followed by each
      pass's decoded items in request order: nothing is dropped or
      reordered. */
  lemma {:induction false} RunOkCollects<V>(pass: PassFn<V>, pending: seq<BatchKey>, call: nat,
                                            items: seq<Record<V>>, unprocessed: seq<KeyMap>)
    requires RunSpec(pass, pending, call, items, unprocessed).Ok?
    ensures RunSpec(pass, pending, call, items, unprocessed).value.items
            == items + Flatten(DecodedPerPass(pass, pending, call))
    decreases |pending|
  {
    var n := Drained(|pending|);
    var o := pass(call, pending[..n]);
    if |pending| <= MaxKeysPerRequest {
      OnePass(pass, pending, call);
      PerPassOne(pass, pending, call);
    } else {
      var rest := pending[n..];
      assert RunSpec(pass, pending, call, items, unprocessed)
          == RunSpec(pass, rest, call + 1, items + o.decoded, unprocessed + o.unprocessed);
      PerPassShift(pass, pending, call);
      RunOkCollects(pass, rest, call + 1, items + o.decoded, unprocessed + o.unprocessed);
      FlattenCons(o.decoded, DecodedPerPass(pass, rest, call + 1));
      assert items + o.decoded + Flatten(DecodedPerPass(pass, rest, call + 1))
          == items + (o.decoded + Flatten(DecodedPerPass(pass, rest, call + 1)));
    }
  }

  /** Likewise, a successful run reports the accumulated unprocessed keys
      followed by each pass's, in request order. */
  lemma {:induction false} RunOkUnprocessed<V>(pass: PassFn<V>, pending: seq<BatchKey>, call: nat,
                                               items: seq<Record<V>>, unprocessed: seq<KeyMap>)
    requires RunSpec(pass, pending, call, items, unprocessed).Ok?
    ensures RunSpec(pass, pending, call, items, unprocessed).value.unprocessedKeys
            == Some(KeysAndAttributes(unprocessed + Flatten(UnprocessedPerPass(pass, pending, call))))
    decreases |pending|
  {
    var n := Drained(|pending|);
    var o := pass(call, pending[..n]);
    if |pending| <= MaxKeysPerRequest {
      OnePass(pass, pending, call);
      PerPassOne(pass, pending, call);
    } else {
      var rest := pending[n..];
      PerPassShift(pass, pending, call);
      RunOkUnprocessed(pass, rest, call + 1, items + o.decoded, unprocessed + o.unprocessed);
      FlattenCons(o.unprocessed, UnprocessedPerPass(pass, rest, call + 1));
      assert unprocessed + o.unprocessed + Flatten(UnprocessedPerPass(pass, rest, call + 1))
          == unprocessed + (o.unprocessed + Flatten(UnprocessedPerPass(pass, rest, call + 1)));
    }
  }

  /** The builder `batch_get` returns. `run` takes it by value and drains its
      key list in place. */
  class BatchGetItemBuilder<V> {
    const config: Config<V>
    var keys: seq<BatchKey>

    constructor (config: Config<V>, keys: seq<BatchKey>)
      ensures this.config == config && this.keys == keys
    {
      this.config := config;
      this.keys := keys;
    }

    /** The generated `run`: the request sent on the n-th pass is
        `client(n, BatchRequest(config, batch))`. */
    method Run(client: Client) returns (r: Result<BatchGetOutput<V>>, ghost sent: seq<BatchGetItemInput>)
      modifies this
      ensures r == RunSpec(PassOf(config, client), old(keys), 0, [], [])
      ensures r.Ok? ==> keys == []
      ensures sent == Requests(config, SentBatches(PassOf(config, client), old(keys), 0))
    {
      var items: seq<Record<V>> := [];
      var unprocessed: seq<KeyMap> := [];
      var call: nat := 0;
      ghost var pass := PassOf(config, client);
      ghost var batches: seq<seq<BatchKey>> := [];
      sent := [];
      while true
        invariant RunSpec(pass, old(keys), 0, [], []) == RunSpec(pass, keys, call, items, unprocessed)
        invariant SentBatches(pass, old(keys), 0) == batches + SentBatches(pass, keys, call)
        invariant sent == Requests(config, batches)
        decreases |keys|
      {
        ghost var pending, unprocessed0, batches0 := keys, unprocessed, batches;
        var n := Drained(|keys|);
        var batch := keys[..n];
        keys := keys[n..];
        var keyMaps := BuildKeyMaps(config, batch);
        var input := BatchGetItemInput(map[config.tableName := KeysAndAttributes(keyMaps)]);
        var res := client(call, input);
        RequestsSnoc(config, batches, batch);
        sent, batches := sent + [input], batches + [batch];
        ghost var o := pass(call, batch);
        assert o == Pass(config, call, batch, client);
        if o.Failed? || keys == [] {
          SentStops(pass, pending, call, batches0, SentBatches(pass, old(keys), 0));
        }
        RunStep(pass, pending, call, items, unprocessed);
        if res.Err? {
          r := Err(res.error);
          return;
        }
        var out := res.value;
        if out.responses.None? {
          r := Err(ResourceNotFound("resource not found"));
          return;
        }
        if config.tableName !in out.responses.value {
          r := Err(ResourceNotFound(TableNotFoundMessage(config.tableName)));
          return;
        }
        var pushed := DecodeInto(ItemDecoder(config.schema), out.responses.value[config.tableName], items);
        if pushed.Err? {
          r := Err(pushed.error);
          return;
        }
        assert o.Completed? && items + o.decoded == pushed.value;
        items := pushed.value;
        if out.unprocessedKeys.Some? {
          var keysByTable := out.unprocessedKeys.value;
          if config.tableName in keysByTable {
            unprocessed := unprocessed + keysByTable[config.tableName].keys;
          }
        }
        assert unprocessed == unprocessed0 + o.unprocessed;
        if keys == [] {
          r := Ok(BatchGetOutput(out.consumedCapacity, items, Some(KeysAndAttributes(unprocessed))));
          return;
        }
        SentContinues(pass, pending, call, batches0, SentBatches(pass, old(keys), 0));
        call := call + 1;
      }
    }
  }
}
