/** The input layer of crates/chia-inspect-core/src/input.rs: which JSON
    shapes are accepted as a mempool item, a list of block spends or a single
    coin spend; how the hex of `puzzle_reveal` and `solution` is normalised
    before decoding; and the notes each loader records.

    JSON text parsing and the serde and streamable decoders are outside the
    model: a loader receives the parsed `Value` and a `Decoders` value that
    stands for those decoders. `serde_json::Map` is a B-tree map, so its
    entries are visited in ascending key order. */
module Input {
  import opened Wrappers
  import opened Json
  import opened Hex
  import opened Ordering

  /** Where a spend bundle came from. */
  datatype InputSource = Mempool | Block | Coin

  /** `InputSource::kind`. */
  function Kind(source: InputSource): (k: string)
  {
    match source
    case Mempool => "mempool_item"
    case Block => "block"
    case Coin => "coin"
  }

  /** Each source has its own kind string, and the strings are the three the
      report uses. */
  lemma KindIsInjective(a: InputSource, b: InputSource)
    ensures Kind(a) == Kind(b) <==> a == b
    ensures Kind(a) in {"mempool_item", "block", "coin"}
  {
  }

  /** An input error: a context message, or the error of a hex decode. */
  datatype InputError = Message(text: string) | BadHex(cause: HexError)

  const NotAnObjectError: string := "coin spend entry must be an object"
  const NotAnArrayError: string := "coin_spends must be an array of coin spend objects"
  const BundleNotAnObjectError: string := "spend bundle JSON must be an object"
  const MissingCoinSpendsError: string := "spend bundle is missing coin_spends"
  const ListNotAnArrayError: string := "coin spend list must be an array"
  const BundleJsonError: string := "failed to parse spend bundle JSON"
  const BundleBytesError: string := "failed to parse spend bundle bytes"
  const CoinSpendError: string := "failed to parse coin spend"
  const MempoolShapeError: string :=
    "mempool blob must contain spend_bundle, spend_bundle_bytes, or coin_spends (top-level or inside mempool_item)"
  const BlockShapeError: string := "block input must be an array or object containing coin_spends/block_spends"
  const WrapperNote: string := "input contained mempool_item wrapper; using nested payload"
  const BytesNote: string := "input contained spend_bundle_bytes; decoded with streamable parser"
  const BlockNote: string := "block input normalized to SpendBundle with default aggregate signature"
  const CoinNote: string := "coin input normalized to single-spend SpendBundle"

  /** `Value::get` with a string key: the field of an object, nothing otherwise. */
  function Get(v: Value, key: string): (r: Option<Value>)
  {
    if v.Object? && key in v.fields then Some(v.fields[key]) else None
  }

  /** `Option::context`: a missing value becomes the error `msg`. */
  function Context<T>(o: Option<T>, msg: string): (r: Result<T, InputError>)
  {
    match o
    case Some(x) => Ok(x)
    case None => Err(Message(msg))
  }

  // ---------------------------------------------------------------------
  // normalize_coin_spend_value
  // ---------------------------------------------------------------------

  /** The two fields of a coin spend that hold serialized programs. */
  predicate IsProgramField(k: string)
  {
    k == "puzzle_reveal" || k == "solution"
  }

  /** What happens to one entry of a coin spend object. */
  function NormalizeField(k: string, v: Value): (r: Result<Value, InputError>)
  {
    if !IsProgramField(k) then Ok(v)
    else if !v.String? then Err(Message(k + " must be a hex string"))
    else match NormalizeHexNoPrefix(v.s)
      case Ok(h) => Ok(String(h))
      case Err(e) => Err(BadHex(e))
  }

  /** A program field is rewritten to unprefixed lower-case hex; any other
      field is kept as it is; a program field that is not a string, or not
      hex, is an error. */
  lemma NormalizeFieldMeaning(k: string, v: Value)
    ensures !IsProgramField(k) ==> NormalizeField(k, v) == Ok(v)
    ensures IsProgramField(k) && !v.String? ==> NormalizeField(k, v) == Err(Message(k + " must be a hex string"))
    ensures IsProgramField(k) && v.String? ==>
              (NormalizeField(k, v).Ok? <==> NormalizeHexNoPrefix(v.s).Ok?)
    ensures IsProgramField(k) && NormalizeField(k, v).Ok? ==>
              NormalizeField(k, v).value.String?
              && IsLowerHex(NormalizeField(k, v).value.s)
              && !HasHexPrefix(NormalizeField(k, v).value.s)
  {
    if IsProgramField(k) && v.String? && NormalizeHexNoPrefix(v.s).Ok? {
      NormalizeIsLowercasedInput(v.s);
    }
  }

  /** A normalised field normalises to itself. */
  lemma NormalizeFieldIdempotent(k: string, v: Value)
    requires NormalizeField(k, v).Ok?
    ensures NormalizeField(k, NormalizeField(k, v).value) == NormalizeField(k, v)
  {
    if IsProgramField(k) {
      NormalizeIdempotent(v.s);
    }
  }

  /** A coin spend value that normalises without error. */
  predicate NormalizableSpend(v: Value)
  {
    v.Object? && forall k :: k in v.fields ==> NormalizeField(k, v.fields[k]).Ok?
  }

  /** The normalised coin spend: the same keys, every entry normalised. */
  function NormalizedSpend(v: Value): (r: Value)
    requires NormalizableSpend(v)
  {
    Object(map k | k in v.fields :: NormalizeField(k, v.fields[k]).value)
  }

  /** `k` is the first key, in the map's ascending order, whose entry fails,
      and it fails with `e`. */
  ghost predicate FirstFailure(fields: map<string, Value>, k: string, e: InputError)
  {
    && k in fields
    && NormalizeField(k, fields[k]) == Err(e)
    && forall k' :: k' in fields && StrLess(k', k) ==> NormalizeField(k', fields[k']).Ok?
  }

  /** The error `normalize_coin_spend_value` reports for `v`. */
  ghost predicate SpendFails(v: Value, e: InputError)
  {
    if v.Object? then exists k :: FirstFailure(v.fields, k, e)
    else e == Message(NotAnObjectError)
  }

  /** The error of a value that does not normalise is determined: a
      non-object has one error, and only one key can be the first that fails. */
  lemma SpendFailsUnique(v: Value, a: InputError, b: InputError)
    requires SpendFails(v, a) && SpendFails(v, b)
    ensures a == b
  {
    if v.Object? {
      var k1 :| FirstFailure(v.fields, k1, a);
      var k2 :| FirstFailure(v.fields, k2, b);
      if k1 != k2 {
        StrLessTotal(k1, k2);
      }
    }
  }

  /** A value that does not normalise has an error to report. */
  lemma NotNormalizableFails(v: Value)
    requires !NormalizableSpend(v)
    ensures exists e :: SpendFails(v, e)
  {
    if v.Object? {
      var bad := set k | k in v.fields && NormalizeField(k, v.fields[k]).Err?;
      var k0 :| k0 in v.fields && NormalizeField(k0, v.fields[k0]).Err?;
      assert k0 in bad;
      LeastStringExists(bad);
      var m :| m in bad && forall y :: y in bad && y != m ==> StrLess(m, y);
      forall k' | k' in v.fields && StrLess(k', m) ensures NormalizeField(k', v.fields[k']).Ok? {
        if k' in bad {
          StrLessIrreflexive(k');
          if k' != m {
            StrLessTransitive(k', m, k');
          }
        }
      }
      assert FirstFailure(v.fields, m, NormalizeField(m, v.fields[m]).error);
      assert SpendFails(v, NormalizeField(m, v.fields[m]).error);
    } else {
      assert SpendFails(v, Message(NotAnObjectError));
    }
  }

  /** Normalisation keeps the key set, changes only the program fields, and
      is idempotent. */
  lemma NormalizedSpendMeaning(v: Value)
    requires NormalizableSpend(v)
    ensures NormalizedSpend(v).fields.Keys == v.fields.Keys
    ensures forall k :: k in v.fields && !IsProgramField(k) ==> NormalizedSpend(v).fields[k] == v.fields[k]
    ensures NormalizableSpend(NormalizedSpend(v))
    ensures NormalizedSpend(NormalizedSpend(v)) == NormalizedSpend(v)
  {
    var w := NormalizedSpend(v);
    forall k | k in w.fields ensures NormalizeField(k, w.fields[k]) == Ok(w.fields[k]) {
      NormalizeFieldIdempotent(k, v.fields[k]);
    }
  }

  /** When the entries before `keys[i]` in ascending order all normalise and
      `keys[i]` does not, `keys[i]` is the first failure. */
  lemma FailureAtKey(fields: map<string, Value>, keys: seq<string>, i: nat)
    requires forall a, b :: 0 <= a < b < |keys| ==> StrLess(keys[a], keys[b])
    requires forall x :: x in keys <==> x in fields
    requires i < |keys|
    requires forall j :: 0 <= j < i ==> NormalizeField(keys[j], fields[keys[j]]).Ok?
    requires NormalizeField(keys[i], fields[keys[i]]).Err?
    ensures SpendFails(Object(fields), NormalizeField(keys[i], fields[keys[i]]).error)
  {
    var k := keys[i];
    forall k' | k' in fields && StrLess(k', k) ensures NormalizeField(k', fields[k']).Ok? {
      var j :| 0 <= j < |keys| && keys[j] == k';
      if j >= i {
        if j > i {
          StrLessTransitive(k', k, keys[j]);
        }
        StrLessIrreflexive(k');
      }
    }
    assert FirstFailure(fields, k, NormalizeField(k, fields[k]).error);
  }

  /** `normalize_coin_spend_value`: visits the entries in ascending key order,
      rewriting `puzzle_reveal` and `solution` and copying the rest; the first
      entry that fails ends the visit with its error. */
  method NormalizeCoinSpendValue(value: Value) returns (r: Result<Value, InputError>)
    ensures NormalizableSpend(value) ==> r == Ok(NormalizedSpend(value))
    ensures !NormalizableSpend(value) ==> r.Err? && SpendFails(value, r.error)
  {
    if !value.Object? {
      return Err(Message(NotAnObjectError));
    }
    var fields := value.fields;
    var keys := SortedStrings(fields.Keys);
    var out: map<string, Value> := map[];
    for i := 0 to |keys|
      invariant out.Keys == set j | 0 <= j < i :: keys[j]
      invariant forall k :: k in out ==> k in fields && NormalizeField(k, fields[k]) == Ok(out[k])
      invariant forall j :: 0 <= j < i ==> NormalizeField(keys[j], fields[keys[j]]).Ok?
    {
      var k := keys[i];
      var n := NormalizeField(k, fields[k]);
      if n.Err? {
        FailureAtKey(fields, keys, i);
        return Err(n.error);
      }
      out := out[k := n.value];
    }
    CompletedNormalization(value, keys, out);
    r := Ok(Object(out));
  }

  /** After every key was visited without error, the output map is the
      normalised coin spend. */
  lemma CompletedNormalization(value: Value, keys: seq<string>, out: map<string, Value>)
    requires value.Object? && forall x :: x in keys <==> x in value.fields
    requires out.Keys == set j | 0 <= j < |keys| :: keys[j]
    requires forall k :: k in out ==> k in value.fields && NormalizeField(k, value.fields[k]) == Ok(out[k])
    ensures NormalizableSpend(value) && out == NormalizedSpend(value).fields
  {
    assert out.Keys == value.fields.Keys by {
      forall k | k in value.fields ensures k in out {
        var j :| 0 <= j < |keys| && keys[j] == k;
      }
    }
  }

  // ---------------------------------------------------------------------
  // normalize_coin_spend_array
  // ---------------------------------------------------------------------

  predicate AllNormalizable(items: seq<Value>)
  {
    forall i :: 0 <= i < |items| ==> NormalizableSpend(items[i])
  }

  function NormalizedSpends(items: seq<Value>): (r: seq<Value>)
    requires AllNormalizable(items)
  {
    seq(|items|, i requires 0 <= i < |items| => NormalizedSpend(items[i]))
  }

  /** Item `i` is the first that fails, and it fails with `e`. */
  ghost predicate FirstBadSpend(items: seq<Value>, i: nat, e: InputError)
  {
    i < |items| && (forall j :: 0 <= j < i ==> NormalizableSpend(items[j])) && SpendFails(items[i], e)
  }

  /** `normalize_coin_spend_array`: an array of the same length and order,
      each item normalised; the first item that fails gives the error. */
  method NormalizeCoinSpendArray(value: Value) returns (r: Result<Value, InputError>)
    ensures !value.Array? ==> r == Err(Message(NotAnArrayError))
    ensures value.Array? && AllNormalizable(value.items) ==> r == Ok(Array(NormalizedSpends(value.items)))
    ensures value.Array? && !AllNormalizable(value.items) ==>
              r.Err? && exists i :: FirstBadSpend(value.items, i, r.error)
  {
    if !value.Array? {
      return Err(Message(NotAnArrayError));
    }
    var items := value.items;
    var out: seq<Value> := [];
    for i := 0 to |items|
      invariant |out| == i
      invariant forall j :: 0 <= j < i ==> NormalizableSpend(items[j]) && out[j] == NormalizedSpend(items[j])
    {
      var n := NormalizeCoinSpendValue(items[i]);
      if n.Err? {
        if NormalizableSpend(items[i]) {
          assert false;
        }
        assert FirstBadSpend(items, i, n.error);
        return Err(n.error);
      }
      out := out + [n.value];
    }
    assert out == NormalizedSpends(items);
    r := Ok(Array(out));
  }

  // ---------------------------------------------------------------------
  // normalize_spend_bundle_value
  // ---------------------------------------------------------------------

  /** A spend bundle value that normalises without error. */
  predicate NormalizableBundle(v: Value)
  {
    v.Object? && "coin_spends" in v.fields && v.fields["coin_spends"].Array?
    && AllNormalizable(v.fields["coin_spends"].items)
  }

  /** The normalised bundle: `coin_spends` normalised, every other field kept. */
  function NormalizedBundle(v: Value): (r: Value)
    requires NormalizableBundle(v)
  {
    Object(v.fields["coin_spends" := Array(NormalizedSpends(v.fields["coin_spends"].items))])
  }

  /** The error `normalize_spend_bundle_value` reports for `v`. */
  ghost predicate BundleFails(v: Value, e: InputError)
  {
    if !v.Object? then e == Message(BundleNotAnObjectError)
    else if "coin_spends" !in v.fields then e == Message(MissingCoinSpendsError)
    else if !v.fields["coin_spends"].Array? then e == Message(NotAnArrayError)
    else exists i :: FirstBadSpend(v.fields["coin_spends"].items, i, e)
  }

  /** `normalize_spend_bundle_value`: only `coin_spends` changes. */
  method NormalizeSpendBundleValue(value: Value) returns (r: Result<Value, InputError>)
    ensures NormalizableBundle(value) ==> r == Ok(NormalizedBundle(value))
    ensures !NormalizableBundle(value) ==> r.Err? && BundleFails(value, r.error)
  {
    if !value.Object? {
      return Err(Message(BundleNotAnObjectError));
    }
    var obj := value.fields;
    if "coin_spends" !in obj {
      return Err(Message(MissingCoinSpendsError));
    }
    var normalized := NormalizeCoinSpendArray(obj["coin_spends"]);
    if normalized.Err? {
      return Err(normalized.error);
    }
    r := Ok(Object(obj["coin_spends" := normalized.value]));
  }

  /** Normalising a bundle keeps every key and every field other than
      `coin_spends`, and keeps the number and order of the coin spends. */
  lemma NormalizedBundleMeaning(v: Value)
    requires NormalizableBundle(v)
    ensures NormalizedBundle(v).fields.Keys == v.fields.Keys
    ensures forall k :: k in v.fields && k != "coin_spends" ==> NormalizedBundle(v).fields[k] == v.fields[k]
    ensures |NormalizedBundle(v).fields["coin_spends"].items| == |v.fields["coin_spends"].items|
    ensures NormalizableBundle(NormalizedBundle(v))
    ensures NormalizedBundle(NormalizedBundle(v)) == NormalizedBundle(v)
  {
    var items := v.fields["coin_spends"].items;
    var out := NormalizedSpends(items);
    forall i | 0 <= i < |out| ensures NormalizableSpend(out[i]) && NormalizedSpend(out[i]) == out[i] {
      NormalizedSpendMeaning(items[i]);
    }
    assert NormalizedSpends(out) == out;
  }

  // ---------------------------------------------------------------------
  // Parsers and loaders
  // ---------------------------------------------------------------------

  /** An aggregated BLS signature; bundles built from spends get the default. */
  datatype Signature = DefaultSignature | G2(bytes: seq<byte>)

  datatype SpendBundle<C> = SpendBundle(coinSpends: seq<C>, aggregatedSignature: Signature)

  /** The decoders the loaders rely on: serde for a bundle and a coin spend,
      streamable for bundle bytes. `None` is a decoding failure. */
  datatype Decoders<C> = Decoders(
    bundleFromValue: Value -> Option<SpendBundle<C>>,
    bundleFromBytes: seq<byte> -> Option<SpendBundle<C>>,
    coinSpendFromValue: Value -> Option<C>)

  /** What `parse_spend_bundle_object` yields for `v`. */
  ghost predicate BundleObjectYields<C>(v: Value, dec: Decoders<C>, r: Result<SpendBundle<C>, InputError>)
  {
    if NormalizableBundle(v) then r == Context(dec.bundleFromValue(NormalizedBundle(v)), BundleJsonError)
    else r.Err? && BundleFails(v, r.error)
  }

  method ParseSpendBundleObject<C>(v: Value, dec: Decoders<C>) returns (r: Result<SpendBundle<C>, InputError>)
    ensures BundleObjectYields(v, dec, r)
  {
    var normalized := NormalizeSpendBundleValue(v);
    if normalized.Err? {
      return Err(normalized.error);
    }
    r := Context(dec.bundleFromValue(normalized.value), BundleJsonError);
  }

  /** `parse_spend_bundle_bytes`: hex-decode, then the streamable decoder. */
  function ParseSpendBundleBytes<C>(hex: string, dec: Decoders<C>): (r: Result<SpendBundle<C>, InputError>)
  {
    match DecodeHex(hex)
    case Err(e) => Err(BadHex(e))
    case Ok(bytes) => Context(dec.bundleFromBytes(bytes), BundleBytesError)
  }

  /** Bytes written as prefixed hex reach the streamable decoder unchanged,
      and hex that does not decode never reaches it. */
  lemma ParseSpendBundleBytesMeaning<C>(bytes: seq<byte>, hex: string, dec: Decoders<C>)
    ensures ParseSpendBundleBytes(EncodeHexPrefixed(bytes), dec) == Context(dec.bundleFromBytes(bytes), BundleBytesError)
    ensures DecodeHex(hex).Err? ==> ParseSpendBundleBytes(hex, dec) == Err(BadHex(DecodeHex(hex).error))
  {
    DecodeEncodeRoundTrip(bytes);
  }

  /** A coin spend value that normalises and decodes. */
  predicate CoinSpendParses<C>(v: Value, dec: Decoders<C>)
  {
    NormalizableSpend(v) && dec.coinSpendFromValue(NormalizedSpend(v)).Some?
  }

  /** What `parse_coin_spend` yields for `v`. */
  ghost predicate CoinSpendYields<C>(v: Value, dec: Decoders<C>, r: Result<C, InputError>)
  {
    if NormalizableSpend(v) then r == Context(dec.coinSpendFromValue(NormalizedSpend(v)), CoinSpendError)
    else r.Err? && SpendFails(v, r.error)
  }

  method ParseCoinSpend<C>(v: Value, dec: Decoders<C>) returns (r: Result<C, InputError>)
    ensures CoinSpendYields(v, dec, r)
    ensures r.Ok? <==> CoinSpendParses(v, dec)
  {
    var normalized := NormalizeCoinSpendValue(v);
    if normalized.Err? {
      return Err(normalized.error);
    }
    r := Context(dec.coinSpendFromValue(normalized.value), CoinSpendError);
  }

  /** What `parse_coin_spend_list` yields for `v`: an error for a non-array;
      otherwise one coin spend per item, in order, or the error of the first
      item that does not parse. */
  ghost predicate CoinSpendListYields<C>(v: Value, dec: Decoders<C>, r: Result<seq<C>, InputError>)
  {
    if !v.Array? then r == Err(Message(ListNotAnArrayError))
    else if r.Ok? then
      |r.value| == |v.items| && forall i :: 0 <= i < |v.items| ==> CoinSpendYields(v.items[i], dec, Ok(r.value[i]))
    else
      exists i :: 0 <= i < |v.items| && (forall j :: 0 <= j < i ==> CoinSpendParses(v.items[j], dec))
                  && CoinSpendYields(v.items[i], dec, Err(r.error))
  }

  method ParseCoinSpendList<C>(v: Value, dec: Decoders<C>) returns (r: Result<seq<C>, InputError>)
    ensures CoinSpendListYields(v, dec, r)
    ensures v.Array? ==> (r.Ok? <==> forall i :: 0 <= i < |v.items| ==> CoinSpendParses(v.items[i], dec))
  {
    if !v.Array? {
      return Err(Message(ListNotAnArrayError));
    }
    var items := v.items;
    var ret: seq<C> := [];
    for i := 0 to |items|
      invariant |ret| == i
      invariant forall j :: 0 <= j < i ==> CoinSpendParses(items[j], dec) && CoinSpendYields(items[j], dec, Ok(ret[j]))
    {
      var spend := ParseCoinSpend(items[i], dec);
      if spend.Err? {
        return Err(spend.error);
      }
      ret := ret + [spend.value];
    }
    r := Ok(ret);
  }

  /** What a loader returns. */
  datatype Loaded<C> = Loaded(source: InputSource, bundle: SpendBundle<C>, notes: seq<string>)

  function BundleOf<C>(r: Result<Loaded<C>, InputError>): Result<SpendBundle<C>, InputError>
  {
    match r
    case Ok(l) => Ok(l.bundle)
    case Err(e) => Err(e)
  }

  /** The payload of a mempool blob: the `mempool_item` field when present,
      otherwise the blob itself. */
  function MempoolScope(value: Value): Value
  {
    match Get(value, "mempool_item")
    case Some(wrapper) => wrapper
    case None => value
  }

  /** Which shape of mempool payload is used, in priority order. */
  datatype MempoolShape = BundleField(bundle: Value) | BundleBytes(hex: string) | CoinSpendsField | NoMempoolShape

  function MempoolShapeOf(scope: Value): (s: MempoolShape)
  {
    if Get(scope, "spend_bundle").Some? then BundleField(Get(scope, "spend_bundle").value)
    else if Get(scope, "spend_bundle_bytes").Some? && Get(scope, "spend_bundle_bytes").value.String? then
      BundleBytes(Get(scope, "spend_bundle_bytes").value.s)
    else if Get(scope, "coin_spends").Some? then CoinSpendsField
    else NoMempoolShape
  }

  /** The dispatch order: `spend_bundle` wins over `spend_bundle_bytes`, which
      is used only when it is a string and wins over `coin_spends`; a payload
      with none of the three is rejected. */
  lemma MempoolShapePriority(scope: Value)
    ensures Get(scope, "spend_bundle").Some? ==> MempoolShapeOf(scope).BundleField?
    ensures Get(scope, "spend_bundle").None? && Get(scope, "spend_bundle_bytes").Some?
            && !Get(scope, "spend_bundle_bytes").value.String? && Get(scope, "coin_spends").Some?
            ==> MempoolShapeOf(scope) == CoinSpendsField
    ensures MempoolShapeOf(scope) == NoMempoolShape <==>
              !scope.Object? || ("spend_bundle" !in scope.fields && "coin_spends" !in scope.fields
                                 && ("spend_bundle_bytes" in scope.fields ==> !scope.fields["spend_bundle_bytes"].String?))
  {
  }

  /** The notes of a successful mempool load. */
  function MempoolNotes(value: Value): seq<string>
  {
    (if Get(value, "mempool_item").Some? then [WrapperNote] else [])
    + (if MempoolShapeOf(MempoolScope(value)).BundleBytes? then [BytesNote] else [])
  }

  /** The bundle part of `load_mempool_blob_input`: the shape of the payload
      picks the parser, and bundle bytes add a note. */
  method LoadFromScope<C>(scope: Value, dec: Decoders<C>) returns (bundle: Result<SpendBundle<C>, InputError>, bytesNote: bool)
    ensures bytesNote <==> MempoolShapeOf(scope).BundleBytes?
    ensures MempoolShapeOf(scope) == NoMempoolShape ==> bundle == Err(Message(MempoolShapeError))
    ensures MempoolShapeOf(scope).BundleField? ==> BundleObjectYields(MempoolShapeOf(scope).bundle, dec, bundle)
    ensures MempoolShapeOf(scope).BundleBytes? ==> bundle == ParseSpendBundleBytes(MempoolShapeOf(scope).hex, dec)
    ensures MempoolShapeOf(scope) == CoinSpendsField ==> BundleObjectYields(scope, dec, bundle)
  {
    bytesNote := false;
    var sb := Get(scope, "spend_bundle");
    var sbBytes := Get(scope, "spend_bundle_bytes");
    if sb.Some? {
      bundle := ParseSpendBundleObject(sb.value, dec);
    } else if sbBytes.Some? && sbBytes.value.String? {
      bytesNote := true;
      bundle := ParseSpendBundleBytes(sbBytes.value.s, dec);
    } else if Get(scope, "coin_spends").Some? {
      bundle := ParseSpendBundleObject(scope, dec);
    } else {
      bundle := Err(Message(MempoolShapeError));
    }
  }

  /** `load_mempool_blob_input`, from the parsed JSON value. */
  method LoadMempoolBlobInput<C>(value: Value, dec: Decoders<C>) returns (r: Result<Loaded<C>, InputError>)
    ensures r.Ok? ==> r.value.source == Mempool && r.value.notes == MempoolNotes(value)
    ensures MempoolShapeOf(MempoolScope(value)) == NoMempoolShape ==> r == Err(Message(MempoolShapeError))
    ensures MempoolShapeOf(MempoolScope(value)).BundleField? ==>
              BundleObjectYields(MempoolShapeOf(MempoolScope(value)).bundle, dec, BundleOf(r))
    ensures MempoolShapeOf(MempoolScope(value)).BundleBytes? ==>
              BundleOf(r) == ParseSpendBundleBytes(MempoolShapeOf(MempoolScope(value)).hex, dec)
    ensures MempoolShapeOf(MempoolScope(value)) == CoinSpendsField ==>
              BundleObjectYields(MempoolScope(value), dec, BundleOf(r))
  {
    var notes: seq<string> := [];
    var scope := value;
    var wrapper := Get(value, "mempool_item");
    if wrapper.Some? {
      notes := notes + [WrapperNote];
      scope := wrapper.value;
    }
    assert scope == MempoolScope(value);
    assert notes == if Get(value, "mempool_item").Some? then [WrapperNote] else [];
    var bundle, bytesNote := LoadFromScope(scope, dec);
    if bytesNote {
      notes := notes + [BytesNote];
    }
    assert notes == MempoolNotes(value);
    if bundle.Err? {
      return Err(bundle.error);
    }
    r := Ok(Loaded(Mempool, bundle.value, notes));
  }

  /** Which list of a block input is used, in priority order. */
  datatype BlockShape = CoinSpendsList(items: Value) | BlockSpendsList(items: Value) | TopLevelArray | NoBlockShape

  function BlockShapeOf(value: Value): BlockShape
  {
    if Get(value, "coin_spends").Some? then CoinSpendsList(Get(value, "coin_spends").value)
    else if Get(value, "block_spends").Some? then BlockSpendsList(Get(value, "block_spends").value)
    else if value.Array? then TopLevelArray
    else NoBlockShape
  }

  /** The list a block shape selects. */
  function BlockList(value: Value): Value
  {
    match BlockShapeOf(value)
    case CoinSpendsList(items) => items
    case BlockSpendsList(items) => items
    case _ => value
  }

  /** `load_block_spends_input`, from the parsed JSON value. A successful load
      has one note, the default signature, and the listed spends in order. */
  method LoadBlockSpendsInput<C>(value: Value, dec: Decoders<C>) returns (r: Result<Loaded<C>, InputError>)
    ensures BlockShapeOf(value) == NoBlockShape ==> r == Err(Message(BlockShapeError))
    ensures r.Ok? ==> r.value.source == Block && r.value.notes == [BlockNote]
                      && r.value.bundle.aggregatedSignature == DefaultSignature
    ensures BlockShapeOf(value) != NoBlockShape ==>
              CoinSpendListYields(BlockList(value), dec,
                                  if r.Ok? then Ok(r.value.bundle.coinSpends) else Err(r.error))
  {
    var notes: seq<string> := [];
    var spends: Result<seq<C>, InputError>;
    var coinSpends := Get(value, "coin_spends");
    var blockSpends := Get(value, "block_spends");
    if coinSpends.Some? {
      spends := ParseCoinSpendList(coinSpends.value, dec);
    } else if blockSpends.Some? {
      spends := ParseCoinSpendList(blockSpends.value, dec);
    } else if value.Array? {
      spends := ParseCoinSpendList(value, dec);
    } else {
      return Err(Message(BlockShapeError));
    }
    if spends.Err? {
      return Err(spends.error);
    }
    notes := notes + [BlockNote];
    r := Ok(Loaded(Block, SpendBundle(spends.value, DefaultSignature), notes));
  }

  /** The coin spend of a coin input: the `coin_spend` field when present,
      otherwise the value itself. */
  function CoinSpendValue(value: Value): Value
  {
    match Get(value, "coin_spend")
    case Some(v) => v
    case None => value
  }

  /** `load_coin_spend_input`, from the parsed JSON value: a bundle of exactly
      the one parsed spend, with the default signature and one note. */
  method LoadCoinSpendInput<C>(value: Value, dec: Decoders<C>) returns (r: Result<Loaded<C>, InputError>)
    ensures r.Ok? ==> r.value.source == Coin && r.value.notes == [CoinNote]
                      && |r.value.bundle.coinSpends| == 1
                      && r.value.bundle.aggregatedSignature == DefaultSignature
    ensures CoinSpendYields(CoinSpendValue(value), dec,
                            if r.Ok? then Ok(r.value.bundle.coinSpends[0]) else Err(r.error))
  {
    var notes: seq<string> := [];
    var spendValue := CoinSpendValue(value);
    var spend := ParseCoinSpend(spendValue, dec);
    if spend.Err? {
      return Err(spend.error);
    }
    notes := notes + [CoinNote];
    r := Ok(Loaded(Coin, SpendBundle([spend.value], DefaultSignature), notes));
  }
}
