/**
 * Shape validation of upstream payloads (lib/validation.ts).
 *
 * Each schema of the source is a declarative value built from string, number,
 * array (with a minimum length) and object shapes whose fields are required or
 * optional. Parsing an object keeps only the declared keys, as zod's default
 * object parsing strips unknown keys.
 */
module Validation {
  import opened Wrappers
  import opened Json
  import Strings

  datatype Shape =
    | StringShape
    | NumberShape
    | ArrayShape(element: Shape, minLength: nat)
    | ObjectShape(fields: Fields)

  /** The declared fields of an object shape, in declaration order. */
  datatype Fields =
    | NoFields
    | Field(key: string, shape: Shape, optional: bool, rest: Fields)

  function Required(key: string, shape: Shape, rest: Fields): Fields {
    Field(key, shape, false, rest)
  }

  function Optional(key: string, shape: Shape, rest: Fields): Fields {
    Field(key, shape, true, rest)
  }

  function FieldKeys(fs: Fields): set<string> {
    match fs
    case NoFields => {}
    case Field(k, _, _, rest) => {k} + FieldKeys(rest)
  }

  /** Every object shape declares each key once (a JavaScript object literal cannot do otherwise). */
  predicate WellFormed(shape: Shape)
    decreases shape, 0
  {
    match shape
    case StringShape => true
    case NumberShape => true
    case ArrayShape(e, _) => WellFormed(e)
    case ObjectShape(fs) => FieldsWellFormed(fs)
  }

  predicate FieldsWellFormed(fs: Fields)
    decreases fs, 0
  {
    match fs
    case NoFields => true
    case Field(k, s, _, rest) => k !in FieldKeys(rest) && WellFormed(s) && FieldsWellFormed(rest)
  }

  // ---------------------------------------------------------------------------
  // The reference meaning of a shape: which values it accepts
  // ---------------------------------------------------------------------------

  predicate Conforms(shape: Shape, j: Json)
    decreases shape, 0
  {
    match shape
    case StringShape => j.JStr?
    case NumberShape => j.JNum?
    case ArrayShape(e, n) =>
      j.JArr? && |j.items| >= n && forall i :: 0 <= i < |j.items| ==> Conforms(e, j.items[i])
    case ObjectShape(fs) => j.JObj? && FieldsConform(fs, j.fields)
  }

  predicate FieldsConform(fs: Fields, m: map<string, Json>)
    decreases fs, 0
  {
    match fs
    case NoFields => true
    case Field(k, s, optional, rest) =>
      (if k in m then Conforms(s, m[k]) else optional) && FieldsConform(rest, m)
  }

  // ---------------------------------------------------------------------------
  // schema.parse: the narrowed value, or the first issue found
  // ---------------------------------------------------------------------------

  function Parse(shape: Shape, j: Json): Result<Json>
    decreases shape, 0
  {
    match shape
    case StringShape => if j.JStr? then Success(j) else Failure("Expected string")
    case NumberShape => if j.JNum? then Success(j) else Failure("Expected number")
    case ArrayShape(e, n) =>
      if !j.JArr? then Failure("Expected array")
      else if |j.items| < n then
        Failure("Array must contain at least " + Strings.NatToString(n) + " element(s)")
      else
        match ParseItems(e, j.items) {
          case Success(items) => Success(JArr(items))
          case Failure(msg) => Failure(msg)
        }
    case ObjectShape(fs) =>
      if !j.JObj? then Failure("Expected object")
      else
        match ParseFields(fs, j.fields)
        case Success(m) => Success(JObj(m))
        case Failure(msg) => Failure(msg)
  }

  function ParseItems(e: Shape, items: seq<Json>): (r: Result<seq<Json>>)
    decreases e, |items| + 1
    ensures r.Success? ==> |r.value| == |items|
  {
    if items == [] then Success([])
    else
      match Parse(e, items[0]) {
        case Failure(msg) => Failure(msg)
        case Success(v) =>
          match ParseItems(e, items[1..]) {
            case Failure(msg) => Failure(msg)
            case Success(vs) => Success([v] + vs)
          }
      }
  }

  /** The declared keys present in `m`, each parsed by its shape; unknown keys are dropped. */
  function ParseFields(fs: Fields, m: map<string, Json>): (r: Result<map<string, Json>>)
    decreases fs, 0
    ensures r.Success? ==> r.value.Keys <= m.Keys * FieldKeys(fs)
  {
    match fs
    case NoFields => Success(map[])
    case Field(k, s, optional, rest) =>
      if k !in m then
        if optional then ParseFields(rest, m) else Failure("Required")
      else
        match Parse(s, m[k]) {
          case Failure(msg) => Failure(msg)
          case Success(v) =>
            match ParseFields(rest, m) {
              case Failure(msg) => Failure(msg)
              case Success(out) => Success(out[k := v])
            }
        }
  }

  // ---------------------------------------------------------------------------
  // Parsing succeeds exactly on conforming values
  // ---------------------------------------------------------------------------

  lemma {:induction false} ParseIffConforms(shape: Shape, j: Json)
    decreases shape, 0
    ensures Parse(shape, j).Success? <==> Conforms(shape, j)
  {
    match shape
    case StringShape =>
    case NumberShape =>
    case ArrayShape(e, n) =>
      if j.JArr? && |j.items| >= n {
        ParseItemsIffConform(e, j.items);
      }
    case ObjectShape(fs) =>
      if j.JObj? {
        ParseFieldsIffConform(fs, j.fields);
      }
  }

  lemma {:induction false} ParseItemsIffConform(e: Shape, items: seq<Json>)
    decreases e, |items| + 1
    ensures ParseItems(e, items).Success? <==> forall i :: 0 <= i < |items| ==> Conforms(e, items[i])
  {
    if items != [] {
      ParseIffConforms(e, items[0]);
      ParseItemsIffConform(e, items[1..]);
      if ParseItems(e, items).Success? {
        forall i | 0 <= i < |items| ensures Conforms(e, items[i]) {
          if i > 0 { assert items[i] == items[1..][i - 1]; }
        }
      } else if Parse(e, items[0]).Success? {
        var i :| 0 <= i < |items[1..]| && !Conforms(e, items[1..][i]);
        assert items[1..][i] == items[i + 1];
      }
    }
  }

  lemma {:induction false} ParseFieldsIffConform(fs: Fields, m: map<string, Json>)
    decreases fs, 0
    ensures ParseFields(fs, m).Success? <==> FieldsConform(fs, m)
  {
    match fs
    case NoFields =>
    case Field(k, s, optional, rest) =>
      ParseFieldsIffConform(rest, m);
      if k in m {
        ParseIffConforms(s, m[k]);
      }
  }

  // ---------------------------------------------------------------------------
  // Parsing is a normalisation: its output parses to itself
  // ---------------------------------------------------------------------------

  lemma {:induction false} ParseIsNormalising(shape: Shape, j: Json)
    requires WellFormed(shape)
    requires Parse(shape, j).Success?
    decreases shape, 0
    ensures Parse(shape, Parse(shape, j).value) == Parse(shape, j)
  {
    match shape
    case StringShape =>
    case NumberShape =>
    case ArrayShape(e, n) =>
      ParseItemsIsNormalising(e, j.items);
    case ObjectShape(fs) =>
      ParseFieldsIsNormalising(fs, j.fields);
  }

  lemma {:induction false} ParseItemsIsNormalising(e: Shape, items: seq<Json>)
    requires WellFormed(e)
    requires ParseItems(e, items).Success?
    decreases e, |items| + 1
    ensures ParseItems(e, ParseItems(e, items).value) == ParseItems(e, items)
  {
    if items != [] {
      var vs := ParseItems(e, items).value;
      ParseIsNormalising(e, items[0]);
      ParseItemsIsNormalising(e, items[1..]);
      assert vs[1..] == ParseItems(e, items[1..]).value;
    }
  }

  /** ParseFields reads `m` only at the declared keys. */
  lemma {:induction false} ParseFieldsReadsDeclaredKeys(fs: Fields, m1: map<string, Json>, m2: map<string, Json>)
    requires forall k :: k in FieldKeys(fs) ==> (k in m1 <==> k in m2)
    requires forall k :: k in FieldKeys(fs) && k in m1 ==> m1[k] == m2[k]
    decreases fs
    ensures ParseFields(fs, m1) == ParseFields(fs, m2)
  {
    match fs
    case NoFields =>
    case Field(k, s, optional, rest) =>
      ParseFieldsReadsDeclaredKeys(rest, m1, m2);
  }

  lemma {:induction false} ParseFieldsIsNormalising(fs: Fields, m: map<string, Json>)
    requires FieldsWellFormed(fs)
    requires ParseFields(fs, m).Success?
    decreases fs, 0
    ensures ParseFields(fs, ParseFields(fs, m).value) == ParseFields(fs, m)
  {
    match fs
    case NoFields =>
    case Field(k, s, optional, rest) =>
      var out := ParseFields(fs, m).value;
      var restOut := ParseFields(rest, m).value;
      ParseFieldsIsNormalising(rest, m);
      if k in m {
        var v := Parse(s, m[k]).value;
        assert out == restOut[k := v];
        ParseIsNormalising(s, m[k]);
        ParseFieldsReadsDeclaredKeys(rest, out, restOut);
      } else {
        assert out == restOut;
      }
  }

  // ---------------------------------------------------------------------------
  // What a successful parse returns: the input, cut down to the declared keys
  // ---------------------------------------------------------------------------

  /** `v` is `j` with every object cut down to the keys its shape declares: leaves are
      kept as they are, arrays element by element, objects keep exactly the declared keys
      that `j` has, each restricted in turn. */
  predicate Restricts(shape: Shape, v: Json, j: Json)
    decreases shape, 0
  {
    match shape
    case StringShape => v == j
    case NumberShape => v == j
    case ArrayShape(e, _) =>
      v.JArr? && j.JArr? && |v.items| == |j.items| &&
      forall i :: 0 <= i < |v.items| ==> Restricts(e, v.items[i], j.items[i])
    case ObjectShape(fs) =>
      v.JObj? && j.JObj? && v.fields.Keys == j.fields.Keys * FieldKeys(fs) &&
      FieldsRestrict(fs, v.fields, j.fields)
  }

  predicate FieldsRestrict(fs: Fields, vm: map<string, Json>, m: map<string, Json>)
    decreases fs, 0
  {
    match fs
    case NoFields => true
    case Field(k, s, _, rest) =>
      (k in vm && k in m ==> Restricts(s, vm[k], m[k])) && FieldsRestrict(rest, vm, m)
  }

  /** FieldsRestrict looks at `vm` only at the declared keys. */
  lemma {:induction false} FieldsRestrictFrame(fs: Fields, vm1: map<string, Json>, vm2: map<string, Json>, m: map<string, Json>)
    requires forall k :: k in FieldKeys(fs) ==> (k in vm1 <==> k in vm2)
    requires forall k :: k in FieldKeys(fs) && k in vm1 ==> vm1[k] == vm2[k]
    requires FieldsRestrict(fs, vm1, m)
    decreases fs
    ensures FieldsRestrict(fs, vm2, m)
  {
    match fs
    case NoFields =>
    case Field(k, s, optional, rest) =>
      FieldsRestrictFrame(rest, vm1, vm2, m);
  }

  /** A successful parse returns its input with the undeclared keys dropped and nothing
      else changed. */
  lemma {:induction false} ParseRestricts(shape: Shape, j: Json)
    requires WellFormed(shape)
    requires Parse(shape, j).Success?
    decreases shape, 0
    ensures Restricts(shape, Parse(shape, j).value, j)
  {
    match shape
    case StringShape =>
    case NumberShape =>
    case ArrayShape(e, n) =>
      ParseItemsRestrict(e, j.items);
    case ObjectShape(fs) =>
      ParseFieldsRestrict(fs, j.fields);
  }

  lemma {:induction false} ParseItemsRestrict(e: Shape, items: seq<Json>)
    requires WellFormed(e)
    requires ParseItems(e, items).Success?
    decreases e, |items| + 1
    ensures var vs := ParseItems(e, items).value;
            forall i :: 0 <= i < |items| ==> Restricts(e, vs[i], items[i])
  {
    if items != [] {
      var vs := ParseItems(e, items).value;
      ParseRestricts(e, items[0]);
      ParseItemsRestrict(e, items[1..]);
      forall i | 0 <= i < |items| ensures Restricts(e, vs[i], items[i]) {
        if i > 0 {
          assert vs[i] == ParseItems(e, items[1..]).value[i - 1];
          assert items[i] == items[1..][i - 1];
        }
      }
    }
  }

  lemma {:induction false} ParseFieldsRestrict(fs: Fields, m: map<string, Json>)
    requires FieldsWellFormed(fs)
    requires ParseFields(fs, m).Success?
    decreases fs, 0
    ensures ParseFields(fs, m).value.Keys == m.Keys * FieldKeys(fs)
    ensures FieldsRestrict(fs, ParseFields(fs, m).value, m)
  {
    match fs
    case NoFields =>
    case Field(k, s, optional, rest) =>
      var out := ParseFields(fs, m).value;
      var restOut := ParseFields(rest, m).value;
      ParseFieldsRestrict(rest, m);
      if k in m {
        assert out == restOut[k := Parse(s, m[k]).value];
        ParseRestricts(s, m[k]);
        FieldsRestrictFrame(rest, restOut, out, m);
      } else {
        assert out == restOut;
      }
  }

  // ---------------------------------------------------------------------------
  // safeValidate
  // ---------------------------------------------------------------------------

  /** `safeValidate(schema, data)`: never throws; success exactly on conforming data, with
      the data cut down to the declared keys, which itself conforms and re-validates to itself. */
  function SafeValidate(shape: Shape, data: Json): (r: Result<Json>)
    ensures r.Success? <==> Conforms(shape, data)
    ensures r.Failure? ==> |r.error| > 0
    ensures WellFormed(shape) && r.Success? ==>
      Restricts(shape, r.value, data) && Conforms(shape, r.value) && Parse(shape, r.value) == r
  {
    ParseIffConforms(shape, data);
    if Parse(shape, data).Success? && WellFormed(shape) then
      ParseRestricts(shape, data);
      ParseIsNormalising(shape, data);
      ParseIffConforms(shape, Parse(shape, data).value);
      Parse(shape, data)
    else
      FailureMessageNonEmpty(shape, data);
      Parse(shape, data)
  }

  lemma {:induction false} FailureMessageNonEmpty(shape: Shape, j: Json)
    decreases shape, 0
    ensures Parse(shape, j).Failure? ==> |Parse(shape, j).error| > 0
  {
    match shape
    case StringShape =>
    case NumberShape =>
    case ArrayShape(e, n) =>
      if j.JArr? && |j.items| >= n { ItemsFailureMessageNonEmpty(e, j.items); }
    case ObjectShape(fs) =>
      if j.JObj? { FieldsFailureMessageNonEmpty(fs, j.fields); }
  }

  lemma {:induction false} ItemsFailureMessageNonEmpty(e: Shape, items: seq<Json>)
    decreases e, |items| + 1
    ensures ParseItems(e, items).Failure? ==> |ParseItems(e, items).error| > 0
  {
    if items != [] {
      FailureMessageNonEmpty(e, items[0]);
      ItemsFailureMessageNonEmpty(e, items[1..]);
    }
  }

  lemma {:induction false} FieldsFailureMessageNonEmpty(fs: Fields, m: map<string, Json>)
    decreases fs, 0
    ensures ParseFields(fs, m).Failure? ==> |ParseFields(fs, m).error| > 0
  {
    match fs
    case NoFields =>
    case Field(k, s, optional, rest) =>
      FieldsFailureMessageNonEmpty(rest, m);
      if k in m { FailureMessageNonEmpty(s, m[k]); }
  }

  /** Re-validating the result of a successful validation succeeds with the same value. */
  lemma RevalidationIsIdentity(shape: Shape, data: Json)
    requires WellFormed(shape) && SafeValidate(shape, data).Success?
    ensures SafeValidate(shape, SafeValidate(shape, data).value) == SafeValidate(shape, data)
  {
  }

  // ---------------------------------------------------------------------------
  // The seven schemas
  // ---------------------------------------------------------------------------

  /** WebSocket ticker: current price, price change and percent change, all strings. */
  const BTCTickerSchema: Shape :=
    ObjectShape(Required("c", StringShape, Required("p", StringShape, Required("P", StringShape, NoFields))))

  /** REST ticker fallback. */
  const BinanceTickerSchema: Shape :=
    ObjectShape(Required("lastPrice", StringShape, Required("priceChange", StringShape,
      Required("priceChangePercent", StringShape, NoFields))))

  const FearGreedEntrySchema: Shape :=
    ObjectShape(Required("value", StringShape, Required("value_classification", StringShape, NoFields)))

  /** At least one entry. */
  const FearGreedSchema: Shape :=
    ObjectShape(Required("data", ArrayShape(FearGreedEntrySchema, 1), NoFields))

  const CoinGeckoMarketSchema: Shape :=
    ObjectShape(Required("id", StringShape, Required("symbol", StringShape, Optional("name", StringShape,
      Required("current_price", NumberShape, Required("price_change_percentage_24h", NumberShape,
        Optional("market_cap", NumberShape, NoFields)))))))

  /** Any number of market records, including none. */
  const CoinGeckoMarketsSchema: Shape := ArrayShape(CoinGeckoMarketSchema, 0)

  const CoinGeckoGlobalSchema: Shape :=
    ObjectShape(Required("data", ObjectShape(Required("market_cap_percentage",
      ObjectShape(Required("btc", NumberShape, Required("eth", NumberShape, NoFields))), NoFields)), NoFields))

  const BybitRatioSchema: Shape :=
    ObjectShape(Required("retCode", NumberShape, Required("result", ObjectShape(Required("list",
      ArrayShape(ObjectShape(Required("buyRatio", StringShape, Required("sellRatio", StringShape, NoFields))), 0),
      NoFields)), NoFields)))

  /** Any number of funding-rate entries, including none. */
  const BinanceFundingRateSchema: Shape :=
    ArrayShape(ObjectShape(Required("fundingRate", StringShape, NoFields)), 0)

  lemma SchemasWellFormed()
    ensures WellFormed(BTCTickerSchema) && WellFormed(BinanceTickerSchema) && WellFormed(FearGreedSchema)
    ensures WellFormed(CoinGeckoMarketSchema) && WellFormed(CoinGeckoMarketsSchema)
    ensures WellFormed(CoinGeckoGlobalSchema) && WellFormed(BybitRatioSchema) && WellFormed(BinanceFundingRateSchema)
  {
    TickerSchemasWellFormed();
    MarketsSchemaWellFormed();
    GlobalSchemaWellFormed();
    PollSchemasWellFormed();
  }

  lemma PollSchemasWellFormed()
    ensures WellFormed(FearGreedSchema) && WellFormed(BybitRatioSchema) && WellFormed(BinanceFundingRateSchema)
  {
  }

  lemma TickerSchemasWellFormed()
    ensures WellFormed(BTCTickerSchema) && WellFormed(BinanceTickerSchema)
  {
  }

  lemma MarketsSchemaWellFormed()
    ensures WellFormed(CoinGeckoMarketSchema) && WellFormed(CoinGeckoMarketsSchema)
  {
  }

  lemma GlobalSchemaWellFormed()
    ensures WellFormed(CoinGeckoGlobalSchema)
  {
  }

  predicate StringAt(j: Json, k: string) {
    j.JObj? && k in j.fields && j.fields[k].JStr?
  }

  predicate NumberAt(j: Json, k: string) {
    j.JObj? && k in j.fields && j.fields[k].JNum?
  }

  lemma BTCTickerSchemaAccepts(j: Json)
    ensures Conforms(BTCTickerSchema, j) <==> StringAt(j, "c") && StringAt(j, "p") && StringAt(j, "P")
    ensures Conforms(BTCTickerSchema, j) ==>
      SafeValidate(BTCTickerSchema, j) == Success(JObj(map["c" := j.fields["c"], "p" := j.fields["p"], "P" := j.fields["P"]]))
  {
    if Conforms(BTCTickerSchema, j) {
      var m := j.fields;
      var f3 := Required("P", StringShape, NoFields);
      var f2 := Required("p", StringShape, f3);
      assert ParseFields(f3, m) == Success(map[][ "P" := m["P"]]);
      assert ParseFields(f2, m) == Success(map[]["P" := m["P"]]["p" := m["p"]]);
      assert ParseFields(Required("c", StringShape, f2), m) == Success(map[]["P" := m["P"]]["p" := m["p"]]["c" := m["c"]]);
      assert map[]["P" := m["P"]]["p" := m["p"]]["c" := m["c"]] == map["c" := m["c"], "p" := m["p"], "P" := m["P"]];
      assert SafeValidate(BTCTickerSchema, j) == Parse(BTCTickerSchema, j);
    }
  }

  lemma BinanceTickerSchemaAccepts(j: Json)
    ensures Conforms(BinanceTickerSchema, j) <==>
      StringAt(j, "lastPrice") && StringAt(j, "priceChange") && StringAt(j, "priceChangePercent")
    ensures Conforms(BinanceTickerSchema, j) ==>
      SafeValidate(BinanceTickerSchema, j) == Success(JObj(map["lastPrice" := j.fields["lastPrice"],
        "priceChange" := j.fields["priceChange"], "priceChangePercent" := j.fields["priceChangePercent"]]))
  {
    if Conforms(BinanceTickerSchema, j) {
      var m := j.fields;
      var f3 := Required("priceChangePercent", StringShape, NoFields);
      var f2 := Required("priceChange", StringShape, f3);
      assert ParseFields(f3, m) == Success(map[]["priceChangePercent" := m["priceChangePercent"]]);
      assert ParseFields(f2, m) == Success(map[]["priceChangePercent" := m["priceChangePercent"]]["priceChange" := m["priceChange"]]);
      assert ParseFields(Required("lastPrice", StringShape, f2), m) ==
        Success(map[]["priceChangePercent" := m["priceChangePercent"]]["priceChange" := m["priceChange"]]["lastPrice" := m["lastPrice"]]);
      assert map[]["priceChangePercent" := m["priceChangePercent"]]["priceChange" := m["priceChange"]]["lastPrice" := m["lastPrice"]]
        == map["lastPrice" := m["lastPrice"], "priceChange" := m["priceChange"], "priceChangePercent" := m["priceChangePercent"]];
      assert SafeValidate(BinanceTickerSchema, j) == Parse(BinanceTickerSchema, j);
    }
  }

  predicate FearGreedEntryOk(j: Json) {
    StringAt(j, "value") && StringAt(j, "value_classification")
  }

  lemma FearGreedSchemaAccepts(j: Json)
    ensures Conforms(FearGreedSchema, j) <==>
      j.JObj? && "data" in j.fields && j.fields["data"].JArr? && |j.fields["data"].items| >= 1 &&
      forall i :: 0 <= i < |j.fields["data"].items| ==> FearGreedEntryOk(j.fields["data"].items[i])
  {
  }

  /** Validation keeps the first entry's two strings and nothing else of it. */
  lemma FearGreedFirstEntry(j: Json)
    requires Conforms(FearGreedSchema, j)
    ensures var v := SafeValidate(FearGreedSchema, j).value;
            var e := j.fields["data"].items[0];
            v.JObj? && "data" in v.fields && v.fields["data"].JArr? && |v.fields["data"].items| >= 1 &&
            v.fields["data"].items[0] ==
              JObj(map["value" := e.fields["value"], "value_classification" := e.fields["value_classification"]])
  {
    var items := j.fields["data"].items;
    var m := items[0].fields;
    var f2 := Required("value_classification", StringShape, NoFields);
    assert ParseFields(f2, m) == Success(map[]["value_classification" := m["value_classification"]]);
    assert ParseFields(Required("value", StringShape, f2), m) ==
      Success(map[]["value_classification" := m["value_classification"]]["value" := m["value"]]);
    assert map[]["value_classification" := m["value_classification"]]["value" := m["value"]] ==
      map["value" := m["value"], "value_classification" := m["value_classification"]];
    var entry := JObj(map["value" := m["value"], "value_classification" := m["value_classification"]]);
    assert Parse(FearGreedEntrySchema, items[0]) == Success(entry);
    ParseItemsIffConform(FearGreedEntrySchema, items);
    var vs := ParseItems(FearGreedEntrySchema, items).value;
    assert vs[0] == entry;
    assert ParseFields(Required("data", ArrayShape(FearGreedEntrySchema, 1), NoFields), j.fields) ==
      Success(map[]["data" := JArr(vs)]);
    assert SafeValidate(FearGreedSchema, j) == Parse(FearGreedSchema, j);
  }

  predicate MarketRecordOk(j: Json) {
    && StringAt(j, "id") && StringAt(j, "symbol")
    && NumberAt(j, "current_price") && NumberAt(j, "price_change_percentage_24h")
    && ("name" in j.fields ==> j.fields["name"].JStr?)
    && ("market_cap" in j.fields ==> j.fields["market_cap"].JNum?)
  }

  lemma MarketRecordSchemaAccepts(j: Json)
    ensures Conforms(CoinGeckoMarketSchema, j) <==> MarketRecordOk(j)
  {
  }

  /** The six keys a market record declares. */
  const MarketRecordKeys: set<string> :=
    {"id", "symbol", "name", "current_price", "price_change_percentage_24h", "market_cap"}

  /** A validated market record is the raw record cut down to the declared keys, with every
      kept value unchanged. */
  lemma MarketRecordRestricted(v: Json, j: Json)
    requires Restricts(CoinGeckoMarketSchema, v, j)
    ensures v.JObj? && j.JObj? && v.fields.Keys == j.fields.Keys * MarketRecordKeys
    ensures forall k :: k in v.fields ==> k in j.fields && v.fields[k] == j.fields[k]
  {
    assert FieldKeys(CoinGeckoMarketSchema.fields) == MarketRecordKeys;
  }

  lemma MarketsSchemaAccepts(j: Json)
    ensures Conforms(CoinGeckoMarketsSchema, j) <==>
      j.JArr? && forall i :: 0 <= i < |j.items| ==> MarketRecordOk(j.items[i])
    ensures SafeValidate(CoinGeckoMarketsSchema, JArr([])) == Success(JArr([]))
  {
    if j.JArr? {
      forall i | 0 <= i < |j.items| ensures Conforms(CoinGeckoMarketSchema, j.items[i]) <==> MarketRecordOk(j.items[i]) {
        MarketRecordSchemaAccepts(j.items[i]);
      }
    }
  }

  predicate GlobalOk(j: Json) {
    && j.JObj? && "data" in j.fields
    && j.fields["data"].JObj? && "market_cap_percentage" in j.fields["data"].fields
    && NumberAt(j.fields["data"].fields["market_cap_percentage"], "btc")
    && NumberAt(j.fields["data"].fields["market_cap_percentage"], "eth")
  }

  lemma GlobalSchemaAccepts(j: Json)
    ensures Conforms(CoinGeckoGlobalSchema, j) <==> GlobalOk(j)
  {
  }

  /** A validated global payload carries the raw payload's btc and eth shares. */
  lemma GlobalRestricted(v: Json, j: Json)
    requires Restricts(CoinGeckoGlobalSchema, v, j)
    requires GlobalOk(v) && GlobalOk(j)
    ensures v.fields["data"].fields["market_cap_percentage"].fields["btc"] ==
            j.fields["data"].fields["market_cap_percentage"].fields["btc"]
    ensures v.fields["data"].fields["market_cap_percentage"].fields["eth"] ==
            j.fields["data"].fields["market_cap_percentage"].fields["eth"]
  {
    var shares := ObjectShape(Required("btc", NumberShape, Required("eth", NumberShape, NoFields)));
    var pct := Required("market_cap_percentage", shares, NoFields);
    assert FieldsRestrict(Required("data", ObjectShape(pct), NoFields), v.fields, j.fields);
    assert Restricts(ObjectShape(pct), v.fields["data"], j.fields["data"]);
    assert Restricts(shares, v.fields["data"].fields["market_cap_percentage"], j.fields["data"].fields["market_cap_percentage"]);
  }

  predicate RatioEntryOk(j: Json) {
    StringAt(j, "buyRatio") && StringAt(j, "sellRatio")
  }

  lemma BybitRatioSchemaAccepts(j: Json)
    ensures Conforms(BybitRatioSchema, j) <==>
      && NumberAt(j, "retCode") && "result" in j.fields
      && j.fields["result"].JObj? && "list" in j.fields["result"].fields
      && j.fields["result"].fields["list"].JArr?
      && forall i :: 0 <= i < |j.fields["result"].fields["list"].items| ==>
           RatioEntryOk(j.fields["result"].fields["list"].items[i])
  {
  }

  lemma FundingRateSchemaAccepts(j: Json)
    ensures Conforms(BinanceFundingRateSchema, j) <==>
      j.JArr? && forall i :: 0 <= i < |j.items| ==> StringAt(j.items[i], "fundingRate")
    ensures SafeValidate(BinanceFundingRateSchema, JArr([])) == Success(JArr([]))
    ensures Conforms(BinanceFundingRateSchema, j) ==>
      var v := SafeValidate(BinanceFundingRateSchema, j).value;
      v.JArr? && |v.items| == |j.items| &&
      (|j.items| > 0 ==> v.items[0] == JObj(map["fundingRate" := j.items[0].fields["fundingRate"]]))
  {
    if Conforms(BinanceFundingRateSchema, j) && |j.items| > 0 {
      var e := ObjectShape(Required("fundingRate", StringShape, NoFields));
      assert SafeValidate(BinanceFundingRateSchema, j) == Parse(BinanceFundingRateSchema, j);
      ParseIffConforms(e, j.items[0]);
      var m := j.items[0].fields;
      assert ParseFields(Required("fundingRate", StringShape, NoFields), m) == Success(map[]["fundingRate" := m["fundingRate"]]);
      assert Parse(e, j.items[0]) == Success(JObj(map["fundingRate" := m["fundingRate"]]));
    }
  }
}
