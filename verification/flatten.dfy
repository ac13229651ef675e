/** The order flattener of `flatten.py`: it walks decoded JSON orders along
    key/index paths and fans each order out into one flat record per leg. */
module Flatten {
  import opened Common

  // ---------------------------------------------------------------------------
  // Values

  /** A decoded JSON value. Python's `None` is `JNull`; objects are maps from
      their (string) keys. */
  datatype Json =
    | JNull
    | JBool(b: bool)
    | JInt(i: int)
    | JFloat(f: real)
    | JStr(s: string)
    | JArray(items: seq<Json>)
    | JObject(fields: map<string, Json>)

  /** One component of a path: a dictionary key or a list index. */
  datatype PathKey = Name(name: string) | Index(index: int)

  /** Values a `{name}` component can be bound to. */
  type Context = map<string, PathKey>

  /** A flat record: field name to extracted value. */
  type Record = map<string, Json>

  /** The exceptions `flatten_trade_with_mapping` lets escape. */
  datatype Raised = AttributeError | TypeError

  datatype Result<T> = Ok(value: T) | Err(error: Raised)

  // ---------------------------------------------------------------------------
  // Placeholders

  /** `key.startswith("{") and key.endswith("}")`. */
  predicate IsPlaceholder(key: string) {
    |key| > 0 && key[0] == '{' && key[|key| - 1] == '}'
  }

  predicate IsBrace(c: char) { c == '{' || c == '}' }

  /** Leading half of `str.strip("{}")`. */
  function StripLeft(s: string): (r: string)
    ensures |r| <= |s| && r == s[|s| - |r|..]
    ensures forall k :: 0 <= k < |s| - |r| ==> IsBrace(s[k])
    ensures r != [] ==> !IsBrace(r[0])
  {
    if s != [] && IsBrace(s[0]) then StripLeft(s[1..]) else s
  }

  /** Trailing half of `str.strip("{}")`. */
  function StripRight(s: string): (r: string)
    ensures |r| <= |s| && r == s[..|r|]
    ensures forall k :: |r| <= k < |s| ==> IsBrace(s[k])
    ensures r != [] ==> !IsBrace(r[|r| - 1])
  {
    if s != [] && IsBrace(s[|s| - 1]) then StripRight(s[..|s| - 1]) else s
  }

  /** `key.strip("{}")`: the name inside a placeholder. */
  function StripBraces(s: string): (r: string)
    ensures r != [] ==> !IsBrace(r[0]) && !IsBrace(r[|r| - 1])
  {
    StripRight(StripLeft(s))
  }

  /** The braces of `{leg}` come off and only them. */
  lemma StripLeg()
    ensures StripBraces("{leg}") == "leg"
  {
    StripLeftLeg();
    StripRightLeg();
  }

  lemma StripLeftLeg()
    ensures StripLeft("{leg}") == "leg}"
  {
    assert "{leg}"[1..] == "leg}";
    assert StripLeft("leg}") == "leg}";
  }

  lemma StripRightLeg()
    ensures StripRight("leg}") == "leg"
  {
    assert "leg}"[..3] == "leg";
    assert StripRight("leg") == "leg";
  }

  /** The key actually used for one step: a placeholder is replaced by its
      binding in the context, and by `None` when the name is unbound. */
  function Resolve(key: PathKey, ctx: Context): (r: Option<PathKey>)
    ensures !(key.Name? && IsPlaceholder(key.name)) ==> r == Some(key)
    ensures key.Name? && IsPlaceholder(key.name) ==>
      r == Get(ctx, StripBraces(key.name))
  {
    match key
    case Name(n) => if IsPlaceholder(n) then Get(ctx, StripBraces(n)) else Some(key)
    case Index(_) => Some(key)
  }

  /** Python's sequence index rule: `-len <= i < len`, negatives from the end. */
  function Position(i: int, len: nat): (r: Option<nat>)
    ensures r.Some? <==> -(len as int) <= i < len
    ensures r.Some? ==> r.value < len
    ensures 0 <= i < len ==> r == Some(i)
    ensures -(len as int) <= i < 0 ==> r == Some(len + i)
  {
    var n := len as int;
    if 0 <= i < n then Some(i)
    else if -n <= i < 0 then Some(n + i)
    else None
  }

  /** `obj[key]`, with KeyError, IndexError and TypeError all mapped to `None`:
      objects are indexed by name, lists and strings by position (a string
      yields a one-character string), and nothing else can be indexed. */
  function Lookup(obj: Json, key: Option<PathKey>): (r: Option<Json>)
    ensures key.None? ==> r.None?
    ensures r.Some? ==> obj.JObject? || obj.JArray? || obj.JStr?
    ensures obj.JObject? && key.Some? && key.value.Name? ==>
      r == Get(obj.fields, key.value.name)
    ensures obj.JObject? && key.Some? && key.value.Index? ==> r.None?
    ensures (obj.JArray? || obj.JStr?) && key.Some? && key.value.Name? ==> r.None?
    ensures obj.JArray? && key.Some? && key.value.Index? ==>
      var i := key.value.index; var n := |obj.items|;
      && (0 <= i < n ==> r == Some(obj.items[i]))
      && (-n <= i < 0 ==> r == Some(obj.items[n + i]))
      && (i < -n || n <= i ==> r.None?)
    ensures obj.JStr? && key.Some? && key.value.Index? ==>
      var i := key.value.index; var n := |obj.s|;
      && (0 <= i < n ==> r == Some(JStr([obj.s[i]])))
      && (-n <= i < 0 ==> r == Some(JStr([obj.s[n + i]])))
      && (i < -n || n <= i ==> r.None?)
  {
    match key
    case None => None
    case Some(k) =>
      match obj
      case JObject(m) => if k.Name? then Get(m, k.name) else None
      case JArray(xs) =>
        if k.Index? && Position(k.index, |xs|).Some? then Some(xs[Position(k.index, |xs|).value]) else None
      case JStr(s) =>
        if k.Index? && Position(k.index, |s|).Some? then Some(JStr([s[Position(k.index, |s|).value]])) else None
      case _ => None
  }

  // ---------------------------------------------------------------------------
  // extract_nested_value

  /** Following `path` from `obj`, resolving placeholders in `ctx`; `None`
      as soon as one step fails. */
  function Walk(obj: Json, path: seq<PathKey>, ctx: Context): Option<Json>
    decreases |path|
  {
    if path == [] then Some(obj)
    else
      match Lookup(obj, Resolve(path[0], ctx))
      case None => None
      case Some(next) => Walk(next, path[1..], ctx)
  }

  /** Walking a path in two pieces is walking it whole. */
  lemma {:induction false} WalkAppend(obj: Json, p: seq<PathKey>, q: seq<PathKey>, ctx: Context)
    ensures Walk(obj, p + q, ctx) ==
      match Walk(obj, p, ctx)
      case None => None
      case Some(mid) => Walk(mid, q, ctx)
    decreases |p|
  {
    if p == [] {
      assert p + q == q;
    } else {
      assert (p + q)[0] == p[0];
      assert (p + q)[1..] == p[1..] + q;
      match Lookup(obj, Resolve(p[0], ctx))
      case None =>
      case Some(next) => WalkAppend(next, p[1..], q, ctx);
    }
  }

  /** A path with a placeholder whose name the context does not bind never
      yields a value, wherever that placeholder sits. */
  lemma {:induction false} UnboundPlaceholderMisses(obj: Json, path: seq<PathKey>, ctx: Context, i: nat)
    requires i < |path| && path[i].Name? && IsPlaceholder(path[i].name)
    requires StripBraces(path[i].name) !in ctx
    ensures Walk(obj, path, ctx) == None
    decreases i
  {
    if i > 0 {
      match Lookup(obj, Resolve(path[0], ctx))
      case None =>
      case Some(next) =>
        assert path[1..][i - 1] == path[i];
        UnboundPlaceholderMisses(next, path[1..], ctx, i - 1);
    }
  }

  /** A path without placeholders reads the same value whatever the context,
      so fields such as the order id repeat unchanged on every leg. */
  lemma {:induction false} PlainPathIgnoresContext(obj: Json, path: seq<PathKey>, c1: Context, c2: Context)
    requires forall k :: 0 <= k < |path| ==> !(path[k].Name? && IsPlaceholder(path[k].name))
    ensures Walk(obj, path, c1) == Walk(obj, path, c2)
    decreases |path|
  {
    if path != [] {
      assert Resolve(path[0], c1) == Resolve(path[0], c2);
      match Lookup(obj, Resolve(path[0], c1))
      case None =>
      case Some(next) =>
        assert forall k :: 0 <= k < |path[1..]| ==> path[1..][k] == path[k + 1];
        PlainPathIgnoresContext(next, path[1..], c1, c2);
    }
  }

  /** `extract_nested_value`: the value at the end of `path`, or `JNull`
      (Python's `None`) when a step fails. A missing or empty context binds
      nothing. */
  method ExtractNestedValue(obj: Json, path: seq<PathKey>, context: Option<Context>) returns (r: Json)
    ensures r == Walk(obj, path, context.GetOr(map[])).GetOr(JNull)
    ensures path == [] ==> r == obj
  {
    var ctx := context.GetOr(map[]);
    var current := obj;
    var i := 0;
    while i < |path|
      invariant 0 <= i <= |path|
      invariant Walk(obj, path, ctx) == Walk(current, path[i..], ctx)
    {
      assert path[i..][0] == path[i] && path[i..][1..] == path[i + 1..];
      var key := Resolve(path[i], ctx);
      var next := Lookup(current, key);
      if next == None {
        return JNull;
      }
      current := next.value;
      i := i + 1;
    }
    assert path[i..] == [];
    return current;
  }

  // ---------------------------------------------------------------------------
  // extract_and_append

  /** The context `{"leg": leg_index}`. */
  function LegContext(leg: nat): Context {
    map["leg" := Index(leg)]
  }

  /** Under a leg's context the `{leg}` component reads that leg's index. */
  lemma LegPlaceholderIsLegIndex(leg: nat)
    ensures Resolve(Name("{leg}"), LegContext(leg)) == Some(Index(leg))
  {
    StripLeg();
  }

  /** The record `extract_and_append` builds for one leg. */
  function ExtractFields(trade: Json, mapping: map<string, seq<PathKey>>, leg: nat): (r: Record)
    ensures r.Keys == mapping.Keys
  {
    map k | k in mapping :: Walk(trade, mapping[k], LegContext(leg)).GetOr(JNull)
  }

  /** `extract_and_append`: one field per mapping entry, each extracted with
      `leg` bound to the leg index. */
  method ExtractAndAppend(trade: Json, mapping: map<string, seq<PathKey>>, leg: nat) returns (flat: Record)
    ensures flat == ExtractFields(trade, mapping, leg)
    ensures flat.Keys == mapping.Keys
    ensures forall k :: k in mapping ==>
      flat[k] == Walk(trade, mapping[k], LegContext(leg)).GetOr(JNull)
  {
    flat := map[];
    var todo := mapping.Keys;
    while todo != {}
      invariant todo <= mapping.Keys
      invariant flat.Keys == mapping.Keys - todo
      invariant forall k :: k in flat ==> flat[k] == Walk(trade, mapping[k], LegContext(leg)).GetOr(JNull)
      decreases |todo|
    {
      var key :| key in todo;
      var value := ExtractNestedValue(trade, mapping[key], Some(LegContext(leg)));
      flat := flat[key := value];
      todo := todo - {key};
    }
    assert flat == ExtractFields(trade, mapping, leg);
  }

  // ---------------------------------------------------------------------------
  // flatten_trade_with_mapping

  /** `trade.get("orderLegCollection", [])`; only a dictionary has `.get`. */
  function Legs(trade: Json): (r: Result<Json>)
    ensures !trade.JObject? <==> r == Err(AttributeError)
    ensures trade.JObject? && "orderLegCollection" !in trade.fields ==> r == Ok(JArray([]))
    ensures trade.JObject? && "orderLegCollection" in trade.fields ==>
      r == Ok(trade.fields["orderLegCollection"])
  {
    match trade
    case JObject(m) => Ok(if "orderLegCollection" in m then m["orderLegCollection"] else JArray([]))
    case _ => Err(AttributeError)
  }

  /** `len(value)`: lists, dictionaries and strings have a length. */
  function Length(value: Json): (r: Result<nat>)
    ensures r.Err? <==> !(value.JArray? || value.JObject? || value.JStr?)
    ensures r.Err? ==> r.error == TypeError
    ensures value.JArray? ==> r == Ok(|value.items|)
  {
    match value
    case JArray(xs) => Ok(|xs|)
    case JObject(m) => Ok(|m|)
    case JStr(s) => Ok(|s|)
    case _ => Err(TypeError)
  }

  /** The number of legs of `trade`, or the exception computing it raises. */
  function LegCount(trade: Json): Result<nat> {
    match Legs(trade)
    case Err(e) => Err(e)
    case Ok(legs) => Length(legs)
  }

  /** One leg's record, tagged with `multi_leg`. */
  function LegRecord(trade: Json, mapping: map<string, seq<PathKey>>, leg: nat, count: nat): Record {
    ExtractFields(trade, mapping, leg)["multi_leg" := JBool(count > 1)]
  }

  /** What `flatten_trade_with_mapping` returns: one record per leg index, in
      order, each with the mapping's fields and `multi_leg`. */
  function FlattenTrade(trade: Json, mapping: map<string, seq<PathKey>>): Result<seq<Record>> {
    match LegCount(trade)
    case Err(e) => Err(e)
    case Ok(n) => Ok(seq(n, i requires 0 <= i < n => LegRecord(trade, mapping, i, n)))
  }

  /** The exception computing the leg count propagates; otherwise there is
      one record per leg index, in order, holding exactly the mapping's
      fields plus `multi_leg`, which is set exactly when there are several
      legs, and each field is its path's extraction for that leg. */
  lemma FlattenTradeShape(trade: Json, mapping: map<string, seq<PathKey>>)
    ensures LegCount(trade).Err? ==> FlattenTrade(trade, mapping) == Err(LegCount(trade).error)
    ensures LegCount(trade).Ok? ==>
      var n := LegCount(trade).value;
      var r := FlattenTrade(trade, mapping);
      && r.Ok? && |r.value| == n
      && forall i :: 0 <= i < n ==>
        && r.value[i].Keys == mapping.Keys + {"multi_leg"}
        && r.value[i]["multi_leg"] == JBool(n > 1)
        && forall k :: k in mapping && k != "multi_leg" ==>
             r.value[i][k] == Walk(trade, mapping[k], LegContext(i)).GetOr(JNull)
  {
    if LegCount(trade).Ok? {
      var n := LegCount(trade).value;
      var records := FlattenTrade(trade, mapping).value;
      forall i | 0 <= i < n
        ensures records[i].Keys == mapping.Keys + {"multi_leg"}
        ensures forall k :: k in mapping && k != "multi_leg" ==>
          records[i][k] == Walk(trade, mapping[k], LegContext(i)).GetOr(JNull)
      {
        assert records[i] == LegRecord(trade, mapping, i, n);
      }
    }
  }

  /** An order without `orderLegCollection` flattens to no records. */
  lemma NoLegsNoRecords(trade: Json, mapping: map<string, seq<PathKey>>)
    requires trade.JObject? && "orderLegCollection" !in trade.fields
    ensures FlattenTrade(trade, mapping) == Ok([])
  {
    assert Legs(trade) == Ok(JArray([]));
    assert LegCount(trade) == Ok(0);
    assert FlattenTrade(trade, mapping).value == [];
  }

  /** `flatten_trade_with_mapping`. */
  method FlattenTradeWithMapping(trade: Json, mapping: map<string, seq<PathKey>>)
    returns (r: Result<seq<Record>>)
    ensures r == FlattenTrade(trade, mapping)
  {
    var legs := Legs(trade);
    if legs.Err? {
      return Err(legs.error);
    }
    var count := Length(legs.value);
    if count.Err? {
      return Err(count.error);
    }
    var n := count.value;
    var results: seq<Record> := [];
    var i := 0;
    while i < n
      invariant 0 <= i <= n
      invariant |results| == i
      invariant forall j :: 0 <= j < i ==> results[j] == LegRecord(trade, mapping, j, n)
    {
      var flat := ExtractAndAppend(trade, mapping, i);
      flat := flat["multi_leg" := JBool(n > 1)];
      results := results + [flat];
      i := i + 1;
    }
    assert results == seq(n, j requires 0 <= j < n => LegRecord(trade, mapping, j, n));
    return Ok(results);
  }

  // ---------------------------------------------------------------------------
  // flatten_data, flatten_dataset

  /** The field paths `flatten_data` extracts from a broker order. */
  function OrderMapping(): map<string, seq<PathKey>> {
    map[
      "symbol" := [Name("orderLegCollection"), Name("{leg}"), Name("instrument"), Name("symbol")],
      "underlying" := [Name("orderLegCollection"), Name("{leg}"), Name("instrument"), Name("underlyingSymbol")],
      "instruction" := [Name("orderLegCollection"), Name("{leg}"), Name("instruction")],
      "qty" := [Name("orderLegCollection"), Name("{leg}"), Name("quantity")],
      "price" := [Name("orderActivityCollection"), Index(0), Name("executionLegs"), Name("{leg}"), Name("price")],
      "order_id" := [Name("orderId")],
      "time" := [Name("orderActivityCollection"), Index(0), Name("executionLegs"), Name("{leg}"), Name("time")]
    ]
  }

  /** `flatten_data`: `flatten_trade_with_mapping` with the order mapping. */
  method FlattenData(trade: Json) returns (r: Result<seq<Record>>)
    ensures r == FlattenTrade(trade, OrderMapping())
  {
    r := FlattenTradeWithMapping(trade, OrderMapping());
  }

  /** Records of one part followed by records of the next; the first
      exception wins. */
  function Then(x: Result<seq<Record>>, y: Result<seq<Record>>): Result<seq<Record>> {
    match x
    case Err(e) => Err(e)
    case Ok(a) =>
      match y
      case Err(e) => Err(e)
      case Ok(b) => Ok(a + b)
  }

  lemma ThenAssociative(x: Result<seq<Record>>, y: Result<seq<Record>>, z: Result<seq<Record>>)
    ensures Then(Then(x, y), z) == Then(x, Then(y, z))
  {
    if x.Ok? && y.Ok? && z.Ok? {
      assert (x.value + y.value) + z.value == x.value + (y.value + z.value);
    }
  }

  /** The records of all `trades`, in order, or the first exception raised. */
  function FlattenAll(trades: seq<Json>): Result<seq<Record>>
    decreases |trades|
  {
    if trades == [] then Ok([])
    else Then(FlattenTrade(trades[0], OrderMapping()), FlattenAll(trades[1..]))
  }

  /** Flattening two lists of orders one after the other is flattening them
      concatenated; an exception in the first list stops everything. */
  lemma {:induction false} FlattenAllAppend(a: seq<Json>, b: seq<Json>)
    ensures FlattenAll(a + b) == Then(FlattenAll(a), FlattenAll(b))
    decreases |a|
  {
    if a == [] {
      assert a + b == b;
      if FlattenAll(b).Ok? {
        assert [] + FlattenAll(b).value == FlattenAll(b).value;
      }
    } else {
      assert (a + b)[0] == a[0];
      assert (a + b)[1..] == a[1..] + b;
      FlattenAllAppend(a[1..], b);
      ThenAssociative(FlattenTrade(a[0], OrderMapping()), FlattenAll(a[1..]), FlattenAll(b));
    }
  }

  /** The total number of legs over `trades`, when every order has a length. */
  function TotalLegs(trades: seq<Json>): Option<nat>
    decreases |trades|
  {
    if trades == [] then Some(0)
    else
      match LegCount(trades[0])
      case Err(_) => None
      case Ok(n) =>
        match TotalLegs(trades[1..])
        case None => None
        case Some(m) => Some(n + m)
  }

  /** `flatten_dataset` fails exactly when some order's legs cannot be
      counted, and otherwise yields exactly one record per leg. */
  lemma {:induction false} FlattenAllCount(trades: seq<Json>)
    ensures FlattenAll(trades).Ok? <==> TotalLegs(trades).Some?
    ensures FlattenAll(trades).Ok? ==> |FlattenAll(trades).value| == TotalLegs(trades).value
    decreases |trades|
  {
    if trades != [] {
      FlattenAllCount(trades[1..]);
    }
  }

  /** `flatten_dataset`: every order's records, in order. */
  method FlattenDataset(trades: seq<Json>) returns (r: Result<seq<Record>>)
    ensures r == FlattenAll(trades)
  {
    var records: seq<Record> := [];
    var i := 0;
    while i < |trades|
      invariant 0 <= i <= |trades|
      invariant FlattenAll(trades[..i]) == Ok(records)
    {
      var legs := FlattenData(trades[i]);
      FlattenAllAppend(trades[..i], [trades[i]]);
      assert trades[..i + 1] == trades[..i] + [trades[i]];
      assert [trades[i]][1..] == [];
      if legs.Err? {
        FlattenAllAppend(trades[..i + 1], trades[i + 1..]);
        assert trades[..i + 1] + trades[i + 1..] == trades;
        return Err(legs.error);
      }
      assert legs.value + [] == legs.value;
      records := records + legs.value;
      i := i + 1;
    }
    assert trades[..i] == trades;
    return Ok(records);
  }
}
