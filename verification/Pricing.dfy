/** The price of a request under a routing rule: exact arithmetic, rounded up into 64 bits. */
module Pricing {
  import opened Httpx
  import opened Strings
  import opened Json
  import opened Decimals
  import opened Pointers

  datatype Rule = Rule(taskType: string, model: string, pointer: string, multiplier: string, unit: string,
                       maxInput: int64, maxOutput: int64)

  const MAX_INPUT: int64 := 33_554_432
  const MAX_OUTPUT: int64 := 1_000_000

  /** big.Rat.SetString: it reads decimals exactly, and other notations in ways left open here. */
  type Reader = string -> Option<real>

  ghost predicate ReadsDecimals(rat: Reader) {
    forall s :: ParseDecimal(s).Some? ==> rat(s) == Some(Value(ParseDecimal(s).value))
  }

  /** The bounds that validated rules keep. */
  predicate Bounded(r: Rule) {
    r.maxInput <= MAX_INPUT && 0 <= r.maxOutput <= MAX_OUTPUT
  }

  // ---------- reading a request ----------

  function NumberString(v: Json): string {
    match v
    case Num(text) => text
    case Str(s) => s
    case _ => ""
  }

  function PositiveInteger(v: Json): (r: Option<int64>)
    ensures r.Some? ==> r.value > 0
  {
    match ParseInt(NumberString(v))
    case Some(n) => if n > 0 then Some(n as int64) else None
    case None => None
  }

  // ---------- what a quote consists of ----------

  function PriceText(pricing: Json, pointer: string): Option<string> {
    match Lookup(Normalized(pricing), Parts(pointer))
    case Num(text) => Some(text)
    case Str(s) => Some(s)
    case _ => None
  }

  function Rate(rat: Reader, pricing: Option<Json>, pointer: string): (r: Result<real>)
    ensures r.Ok? ==> r.value >= 0.0
  {
    if pricing.None? then Err(Error(502, PRICING_UNAVAILABLE))
    else
      match PriceText(pricing.value, pointer)
      case None => Err(Error(503, PRICING_NOT_CONFIGURED))
      case Some(price) =>
        if ParseDecimal(price).None? || rat(price).None? || rat(price).value < 0.0
        then Err(Error(502, PRICING_UNAVAILABLE)) else Ok(rat(price).value)
  }

  function Factor(rat: Reader, r: Rule): (f: Result<real>)
    ensures f.Ok? ==> f.value > 0.0
  {
    if rat(r.multiplier).None? || rat(r.multiplier).value <= 0.0
    then Err(Error(503, PRICING_NOT_CONFIGURED)) else Ok(rat(r.multiplier).value)
  }

  /** The `n` under `parameters`, when there is one, takes the place of the top-level one. */
  function Count(payload: Object): (r: Result<int64>)
    ensures r.Ok? ==> 1 <= r.value <= 10
  {
    var top := if "n" in payload then PositiveInteger(payload["n"]) else Some(1);
    if top.None? || top.value > 10 then Err(Invalid())
    else if "parameters" in payload && payload["parameters"].Obj? && "n" in payload["parameters"].fields then
      var n := PositiveInteger(payload["parameters"].fields["n"]);
      if n.None? || n.value > 10 then Err(Invalid()) else Ok(n.value)
    else Ok(top.value)
  }

  /** The number of output tokens a chat may produce. */
  function OutputCap(r: Rule, payload: Object): (cap: Result<int64>)
    ensures cap.Ok? ==> 0 <= cap.value && (r.maxOutput >= 0 ==> cap.value <= r.maxOutput)
  {
    if r.taskType != "chat" then Ok(0)
    else if r.maxOutput <= 0 then Err(Error(503, PRICING_NOT_CONFIGURED))
    else if "max_tokens" in payload && "max_completion_tokens" in payload then Err(Invalid())
    else if "max_tokens" in payload then Capped(r, payload["max_tokens"])
    else if "max_completion_tokens" in payload then Capped(r, payload["max_completion_tokens"])
    else Ok(r.maxOutput)
  }

  function Capped(r: Rule, v: Json): Result<int64> {
    var n := PositiveInteger(v);
    if n.None? || n.value > r.maxOutput then Err(Invalid()) else Ok(n.value)
  }

  /** A chat in text alone: only then do its bytes bound its tokens. */
  predicate TextOnly(payload: Object) {
    && ("modalities" in payload ==> payload["modalities"] == Arr([Str("text")]))
    && ("messages" in payload && payload["messages"].Arr? ==>
          forall i :: 0 <= i < |payload["messages"].items| ==> TextMessage(payload["messages"].items[i]))
  }

  predicate TextMessage(m: Json) {
    m.Obj? ==> "content" in m.fields && m.fields["content"].Str?
  }

  function Scaled(count: int, each: real): (units: real)
    ensures count >= 1 && each >= 0.0 ==> units >= 0.0
  {
    count as real * each
  }

  function Units(rat: Reader, r: Rule, payload: Object, size: int, count: int, output: int): Result<real> {
    match r.unit
    case "token" =>
      if r.taskType !in {"chat", "embedding", "rerank"} || (r.taskType == "chat" && !TextOnly(payload))
      then Err(Error(503, PRICING_NOT_CONFIGURED))
      else Ok(Scaled(count, (size + output) as real))
    case "character" =>
      if "input" in payload && payload["input"].Str?
      then Ok(Scaled(count, |payload["input"].s| as real)) else Err(Invalid())
    case "second" =>
      if "duration" !in payload then Err(Invalid())
      else
        var d := rat(NumberString(payload["duration"]));
        if d.None? || d.value <= 0.0 || d.value > 3600.0 then Err(Invalid()) else Ok(Scaled(count, d.value))
    case "image" => Ok(Scaled(count, 1.0))
    case "request" => Ok(Scaled(count, 1.0))
    case _ => Err(Error(503, PRICING_NOT_CONFIGURED))
  }

  function Ceiling(x: real): int {
    if x.Floor as real == x then x.Floor else x.Floor + 1
  }

  function Cost(rate: real, factor: real, units: real): (cost: real)
    ensures rate >= 0.0 && factor > 0.0 && units >= 0.0 ==> cost >= 0.0
  {
    var perUnit := rate * factor;
    assert rate >= 0.0 && factor > 0.0 ==> perUnit >= 0.0;
    perUnit * units
  }

  function Rounded(cost: real): Result<int64> {
    var n := Ceiling(cost);
    if MIN_INT64 <= n <= MAX_INT64 then Ok(n as int64) else Err(Invalid())
  }

  function UnitsOf(rat: Reader, r: Rule, payload: Object, size: int64): Result<real> {
    match Count(payload)
    case Err(e) => Err(e)
    case Ok(count) =>
      match OutputCap(r, payload)
      case Err(e) => Err(e)
      case Ok(output) => Units(rat, r, payload, size as int, count as int, output as int)
  }

  function Total(rate: Result<real>, factor: Result<real>, units: Result<real>): Result<int64> {
    match (rate, factor, units)
    case (Err(e), _, _) => Err(e)
    case (_, Err(e), _) => Err(e)
    case (_, _, Err(e)) => Err(e)
    case (Ok(x), Ok(y), Ok(z)) => Rounded(Cost(x, y, z))
  }

  /** The quote, or the first obstacle to it. */
  function Quoted(rat: Reader, pricing: Option<Json>, r: Rule, payload: Object, size: int64): Result<int64> {
    if size > r.maxInput then Err(Invalid())
    else Total(Rate(rat, pricing, r.pointer), Factor(rat, r), UnitsOf(rat, r, payload, size))
  }

  // ---------- the code ----------

  method ReadCount(payload: Object) returns (r: Result<int64>)
    ensures r == Count(payload)
  {
    var count: int64 := 1;
    if "n" in payload {
      var n := PositiveInteger(payload["n"]);
      if n.None? || n.value > 10 {
        return Err(Invalid());
      }
      count := n.value;
    }
    if "parameters" in payload && payload["parameters"].Obj? {
      var params := payload["parameters"].fields;
      if "n" in params {
        var c := PositiveInteger(params["n"]);
        if c.None? || c.value > 10 {
          return Err(Invalid());
        }
        count := c.value;
      }
    }
    return Ok(count);
  }

  method CapOutput(r: Rule, payload: Object) returns (cap: Result<int64>)
    ensures cap == OutputCap(r, payload)
  {
    var output: int64 := 0;
    if r.taskType == "chat" {
      if r.maxOutput <= 0 {
        return Err(Error(503, PRICING_NOT_CONFIGURED));
      }
      output := r.maxOutput;
      if "max_tokens" in payload && "max_completion_tokens" in payload {
        return Err(Invalid());
      }
      var keys := ["max_tokens", "max_completion_tokens"];
      for i := 0 to 2
        invariant if i > 0 && "max_tokens" in payload then Capped(r, payload["max_tokens"]) == Ok(output)
                  else if i > 1 && "max_completion_tokens" in payload
                  then Capped(r, payload["max_completion_tokens"]) == Ok(output)
                  else output == r.maxOutput
      {
        if keys[i] in payload {
          var n := PositiveInteger(payload[keys[i]]);
          if n.None? || n.value > r.maxOutput {
            return Err(Invalid());
          }
          output := n.value;
        }
      }
    }
    return Ok(output);
  }

  method OnlyText(payload: Object) returns (ok: bool)
    ensures ok == TextOnly(payload)
  {
    if "modalities" in payload && payload["modalities"] != Arr([Str("text")]) {
      return false;
    }
    if "messages" in payload && payload["messages"].Arr? {
      var messages := payload["messages"].items;
      for i := 0 to |messages|
        invariant forall j :: 0 <= j < i ==> TextMessage(messages[j])
      {
        var m := messages[i];
        if m.Obj? && !("content" in m.fields && m.fields["content"].Str?) {
          return false;
        }
      }
    }
    return true;
  }

  method ReadRate(rat: Reader, pricing: Option<Json>, pointer: string) returns (r: Result<real>)
    ensures r == Rate(rat, pricing, pointer)
  {
    if pricing.None? {
      return Err(Error(502, PRICING_UNAVAILABLE));
    }
    var doc := NormalizePricing(pricing.value);
    var v := Resolve(doc, pointer);
    var price := "";
    match v {
      case Num(text) =>
        price := text;
      case Str(s) =>
        price := s;
      case _ =>
        return Err(Error(503, PRICING_NOT_CONFIGURED));
    }
    if ParseDecimal(price).None? {
      return Err(Error(502, PRICING_UNAVAILABLE));
    }
    var rate := rat(price);
    if rate.None? || rate.value < 0.0 {
      return Err(Error(502, PRICING_UNAVAILABLE));
    }
    return Ok(rate.value);
  }

  method CountUnits(rat: Reader, r: Rule, payload: Object, size: int64, count: int64, output: int64)
    returns (u: Result<real>)
    requires 0 <= size <= MAX_INPUT && 0 <= output <= MAX_OUTPUT
    ensures u == Units(rat, r, payload, size as int, count as int, output as int)
  {
    assert count as real == (count as int) as real;
    var units := count as real;
    match r.unit {
      case "token" =>
        if r.taskType != "chat" && r.taskType != "embedding" && r.taskType != "rerank" {
          return Err(Error(503, PRICING_NOT_CONFIGURED));
        }
        if r.taskType == "chat" {
          var text := OnlyText(payload);
          if !text {
            return Err(Error(503, PRICING_NOT_CONFIGURED));
          }
        }
        var bytes := size + output;  // in 64 bits
        assert bytes as real == (size as int + output as int) as real;
        units := units * bytes as real;
        assert units == Scaled(count as int, (size as int + output as int) as real);
      case "character" =>
        if !("input" in payload && payload["input"].Str?) {
          return Err(Invalid());
        }
        units := units * |payload["input"].s| as real;
        assert units == Scaled(count as int, |payload["input"].s| as real);
      case "second" =>
        if "duration" !in payload {
          return Err(Invalid());
        }
        var duration := rat(NumberString(payload["duration"]));
        if duration.None? || duration.value <= 0.0 || duration.value > 3600.0 {
          return Err(Invalid());
        }
        units := units * duration.value;
        assert units == Scaled(count as int, duration.value);
      case "image" =>
      case "request" =>
      case _ =>
        return Err(Error(503, PRICING_NOT_CONFIGURED));
    }
    assert Scaled(count as int, 1.0) == count as real;
    return Ok(units);
  }

  method Quote(rat: Reader, pricing: Option<Json>, r: Rule, payload: Object, size: int64) returns (q: Result<int64>)
    requires Bounded(r) && size >= 0
    ensures q == Quoted(rat, pricing, r, payload, size)
  {
    if size > r.maxInput {
      return Err(Invalid());
    }
    var rate := ReadRate(rat, pricing, r.pointer);
    if rate.Err? {
      return Err(rate.error);
    }
    var factor := rat(r.multiplier);
    if factor.None? || factor.value <= 0.0 {
      return Err(Error(503, PRICING_NOT_CONFIGURED));
    }
    var count := ReadCount(payload);
    if count.Err? {
      return Err(count.error);
    }
    var output := CapOutput(r, payload);
    if output.Err? {
      return Err(output.error);
    }
    var units := CountUnits(rat, r, payload, size, count.value, output.value);
    if units.Err? {
      return Err(units.error);
    }
    assert units == UnitsOf(rat, r, payload, size);
    q := RoundUp(Cost(rate.value, factor.value, units.value));
  }

  method RoundUp(cost: real) returns (q: Result<int64>)
    ensures q == Rounded(cost)
  {
    var n := cost.Floor;
    if n as real != cost {
      n := n + 1;
    }
    if !(MIN_INT64 <= n <= MAX_INT64) {
      return Err(Invalid());
    }
    return Ok(n as int64);
  }

  // ---------- main results ----------

  /** Everything but the size of the result allows a quote. */
  ghost predicate Priceable(rat: Reader, pricing: Option<Json>, r: Rule, payload: Object, size: int64) {
    && size <= r.maxInput && Rate(rat, pricing, r.pointer).Ok? && Factor(rat, r).Ok?
    && UnitsOf(rat, r, payload, size).Ok?
  }

  /** rate x multiplier x units, not rounded */
  ghost function ExactCost(rat: Reader, pricing: Option<Json>, r: Rule, payload: Object, size: int64): real
    requires Priceable(rat, pricing, r, payload, size)
  {
    Cost(Rate(rat, pricing, r.pointer).value, Factor(rat, r).value, UnitsOf(rat, r, payload, size).value)
  }

  predicate Covers(n: int, x: real) {
    x <= n as real
  }

  ghost predicate LeastNotBelow(n: int, x: real) {
    Covers(n, x) && forall m: int :: Covers(m, x) ==> n <= m
  }

  lemma {:induction false} CeilingIsLeast(x: real, n: int)
    ensures Ceiling(x) == n <==> LeastNotBelow(n, x)
    ensures LeastNotBelow(n, x) <==> n as real - 1.0 < x <= n as real
  {
    var c := Ceiling(x);
    assert x <= c as real < x + 1.0;
    assert Covers(c, x);
    assert n as real - 1.0 < x <= n as real ==> n == c;
  }

  lemma {:induction false} RoundedIsLeast(x: real, n: int64)
    requires x >= 0.0
    ensures Rounded(x) == Ok(n) <==> LeastNotBelow(n as int, x)
    ensures Rounded(x) == Ok(n) ==> n >= 0 && n as real - 1.0 < x <= n as real
    ensures Rounded(x).Ok? <==> x <= MAX_INT64 as real
  {
    CeilingIsLeast(x, Ceiling(x));
    CeilingIsLeast(x, n as int);
    assert Covers(MAX_INT64, x) <==> x <= MAX_INT64 as real;
  }

  lemma {:induction false} TotalIsLeast(rate: Result<real>, factor: Result<real>, units: Result<real>, n: int64)
    requires rate.Ok? ==> rate.value >= 0.0
    requires factor.Ok? ==> factor.value > 0.0
    requires units.Ok? ==> units.value >= 0.0
    ensures Total(rate, factor, units).Ok? ==> rate.Ok? && factor.Ok? && units.Ok?
    ensures rate.Ok? && factor.Ok? && units.Ok? ==>
      var x := Cost(rate.value, factor.value, units.value);
      && (Total(rate, factor, units) == Ok(n) <==> LeastNotBelow(n as int, x))
      && (Total(rate, factor, units) == Ok(n) ==> n >= 0 && n as real - 1.0 < x <= n as real)
      && (Total(rate, factor, units).Ok? <==> x <= MAX_INT64 as real)
  {
    if rate.Ok? && factor.Ok? && units.Ok? {
      RoundedIsLeast(Cost(rate.value, factor.value, units.value), n);
    }
  }

  lemma {:induction false} UnitsNatural(rat: Reader, r: Rule, payload: Object, size: int64)
    requires size >= 0 && UnitsOf(rat, r, payload, size).Ok?
    ensures UnitsOf(rat, r, payload, size).value >= 0.0
  {
  }

  /** A quote is the least integer not below the exact cost: it never underestimates and overshoots by
      less than one. It exists exactly when the request can be priced and its exact cost fits 64 bits. */
  lemma {:induction false} QuoteIsLeast(rat: Reader, pricing: Option<Json>, r: Rule, payload: Object, size: int64,
                                        n: int64)
    requires size >= 0
    ensures Quoted(rat, pricing, r, payload, size) == Ok(n) <==>
            && Priceable(rat, pricing, r, payload, size)
            && LeastNotBelow(n as int, ExactCost(rat, pricing, r, payload, size))
    ensures Quoted(rat, pricing, r, payload, size) == Ok(n) ==>
            && n >= 0
            && n as real - 1.0 < ExactCost(rat, pricing, r, payload, size) <= n as real
    ensures Quoted(rat, pricing, r, payload, size).Ok? <==>
            Priceable(rat, pricing, r, payload, size) && ExactCost(rat, pricing, r, payload, size) <= MAX_INT64 as real
  {
    var units := UnitsOf(rat, r, payload, size);
    if units.Ok? { UnitsNatural(rat, r, payload, size); }
    TotalIsLeast(Rate(rat, pricing, r.pointer), Factor(rat, r), units, n);
  }

  // ---------- validated rules ----------

  const TASK_TYPES := ["chat", "image", "video", "speech", "transcription", "embedding", "rerank"]
  const UNITS := ["request", "token", "image", "second", "character"]

  ghost predicate WellFormedRule(rat: Reader, r: Rule) {
    && r.taskType in TASK_TYPES && r.unit in UNITS
    && r.model != "" && "/" <= r.pointer
    && 1 <= r.maxInput <= MAX_INPUT && 0 <= r.maxOutput <= MAX_OUTPUT
    && IsDecimal(r.multiplier) && rat(r.multiplier).Some? && rat(r.multiplier).value > 0.0
  }

  /** The seven task types, the five units, a model, an absolute pointer, at most 32 MiB of input and a
      million output tokens, and a positive decimal multiplier. */
  lemma {:induction false} WellFormedRuleIff(rat: Reader, r: Rule)
    ensures WellFormedRule(rat, r) <==>
      && (r.taskType == "chat" || r.taskType == "image" || r.taskType == "video" || r.taskType == "speech"
          || r.taskType == "transcription" || r.taskType == "embedding" || r.taskType == "rerank")
      && (r.unit == "request" || r.unit == "token" || r.unit == "image" || r.unit == "second"
          || r.unit == "character")
      && |r.model| > 0 && |r.pointer| > 0 && r.pointer[0] == '/'
      && 1 <= r.maxInput <= 33_554_432 && 0 <= r.maxOutput <= 1_000_000
      && IsDecimal(r.multiplier) && rat(r.multiplier).Some? && rat(r.multiplier).value > 0.0
  {
    TaskTypeIff(r.taskType);
    UnitIff(r.unit);
  }

  lemma {:induction false} TaskTypeIff(t: string)
    ensures t in TASK_TYPES <==>
      t == "chat" || t == "image" || t == "video" || t == "speech" || t == "transcription" || t == "embedding"
      || t == "rerank"
  {
    assert TASK_TYPES[0] == "chat" && TASK_TYPES[1] == "image" && TASK_TYPES[2] == "video" && TASK_TYPES[3] == "speech"
        && TASK_TYPES[4] == "transcription" && TASK_TYPES[5] == "embedding" && TASK_TYPES[6] == "rerank";
  }

  lemma {:induction false} UnitIff(u: string)
    ensures u in UNITS <==>
      u == "request" || u == "token" || u == "image" || u == "second" || u == "character"
  {
    assert UNITS[0] == "request" && UNITS[1] == "token" && UNITS[2] == "image" && UNITS[3] == "second"
        && UNITS[4] == "character";
  }

  /** The quote is the least integer not below the product of the price that the pointer finds, the
      multiplier and the units, all read as exact decimals. */
  ghost predicate ExactDecimals(rat: Reader, pricing: Option<Json>, r: Rule, payload: Object, size: int64, n: int64) {
    && size <= r.maxInput && pricing.Some? && UnitsOf(rat, r, payload, size).Ok?
    && ParseDecimal(r.multiplier).Some?
    && var text, factor := PriceText(pricing.value, r.pointer), Value(ParseDecimal(r.multiplier).value);
       && text.Some? && ParseDecimal(text.value).Some?
       && var rate := Value(ParseDecimal(text.value).value);
          && rate >= 0.0 && factor > 0.0
          && LeastNotBelow(n as int, Cost(rate, factor, UnitsOf(rat, r, payload, size).value))
  }

  lemma {:induction false} ValidatedQuote(rat: Reader, pricing: Option<Json>, r: Rule, payload: Object, size: int64,
                                          n: int64)
    requires size >= 0
    ensures ReadsDecimals(rat) && WellFormedRule(rat, r) && Quoted(rat, pricing, r, payload, size) == Ok(n) ==>
              ExactDecimals(rat, pricing, r, payload, size, n)
  {
    if ReadsDecimals(rat) && WellFormedRule(rat, r) && Quoted(rat, pricing, r, payload, size) == Ok(n) {
      QuoteIsLeast(rat, pricing, r, payload, size, n);
      IsDecimalIff(r.multiplier);
      var text := PriceText(pricing.value, r.pointer).value;
      assert rat(r.multiplier) == Some(Value(ParseDecimal(r.multiplier).value));
      assert rat(text) == Some(Value(ParseDecimal(text).value));
    }
  }

  /** The bytes of a request and its output cap add up far below 64 bits. */
  lemma {:induction false} TokensFit(r: Rule, payload: Object, size: int64)
    requires Bounded(r) && 0 <= size <= r.maxInput && OutputCap(r, payload).Ok?
    ensures 0 <= size as int + OutputCap(r, payload).value as int <= 34_554_432
  {
  }

  // ---------- quotes from the documents' own members ----------

  /** The price text under a model's field is that of the last entry with the model's name. */
  lemma {:induction false} PriceIsFound(items: seq<Json>, i: nat, name: string, field: string, text: string)
    requires forall k :: 0 <= k < |items| ==> items[k].Obj? || items[k].Null?
    requires i < |items| && name != "" && items[i].Obj?
    requires "model_name" in items[i].fields && items[i].fields["model_name"] == Str(name)
    requires forall k :: i < k < |items| && items[k].Obj? && "model_name" in items[k].fields ==>
               items[k].fields["model_name"] != Str(name)
    requires field in items[i].fields && (items[i].fields[field] == Num(text) || items[i].fields[field] == Str(text))
    ensures PriceText(Arr(items), Pointer([name, field])) == Some(text)
  {
    assert IsLast(items, name, i);
    PointerFindsModel(items, name, field, i);
  }

  /** The rule's price is p and its multiplier m: p is the decimal, as a number or a string, in the named
      field of the last entry of the model that the rule's pointer names. */
  ghost predicate Priced(rat: Reader, items: seq<Json>, i: nat, name: string, field: string, text: string, r: Rule,
                         p: real, m: real)
  {
    && (forall k :: 0 <= k < |items| ==> items[k].Obj? || items[k].Null?)
    && i < |items| && name != "" && items[i].Obj?
    && "model_name" in items[i].fields && items[i].fields["model_name"] == Str(name)
    && (forall k :: i < k < |items| && items[k].Obj? && "model_name" in items[k].fields ==>
          items[k].fields["model_name"] != Str(name))
    && field in items[i].fields && (items[i].fields[field] == Num(text) || items[i].fields[field] == Str(text))
    && IsDecimal(text) && rat(text) == Some(p) && p >= 0.0
    && r.pointer == Pointer([name, field])
    && rat(r.multiplier) == Some(m) && m > 0.0
  }

  lemma {:induction false} PricedIsRead(rat: Reader, items: seq<Json>, i: nat, name: string, field: string,
                                        text: string, r: Rule, p: real, m: real)
    requires Priced(rat, items, i, name, field, text, r, p, m)
    ensures Rate(rat, Some(Arr(items)), r.pointer) == Ok(p) && Factor(rat, r) == Ok(m)
  {
    PriceIsFound(items, i, name, field, text);
    IsDecimalIff(text);
  }

  predicate Says(v: Json, n: int) {
    v == Num(Itoa(n)) || v == Str(Itoa(n))
  }

  /** `count` copies are asked for: by the nested `n`, else by the top-level one, else one. */
  ghost predicate Copies(payload: Object, top: int, count: int) {
    && 1 <= top <= 10 && 1 <= count <= 10
    && (if "n" in payload then Says(payload["n"], top) else top == 1)
    && (if "parameters" in payload && payload["parameters"].Obj? && "n" in payload["parameters"].fields
        then Says(payload["parameters"].fields["n"], count) else count == top)
  }

  /** A chat is limited to `limit` output tokens, by itself or by the rule; other tasks have none. */
  ghost predicate Limited(r: Rule, payload: Object, limit: int) {
    if r.taskType != "chat" then limit == 0
    else
      && 1 <= limit <= r.maxOutput as int
      && !("max_tokens" in payload && "max_completion_tokens" in payload)
      && (if "max_tokens" in payload then Says(payload["max_tokens"], limit)
          else if "max_completion_tokens" in payload then Says(payload["max_completion_tokens"], limit)
          else limit == r.maxOutput as int)
  }

  lemma {:induction false} SaidIsRead(v: Json, n: int)
    requires Says(v, n) && 1 <= n <= MAX_INT64
    ensures PositiveInteger(v) == Some(n as int64)
  {
    ParsePrinted(n);
  }

  lemma {:induction false} CopiesAreCounted(payload: Object, top: int, count: int)
    requires Copies(payload, top, count)
    ensures Count(payload) == Ok(count as int64)
  {
    if "n" in payload { SaidIsRead(payload["n"], top); }
    if "parameters" in payload && payload["parameters"].Obj? && "n" in payload["parameters"].fields {
      SaidIsRead(payload["parameters"].fields["n"], count);
    }
  }

  lemma {:induction false} LimitIsCapped(r: Rule, payload: Object, limit: int)
    requires Limited(r, payload, limit)
    ensures OutputCap(r, payload) == Ok(limit as int64)
  {
    if r.taskType == "chat" && "max_tokens" in payload {
      SaidIsRead(payload["max_tokens"], limit);
    } else if r.taskType == "chat" && "max_completion_tokens" in payload {
      SaidIsRead(payload["max_completion_tokens"], limit);
    }
  }

  lemma {:induction false} QuoteOfUnits(rat: Reader, pricing: Option<Json>, r: Rule, payload: Object, size: int64,
                                        p: real, m: real, u: real, n: int64)
    requires Rate(rat, pricing, r.pointer) == Ok(p) && Factor(rat, r) == Ok(m)
    requires UnitsOf(rat, r, payload, size) == Ok(u) && u >= 0.0
    ensures Quoted(rat, pricing, r, payload, size) == Ok(n) <==>
            size <= r.maxInput && n as real - 1.0 < p * m * u <= n as real
  {
    TotalIsLeast(Ok(p), Ok(m), Ok(u), n);
    CeilingIsLeast(Cost(p, m, u), n as int);
  }

  /** A chat in text alone. */
  ghost predicate InText(payload: Object) {
    && ("modalities" in payload ==> payload["modalities"] == Arr([Str("text")]))
    && ("messages" in payload && payload["messages"].Arr? ==>
          forall k :: 0 <= k < |payload["messages"].items| && payload["messages"].items[k].Obj? ==>
            && "content" in payload["messages"].items[k].fields
            && payload["messages"].items[k].fields["content"].Str?)
  }

  /** The request is for this many units: tokens by bytes and output limit, for text tasks only; characters
      by the input; seconds by a positive duration of at most an hour; images and requests one by one. */
  ghost predicate Amounts(rat: Reader, r: Rule, payload: Object, size: int, count: int, limit: int, units: real) {
    || (&& r.unit == "token"
        && (r.taskType == "embedding" || r.taskType == "rerank" || (r.taskType == "chat" && InText(payload)))
        && units == count as real * (size + limit) as real)
    || (&& r.unit == "character" && "input" in payload && payload["input"].Str?
        && units == count as real * |payload["input"].s| as real)
    || (&& r.unit == "second" && "duration" in payload
        && var v := payload["duration"];
           var d := rat(if v.Num? then v.text else if v.Str? then v.s else "");
           d.Some? && 0.0 < d.value <= 3600.0 && units == count as real * d.value)
    || ((r.unit == "image" || r.unit == "request") && units == count as real)
  }

  lemma {:induction false} ScaledIff(count: int, each: real, units: real)
    ensures Scaled(count, each) == units <==> units == count as real * each
  {
  }

  lemma {:induction false} ScaledByOne(count: int)
    ensures Scaled(count, 1.0) == count as real
  {
  }

  lemma {:induction false} TokenUnitsIff(rat: Reader, r: Rule, payload: Object, size: int, count: int, limit: int,
                                        units: real)
    requires r.unit == "token"
    ensures Units(rat, r, payload, size, count, limit) == Ok(units) <==>
            Amounts(rat, r, payload, size, count, limit, units)
  {
    ScaledIff(count, (size + limit) as real, units);
  }

  lemma {:induction false} CharacterUnitsIff(rat: Reader, r: Rule, payload: Object, size: int, count: int, limit: int,
                                            units: real)
    requires r.unit == "character"
    ensures Units(rat, r, payload, size, count, limit) == Ok(units) <==>
            Amounts(rat, r, payload, size, count, limit, units)
  {
    if "input" in payload && payload["input"].Str? {
      ScaledIff(count, |payload["input"].s| as real, units);
    } else {
      assert Units(rat, r, payload, size, count, limit).Err?;
    }
  }

  lemma {:induction false} SecondUnitsIff(rat: Reader, r: Rule, payload: Object, size: int, count: int, limit: int,
                                         units: real)
    requires r.unit == "second"
    ensures Units(rat, r, payload, size, count, limit) == Ok(units) <==>
            Amounts(rat, r, payload, size, count, limit, units)
  {
    if "duration" in payload && rat(NumberString(payload["duration"])).Some? {
      ScaledIff(count, rat(NumberString(payload["duration"])).value, units);
    } else {
      assert Units(rat, r, payload, size, count, limit).Err?;
    }
  }

  lemma {:induction false} OtherUnitsIff(rat: Reader, r: Rule, payload: Object, size: int, count: int, limit: int,
                                        units: real)
    requires r.unit != "token" && r.unit != "character" && r.unit != "second"
    ensures Units(rat, r, payload, size, count, limit) == Ok(units) <==>
            Amounts(rat, r, payload, size, count, limit, units)
  {
    ScaledByOne(count);
  }

  lemma {:induction false} UnitsIff(rat: Reader, r: Rule, payload: Object, size: int, count: int, limit: int,
                                    units: real)
    ensures Units(rat, r, payload, size, count, limit) == Ok(units) <==>
            Amounts(rat, r, payload, size, count, limit, units)
  {
    if r.unit == "token" {
      TokenUnitsIff(rat, r, payload, size, count, limit, units);
    } else if r.unit == "character" {
      CharacterUnitsIff(rat, r, payload, size, count, limit, units);
    } else if r.unit == "second" {
      SecondUnitsIff(rat, r, payload, size, count, limit, units);
    } else {
      OtherUnitsIff(rat, r, payload, size, count, limit, units);
    }
  }

  lemma {:induction false} UnitsOfIff(rat: Reader, r: Rule, payload: Object, size: int64, top: int, count: int,
                                      limit: int, units: real)
    requires Copies(payload, top, count) && Limited(r, payload, limit)
    ensures UnitsOf(rat, r, payload, size) == Ok(units) <==>
            Amounts(rat, r, payload, size as int, count, limit, units)
  {
    CopiesAreCounted(payload, top, count);
    LimitIsCapped(r, payload, limit);
    UnitsIff(rat, r, payload, size as int, count, limit, units);
  }

  /** A request for this many units, at a price and under a multiplier read from the documents' own members,
      is quoted n exactly when n is price x multiplier x units rounded up. */
  lemma {:induction false} QuoteIsPriceTimesUnits(rat: Reader, items: seq<Json>, i: nat, name: string, field: string,
                                                  text: string, p: real, m: real, r: Rule, payload: Object,
                                                  size: int64, top: int, count: int, limit: int, units: real, n: int64)
    requires Priced(rat, items, i, name, field, text, r, p, m)
    requires Copies(payload, top, count) && Limited(r, payload, limit) && size >= 0
    requires Amounts(rat, r, payload, size as int, count, limit, units)
    ensures Quoted(rat, Some(Arr(items)), r, payload, size) == Ok(n) <==>
            size <= r.maxInput && n as real - 1.0 < p * m * units <= n as real
  {
    PricedIsRead(rat, items, i, name, field, text, r, p, m);
    UnitsOfIff(rat, r, payload, size, top, count, limit, units);
    UnitsNatural(rat, r, payload, size);
    QuoteOfUnits(rat, Some(Arr(items)), r, payload, size, p, m, units, n);
  }

  /** A request for which there is no such number of units is not quoted. */
  lemma {:induction false} NoUnitsNoQuote(rat: Reader, pricing: Option<Json>, r: Rule, payload: Object, size: int64,
                                          bytes: int, top: int, count: int, limit: int)
    requires Copies(payload, top, count) && Limited(r, payload, limit) && bytes == size as int
    requires forall units: real :: !Amounts(rat, r, payload, bytes, count, limit, units)
    ensures Quoted(rat, pricing, r, payload, size).Err?
  {
    if UnitsOf(rat, r, payload, size).Ok? {
      UnitsOfIff(rat, r, payload, size, top, count, limit, UnitsOf(rat, r, payload, size).value);
    }
  }

  /** By tokens: price x multiplier x (copies x (bytes + output limit)), rounded up. */
  lemma {:induction false} TokenQuote(rat: Reader, items: seq<Json>, i: nat, name: string, field: string, text: string,
                                      p: real, m: real, r: Rule, payload: Object, size: int64, top: int, count: int,
                                      limit: int, units: real, n: int64)
    requires Priced(rat, items, i, name, field, text, r, p, m)
    requires Copies(payload, top, count) && Limited(r, payload, limit) && size >= 0 && r.unit == "token"
    requires r.taskType == "embedding" || r.taskType == "rerank" || (r.taskType == "chat" && InText(payload))
    requires units == count as real * (size as int + limit) as real
    ensures Quoted(rat, Some(Arr(items)), r, payload, size) == Ok(n) <==>
            size <= r.maxInput && n as real - 1.0 < p * m * units <= n as real
  {
    QuoteIsPriceTimesUnits(rat, items, i, name, field, text, p, m, r, payload, size, top, count, limit, units, n);
  }

  /** By characters: price x multiplier x (copies x characters of the input). */
  lemma {:induction false} CharQuote(rat: Reader, items: seq<Json>, i: nat, name: string, field: string, text: string,
                                    p: real, m: real, r: Rule, payload: Object, size: int64, top: int, count: int,
                                    limit: int, units: real, n: int64)
    requires Priced(rat, items, i, name, field, text, r, p, m)
    requires Copies(payload, top, count) && Limited(r, payload, limit) && size >= 0
    requires r.unit == "character" && "input" in payload && payload["input"].Str?
    requires units == count as real * |payload["input"].s| as real
    ensures Quoted(rat, Some(Arr(items)), r, payload, size) == Ok(n) <==>
            size <= r.maxInput && n as real - 1.0 < p * m * units <= n as real
  {
    QuoteIsPriceTimesUnits(rat, items, i, name, field, text, p, m, r, payload, size, top, count, limit, units, n);
  }

  lemma {:induction false} DurationAmounts(rat: Reader, r: Rule, payload: Object, size: int, count: int, limit: int,
                                           d: real, units: real)
    requires r.unit == "second" && "duration" in payload
    requires || (payload["duration"].Num? && rat(payload["duration"].text) == Some(d))
             || (payload["duration"].Str? && rat(payload["duration"].s) == Some(d))
    requires 0.0 < d <= 3600.0 && units == count as real * d
    ensures Amounts(rat, r, payload, size, count, limit, units)
  {
  }

  /** By seconds: price x multiplier x (copies x duration), for a positive duration of at most an hour. */
  lemma {:induction false} SecondQuote(rat: Reader, items: seq<Json>, i: nat, name: string, field: string, text: string,
                                      p: real, m: real, r: Rule, payload: Object, size: int64, top: int, count: int,
                                      limit: int, d: real, units: real, n: int64)
    requires Priced(rat, items, i, name, field, text, r, p, m)
    requires Copies(payload, top, count) && Limited(r, payload, limit) && size >= 0
    requires r.unit == "second" && "duration" in payload
    requires || (payload["duration"].Num? && rat(payload["duration"].text) == Some(d))
             || (payload["duration"].Str? && rat(payload["duration"].s) == Some(d))
    requires 0.0 < d <= 3600.0 && units == count as real * d
    ensures Quoted(rat, Some(Arr(items)), r, payload, size) == Ok(n) <==>
            size <= r.maxInput && n as real - 1.0 < p * m * units <= n as real
  {
    DurationAmounts(rat, r, payload, size as int, count, limit, d, units);
    QuoteIsPriceTimesUnits(rat, items, i, name, field, text, p, m, r, payload, size, top, count, limit, units, n);
  }

  /** By images or requests: price x multiplier x copies. */
  lemma {:induction false} CopyQuote(rat: Reader, items: seq<Json>, i: nat, name: string, field: string, text: string,
                                    p: real, m: real, r: Rule, payload: Object, size: int64, top: int, count: int,
                                    limit: int, units: real, n: int64)
    requires Priced(rat, items, i, name, field, text, r, p, m)
    requires Copies(payload, top, count) && Limited(r, payload, limit) && size >= 0
    requires (r.unit == "image" || r.unit == "request") && units == count as real
    ensures Quoted(rat, Some(Arr(items)), r, payload, size) == Ok(n) <==>
            size <= r.maxInput && n as real - 1.0 < p * m * units <= n as real
  {
    QuoteIsPriceTimesUnits(rat, items, i, name, field, text, p, m, r, payload, size, top, count, limit, units, n);
  }

  /** Such documents exist: a null and one entry price a model at 1, and a chat that says nothing about
      copies and limits asks for one copy under the limit of its rule. */
  lemma {:induction false} EntryIsPriced(rat: Reader, r: Rule, entry: Object)
    requires rat("1") == Some(1.0) && r.multiplier == "1" && r.pointer == Pointer(["m/1", "price"])
    requires "model_name" in entry && entry["model_name"] == Str("m/1")
    requires "price" in entry && entry["price"] == Num("1")
    ensures Priced(rat, [Null, Obj(entry)], 1, "m/1", "price", "1", r, 1.0, 1.0)
  {
    var one := Decimal(false, "1", "", NoExponent);
    assert WellFormed(one) && Text(one) == "1";
  }

  lemma {:induction false} PlainChat(r: Rule, payload: Object)
    requires r.taskType == "chat" && r.maxOutput == 1000
    requires payload.Keys == {"messages"} && payload["messages"] == Arr([Obj(map["content" := Str("hello")])])
    ensures Copies(payload, 1, 1) && Limited(r, payload, 1000) && InText(payload)
  {
  }

  // ---------- what the caller asks for ----------

  lemma {:induction false} PrintedIsRead(n: nat)
    requires n <= MAX_INT64
    ensures PositiveInteger(Num(Itoa(n))) == if n == 0 then None else Some(n as int64)
  {
    ParsePrinted(n);
  }

  /** A count is taken from either place, and only from one to ten. */
  lemma {:induction false} CountIsRead(payload: Object, n: nat)
    requires payload.Keys !! {"n", "parameters"} && n <= MAX_INT64
    ensures Count(payload["n" := Num(Itoa(n))]) == if 1 <= n <= 10 then Ok(n as int64) else Err(Invalid())
    ensures Count(payload["parameters" := Obj(map["n" := Num(Itoa(n))])])
         == if 1 <= n <= 10 then Ok(n as int64) else Err(Invalid())
  {
    PrintedIsRead(n);
  }

  /** A chat may lower the output limit of its rule, under either name, and not raise it. */
  lemma {:induction false} LimitIsRead(r: Rule, payload: Object, name: string, n: nat)
    requires r.taskType == "chat" && r.maxOutput > 0 && n <= MAX_INT64
    requires name in {"max_tokens", "max_completion_tokens"} && payload.Keys !! {"max_tokens", "max_completion_tokens"}
    ensures var cap := OutputCap(r, payload[name := Num(Itoa(n))]);
      (cap.Ok? <==> 1 <= n <= r.maxOutput as int) && (cap.Ok? ==> cap.value as int == n)
    ensures OutputCap(r, payload) == Ok(r.maxOutput)
  {
    PrintedIsRead(n);
  }

  // ---------- growth ----------

  lemma {:induction false} CostGrows(rate: real, factor: real, units: real, units': real)
    requires rate >= 0.0 && factor > 0.0 && 0.0 <= units <= units'
    ensures Cost(rate, factor, units) <= Cost(rate, factor, units')
  {
    var perUnit := rate * factor;
    assert perUnit >= 0.0;
    assert perUnit * units <= perUnit * units';
  }

  lemma {:induction false} ScaledGrows(count: int, each: real, count': int, each': real)
    requires 1 <= count <= count' && 0.0 <= each <= each'
    ensures Scaled(count, each) <= Scaled(count', each')
  {
    assert count as real * each <= count as real * each' <= count' as real * each';
  }

  ghost predicate SameAt(p: Object, p': Object, k: string) {
    (k in p <==> k in p') && (k in p && k in p' ==> p[k] == p'[k])
  }

  /** The requests say the same about everything but counts and output limits. */
  ghost predicate Alike(p: Object, p': Object) {
    SameAt(p, p', "modalities") && SameAt(p, p', "messages") && SameAt(p, p', "input") && SameAt(p, p', "duration")
  }

  lemma {:induction false} TokensGrow(rat: Reader, r: Rule, p: Object, p': Object,
                                      size: int, count: int, output: int, size': int, count': int, output': int)
    requires SameAt(p, p', "modalities") && SameAt(p, p', "messages") && r.unit == "token"
    requires 0 <= size <= size' && 1 <= count <= count' && 0 <= output <= output'
    requires Units(rat, r, p', size', count', output').Ok?
    ensures Units(rat, r, p, size, count, output).Ok?
    ensures 0.0 <= Units(rat, r, p, size, count, output).value <= Units(rat, r, p', size', count', output').value
  {
    ScaledGrows(count, (size + output) as real, count', (size' + output') as real);
  }

  lemma {:induction false} OthersGrow(rat: Reader, r: Rule, p: Object, p': Object,
                                      size: int, count: int, output: int, size': int, count': int, output': int)
    requires SameAt(p, p', "input") && SameAt(p, p', "duration") && r.unit != "token"
    requires 1 <= count <= count' && Units(rat, r, p', size', count', output').Ok?
    ensures Units(rat, r, p, size, count, output).Ok?
    ensures 0.0 <= Units(rat, r, p, size, count, output).value <= Units(rat, r, p', size', count', output').value
  {
    match r.unit
    case "character" =>
      var length := |p["input"].s| as real;
      ScaledGrows(count, length, count', length);
    case "second" =>
      var d := rat(NumberString(p["duration"])).value;
      ScaledGrows(count, d, count', d);
    case _ =>
      ScaledGrows(count, 1.0, count', 1.0);
  }

  lemma {:induction false} UnitsGrow(rat: Reader, r: Rule, p: Object, size: int64, p': Object, size': int64)
    requires Alike(p, p') && 0 <= size <= size'
    requires Count(p).Ok? && Count(p').Ok? && Count(p).value <= Count(p').value
    requires OutputCap(r, p).Ok? && OutputCap(r, p').Ok? && OutputCap(r, p).value <= OutputCap(r, p').value
    requires UnitsOf(rat, r, p', size').Ok?
    ensures UnitsOf(rat, r, p, size).Ok?
    ensures 0.0 <= UnitsOf(rat, r, p, size).value <= UnitsOf(rat, r, p', size').value
  {
    var c, c' := Count(p).value as int, Count(p').value as int;
    var o, o' := OutputCap(r, p).value as int, OutputCap(r, p').value as int;
    if r.unit == "token" {
      TokensGrow(rat, r, p, p', size as int, c, o, size' as int, c', o');
    } else {
      OthersGrow(rat, r, p, p', size as int, c, o, size' as int, c', o');
    }
  }

  /** A request with fewer bytes, copies or output tokens can be quoted whenever the larger one can, and
      not for more. */
  lemma {:induction false} QuoteGrows(rat: Reader, pricing: Option<Json>, r: Rule, p: Object, size: int64,
                                      p': Object, size': int64)
    requires Alike(p, p') && 0 <= size <= size'
    requires Count(p).Ok? && Count(p').Ok? && Count(p).value <= Count(p').value
    requires OutputCap(r, p).Ok? && OutputCap(r, p').Ok? && OutputCap(r, p).value <= OutputCap(r, p').value
    ensures Quoted(rat, pricing, r, p', size').Ok? ==>
              && Quoted(rat, pricing, r, p, size).Ok?
              && Quoted(rat, pricing, r, p, size).value <= Quoted(rat, pricing, r, p', size').value
  {
    if Quoted(rat, pricing, r, p', size').Err? {
      return;
    }
    var n' := Quoted(rat, pricing, r, p', size').value;
    QuoteIsLeast(rat, pricing, r, p', size', n');
    UnitsGrow(rat, r, p, size, p', size');
    CostGrows(Rate(rat, pricing, r.pointer).value, Factor(rat, r).value,
              UnitsOf(rat, r, p, size).value, UnitsOf(rat, r, p', size').value);
    QuoteIsLeast(rat, pricing, r, p, size, n');
    var n := Quoted(rat, pricing, r, p, size).value;
    QuoteIsLeast(rat, pricing, r, p, size, n);
    assert Covers(n' as int, ExactCost(rat, pricing, r, p, size));
  }
}
