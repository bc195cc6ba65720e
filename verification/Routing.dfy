/** The routing rules: their validation, the choice of a rule for a request, and the request that is sent. */
module Routing {
  import opened Httpx
  import opened Strings
  import opened Json
  import opened Identity
  import opened Budget
  import opened Decimals
  import opened Pricing

  // ---------- validation ----------

  ghost predicate DistinctPairs(rules: seq<Rule>) {
    forall i, j :: 0 <= i < j < |rules| ==>
      rules[i].taskType != rules[j].taskType || rules[i].model != rules[j].model
  }

  function RuleKey(r: Rule): string {
    r.taskType + ":" + r.model
  }

  lemma {:induction false} TaskTypeHasNoColon(t: string)
    requires t in TASK_TYPES
    ensures ':' !in t
  {
  }

  /** No task type contains the separator, so the joined key tells both parts. */
  lemma {:induction false} RuleKeyInjective(r: Rule, r': Rule)
    requires r.taskType in TASK_TYPES && r'.taskType in TASK_TYPES && RuleKey(r) == RuleKey(r')
    ensures r.taskType == r'.taskType && r.model == r'.model
  {
    TaskTypeHasNoColon(r.taskType);
    TaskTypeHasNoColon(r'.taskType);
    JoinInjective(r.taskType, r.model, r'.taskType, r'.model);
  }

  lemma {:induction false} JoinInjective(t: string, m: string, t': string, m': string)
    requires ':' !in t && ':' !in t' && t + ":" + m == t' + ":" + m'
    ensures t == t' && m == m'
  {
    var key := t + [':'] + m;
    assert key == t' + [':'] + m';
    SplitAfter(t, m, ':');
    SplitAfter(t', m', ':');
    assert t == Split(key, ':')[0] == t';
    assert m == key[|t| + 1..] == m';
  }

  ghost predicate AllWellFormed(rat: Reader, rules: seq<Rule>) {
    forall i {:trigger WellFormedRule(rat, rules[i])} :: 0 <= i < |rules| ==> WellFormedRule(rat, rules[i])
  }

  function Keys(rules: seq<Rule>): set<string> {
    set i | 0 <= i < |rules| :: RuleKey(rules[i])
  }

  lemma {:induction false} RepeatedKeyRefused(rat: Reader, rules: seq<Rule>, i: nat)
    requires i < |rules| && RuleKey(rules[i]) in Keys(rules[..i])
    ensures !(AllWellFormed(rat, rules) && DistinctPairs(rules))
  {
    var j :| 0 <= j < i && RuleKey(rules[..i][j]) == RuleKey(rules[i]);
    if AllWellFormed(rat, rules) {
      assert WellFormedRule(rat, rules[j]) && WellFormedRule(rat, rules[i]);
      RuleKeyInjective(rules[j], rules[i]);
    }
  }

  lemma {:induction false} NewKeyAccepted(rules: seq<Rule>, i: nat)
    requires i < |rules| && DistinctPairs(rules[..i]) && RuleKey(rules[i]) !in Keys(rules[..i])
    ensures DistinctPairs(rules[..i + 1])
    ensures Keys(rules[..i + 1]) == Keys(rules[..i]) + {RuleKey(rules[i])}
  {
    var next := rules[..i + 1];
    forall j | 0 <= j < i ensures next[j] == rules[..i][j] && RuleKey(rules[..i][j]) in Keys(rules[..i]) {}
    assert forall j | 0 <= j < i :: RuleKey(next[j]) != RuleKey(rules[i]);
    assert next[i] == rules[i] && RuleKey(next[i]) in Keys(next);
    forall j | 0 <= j < i ensures RuleKey(next[j]) in Keys(next) {}
  }

  method CheckRule(rat: Reader, rules: seq<Rule>, i: nat) returns (ok: bool)
    requires i < |rules| && AllWellFormed(rat, rules[..i])
    ensures if ok then AllWellFormed(rat, rules[..i + 1]) else !AllWellFormed(rat, rules)
  {
    var r := rules[i];
    assert AllWellFormed(rat, rules) ==> WellFormedRule(rat, r);
    if r.taskType !in TASK_TYPES {
      return false;
    }
    if r.model == "" || !("/" <= r.pointer) || r.maxInput < 1 || r.maxInput > MAX_INPUT
       || r.maxOutput < 0 || r.maxOutput > MAX_OUTPUT {
      return false;
    }
    if r.unit !in UNITS {
      return false;
    }
    IsDecimalIff(r.multiplier);
    if ParseDecimal(r.multiplier).None? {
      return false;
    }
    var n := rat(r.multiplier);
    if n.None? || n.value <= 0.0 {
      return false;
    }
    WellFormedSoFar(rat, rules, i);
    return true;
  }

  lemma {:induction false} WellFormedSoFar(rat: Reader, rules: seq<Rule>, i: nat)
    requires i < |rules| && AllWellFormed(rat, rules[..i]) && WellFormedRule(rat, rules[i])
    ensures AllWellFormed(rat, rules[..i + 1])
  {
    var front, next := rules[..i], rules[..i + 1];
    forall j | 0 <= j < |next| ensures WellFormedRule(rat, next[j]) {
      if j < i { assert WellFormedRule(rat, front[j]) && next[j] == front[j]; }
    }
  }

  /** Accepts exactly the rules that are all well formed and pairwise distinct on task type and model. */
  method Validate(rat: Reader, rules: seq<Rule>) returns (ok: bool)
    ensures ok <==> AllWellFormed(rat, rules) && DistinctPairs(rules)
  {
    var seen: set<string> := {};
    for i := 0 to |rules|
      invariant AllWellFormed(rat, rules[..i]) && DistinctPairs(rules[..i])
      invariant seen == Keys(rules[..i])
    {
      var key := RuleKey(rules[i]);
      if key in seen {
        RepeatedKeyRefused(rat, rules, i);
        return false;
      }
      NewKeyAccepted(rules, i);
      seen := seen + {key};
      var wellFormed := CheckRule(rat, rules, i);
      if !wellFormed {
        return false;
      }
    }
    assert rules[..|rules|] == rules;
    return true;
  }

  // ---------- the choice ----------

  /** A request with the snapshots it is routed by. An empty model leaves the choice open. */
  datatype Ask = Ask(taskType: string, model: string, available: set<string>, pricing: Option<Json>, payload: Object,
                     size: int64, policy: Policy, account: int64, quota: int64, today: int64, month: int64)

  predicate Matches(q: Ask, r: Rule) {
    r.taskType == q.taskType && r.model in q.available && (q.model == "" || r.model == q.model)
  }

  /** The estimate under one rule, or why it cannot be used. */
  function Attempt(rat: Reader, q: Ask, r: Rule): Result<int64> {
    match Quoted(rat, q.pricing, r, q.payload, q.size)
    case Err(e) => Err(e)
    case Ok(cost) =>
      match BudgetGuard(q.policy, cost, q.account, q.quota, q.today, q.month)
      case Some(e) => Err(e)
      case None => Ok(cost)
  }

  /** The attempts at all rules, as if none were skipped. */
  ghost function Attempts(rat: Reader, q: Ask, rules: seq<Rule>): (attempts: seq<Result<int64>>)
    ensures |attempts| == |rules|
  {
    if rules == [] then []
    else Attempts(rat, q, rules[..|rules| - 1]) + [Attempt(rat, q, rules[|rules| - 1])]
  }

  lemma {:induction false} AttemptAt(rat: Reader, q: Ask, rules: seq<Rule>, i: nat)
    requires i < |rules|
    ensures Attempts(rat, q, rules)[i] == Attempt(rat, q, rules[i])
  {
    if i < |rules| - 1 { AttemptAt(rat, q, rules[..|rules| - 1], i); }
  }

  ghost predicate FirstUsable(attempts: seq<Result<int64>>, rules: seq<Rule>, q: Ask, i: nat)
    requires |attempts| == |rules|
  {
    && i < |rules| && Matches(q, rules[i]) && attempts[i].Ok?
    && forall j :: 0 <= j < i && Matches(q, rules[j]) ==> attempts[j].Err?
  }

  ghost predicate LastMatch(rules: seq<Rule>, q: Ask, i: nat) {
    i < |rules| && Matches(q, rules[i]) && forall j :: i < j < |rules| ==> !Matches(q, rules[j])
  }

  /** The first rule that matches, quotes and fits the budget; otherwise the error of the last one that
      matches; otherwise that nothing is configured. */
  ghost predicate Selects(attempts: seq<Result<int64>>, rules: seq<Rule>, q: Ask, outcome: Result<(Rule, int64)>)
    requires |attempts| == |rules|
  {
    match outcome
    case Ok((r, cost)) =>
      exists i: nat :: FirstUsable(attempts, rules, q, i) && rules[i] == r && attempts[i] == Ok(cost)
    case Err(e) =>
      && (forall i :: 0 <= i < |rules| && Matches(q, rules[i]) ==> attempts[i].Err?)
      && (|| ((forall i :: 0 <= i < |rules| ==> !Matches(q, rules[i])) && e == Error(503, PRICING_NOT_CONFIGURED))
          || (exists i: nat :: LastMatch(rules, q, i) && attempts[i] == Err(e)))
  }

  /** A rule is tried when it is for the task type and for an available model, the one asked for if one is;
      it can be used when it quotes and the quote passes the budget check. */
  lemma {:induction false} TriedAndUsed(rat: Reader, q: Ask, r: Rule, cost: int64)
    ensures Matches(q, r) <==>
      r.taskType == q.taskType && r.model in q.available && (q.model == "" || q.model == r.model)
    ensures Attempt(rat, q, r) == Ok(cost) <==>
      && Quoted(rat, q.pricing, r, q.payload, q.size) == Ok(cost)
      && WithinBudget(q.policy, cost, q.account, q.quota, q.today as int, q.month as int)
    ensures Quoted(rat, q.pricing, r, q.payload, q.size).Err? ==>
      Attempt(rat, q, r) == Quoted(rat, q.pricing, r, q.payload, q.size)
  {
  }

  method TryRule(rat: Reader, q: Ask, r: Rule) returns (a: Result<int64>)
    requires Bounded(r) && q.size >= 0
    ensures a == Attempt(rat, q, r)
  {
    var cost := Quote(rat, q.pricing, r, q.payload, q.size);
    if cost.Err? {
      return cost;
    }
    var verdict := BudgetGuard(q.policy, cost.value, q.account, q.quota, q.today, q.month);
    if verdict.Some? {
      return Err(verdict.value);
    }
    return cost;
  }

  method Choose(rat: Reader, rules: seq<Rule>, q: Ask) returns (outcome: Result<(Rule, int64)>)
    requires (forall i :: 0 <= i < |rules| ==> Bounded(rules[i])) && q.size >= 0
    ensures Selects(Attempts(rat, q, rules), rules, q, outcome)
  {
    var routeErr: Option<Error> := None;
    ghost var attempts, last: nat := Attempts(rat, q, rules), 0;
    for i := 0 to |rules|
      invariant forall j :: 0 <= j < i && Matches(q, rules[j]) ==> attempts[j].Err?
      invariant routeErr.None? ==> forall j :: 0 <= j < i ==> !Matches(q, rules[j])
      invariant routeErr.Some? ==>
        && last < i && Matches(q, rules[last]) && attempts[last] == Err(routeErr.value)
        && forall j :: last < j < i ==> !Matches(q, rules[j])
    {
      var r := rules[i];
      if r.taskType != q.taskType || r.model !in q.available || (q.model != "" && r.model != q.model) {
        continue;
      }
      var a := TryRule(rat, q, r);
      AttemptAt(rat, q, rules, i);
      if a.Err? {
        routeErr, last := Some(a.error), i;
        continue;
      }
      assert FirstUsable(attempts, rules, q, i);
      return Ok((r, a.value));
    }
    if routeErr.Some? {
      assert LastMatch(rules, q, last);
      return Err(routeErr.value);
    }
    return Err(Error(503, PRICING_NOT_CONFIGURED));
  }

  lemma {:induction false} SelectsOne(attempts: seq<Result<int64>>, rules: seq<Rule>, q: Ask,
                                      o: Result<(Rule, int64)>, o': Result<(Rule, int64)>)
    requires |attempts| == |rules| && Selects(attempts, rules, q, o) && Selects(attempts, rules, q, o')
    ensures o == o'
  {
    match (o, o')
    case (Ok((r, _)), Ok((r', _))) =>
      var i: nat :| FirstUsable(attempts, rules, q, i) && rules[i] == r;
      var j: nat :| FirstUsable(attempts, rules, q, j) && rules[j] == r';
      assert FirstUsable(attempts, rules, q, i) && FirstUsable(attempts, rules, q, j) && i == j;
    case (Err(e), Err(e')) =>
    case (_, _) =>
  }

  /** All matching rules of the list are the same rule. */
  ghost predicate OneMatch(rules: seq<Rule>, q: Ask, r: Rule) {
    r in rules && Matches(q, r) && forall i :: 0 <= i < |rules| && Matches(q, rules[i]) ==> rules[i] == r
  }

  lemma {:induction false} OneMatchDecides(rat: Reader, rules: seq<Rule>, q: Ask, r: Rule, o: Result<(Rule, int64)>)
    requires Selects(Attempts(rat, q, rules), rules, q, o) && OneMatch(rules, q, r)
    ensures o == match Attempt(rat, q, r) case Ok(cost) => Ok((r, cost)) case Err(e) => Err(e)
  {
    var attempts, a := Attempts(rat, q, rules), Attempt(rat, q, r);
    forall i | 0 <= i < |rules| && Matches(q, rules[i]) ensures attempts[i] == a { AttemptAt(rat, q, rules, i); }
    OneAttemptDecides(attempts, a, rules, q, r, o);
  }

  lemma {:induction false} OneAttemptDecides(attempts: seq<Result<int64>>, a: Result<int64>, rules: seq<Rule>, q: Ask,
                                             r: Rule, o: Result<(Rule, int64)>)
    requires |attempts| == |rules| && Selects(attempts, rules, q, o) && OneMatch(rules, q, r)
    requires forall i :: 0 <= i < |rules| && Matches(q, rules[i]) ==> attempts[i] == a
    ensures o == match a case Ok(cost) => Ok((r, cost)) case Err(e) => Err(e)
  {
    var k: nat :| k < |rules| && rules[k] == r;
  }

  lemma {:induction false} NoMatchDecides(attempts: seq<Result<int64>>, rules: seq<Rule>, q: Ask,
                                          o: Result<(Rule, int64)>)
    requires |attempts| == |rules| && Selects(attempts, rules, q, o)
    requires forall i :: 0 <= i < |rules| ==> !Matches(q, rules[i])
    ensures o == Err(Error(503, PRICING_NOT_CONFIGURED))
  {
  }

  lemma {:induction false} OneMatchInBoth(rules: seq<Rule>, rules': seq<Rule>, q: Ask, i: nat)
    requires q.model != "" && DistinctPairs(rules) && forall r :: r in rules <==> r in rules'
    requires i < |rules| && Matches(q, rules[i])
    ensures OneMatch(rules, q, rules[i]) && OneMatch(rules', q, rules[i])
  {
    assert rules[i] in rules';
    forall j | 0 <= j < |rules'| && Matches(q, rules'[j]) ensures rules'[j] == rules[i] {
      assert rules'[j] in rules;
    }
  }

  /** When the request names a model, the order of the rules does not matter: the rule chosen, the
      estimate and the error are the same for any list of the same valid rules. */
  lemma {:induction false} OrderDoesNotMatter(rat: Reader, rules: seq<Rule>, rules': seq<Rule>, q: Ask,
                                              o: Result<(Rule, int64)>, o': Result<(Rule, int64)>)
    requires q.model != "" && DistinctPairs(rules) && forall r :: r in rules <==> r in rules'
    requires Selects(Attempts(rat, q, rules), rules, q, o) && Selects(Attempts(rat, q, rules'), rules', q, o')
    ensures o == o'
  {
    if i :| 0 <= i < |rules| && Matches(q, rules[i]) {
      OneMatchInBoth(rules, rules', q, i);
      OneMatchDecides(rat, rules, q, rules[i], o);
      OneMatchDecides(rat, rules', q, rules[i], o');
    } else {
      forall j | 0 <= j < |rules'| ensures !Matches(q, rules'[j]) { assert rules'[j] in rules; }
      NoMatchDecides(Attempts(rat, q, rules), rules, q, o);
      NoMatchDecides(Attempts(rat, q, rules'), rules', q, o');
    }
  }

  // ---------- the request that is sent ----------

  method Prepare(q: Ask, chosen: Rule) returns (payload: Object)
    ensures payload == Sent(q, chosen)
    ensures "model" in payload && payload["model"] == Str(chosen.model)
    ensures forall k :: k in q.payload && k != "model" ==> k in payload && payload[k] == q.payload[k]
    ensures forall k :: k in payload && k != "model" && k !in q.payload ==>
      && k == "max_completion_tokens" && payload[k] == Num(Itoa(chosen.maxOutput as int))
      && q.taskType == "chat" && chosen.maxOutput > 0 && "max_tokens" !in q.payload
    ensures q.taskType == "chat" && chosen.maxOutput > 0 ==>
      "max_tokens" in payload || "max_completion_tokens" in payload
  {
    payload := q.payload["model" := Str(chosen.model)];
    if q.taskType == "chat" && chosen.maxOutput > 0 {
      if "max_tokens" !in payload {
        if "max_completion_tokens" !in payload {
          payload := payload["max_completion_tokens" := Num(Itoa(chosen.maxOutput as int))];
        }
      }
    }
  }

  function Sent(q: Ask, chosen: Rule): Object {
    var named := q.payload["model" := Str(chosen.model)];
    if q.taskType == "chat" && chosen.maxOutput > 0 && named.Keys !! {"max_tokens", "max_completion_tokens"}
    then named["max_completion_tokens" := Num(Itoa(chosen.maxOutput as int))] else named
  }

  /** The output limit that the sent request carries, if it carries exactly one. */
  ghost function SentCap(payload: Object): Option<int64> {
    if "max_tokens" in payload && "max_completion_tokens" !in payload then PositiveInteger(payload["max_tokens"])
    else if "max_completion_tokens" in payload && "max_tokens" !in payload
    then PositiveInteger(payload["max_completion_tokens"]) else None
  }

  lemma {:induction false} CapIsSent(q: Ask, r: Rule)
    requires q.taskType == "chat" == r.taskType && OutputCap(r, q.payload).Ok?
    ensures SentCap(Sent(q, r)) == Some(OutputCap(r, q.payload).value)
  {
    ParsePrinted(r.maxOutput as int);
  }

  lemma {:induction false} AttemptIsAffordable(rat: Reader, q: Ask, r: Rule, cost: int64)
    ensures Attempt(rat, q, r) == Ok(cost) ==>
              && Quoted(rat, q.pricing, r, q.payload, q.size) == Ok(cost) && OutputCap(r, q.payload).Ok?
              && WithinBudget(q.policy, cost, q.account, q.quota, q.today as int, q.month as int)
  {
  }

  lemma {:induction false} SentKeepsPayload(q: Ask, r: Rule)
    ensures "model" in Sent(q, r) && Sent(q, r)["model"] == Str(r.model)
    ensures forall k :: k in q.payload && k != "model" ==> k in Sent(q, r) && Sent(q, r)[k] == q.payload[k]
  {
  }

  /** A chosen rule fits the budget, and for a chat the request that is sent carries exactly the output
      limit that its estimate was computed with, whichever of the two limits the caller gave, or none. */
  lemma {:induction false} SentAsQuoted(rat: Reader, rules: seq<Rule>, q: Ask, r: Rule, cost: int64)
    requires Selects(Attempts(rat, q, rules), rules, q, Ok((r, cost))) && q.size >= 0
    ensures "model" in Sent(q, r) && Sent(q, r)["model"] == Str(r.model)
    ensures r.taskType == q.taskType && r.model in q.available && (q.model == "" || r.model == q.model)
    ensures r in rules && Matches(q, r) && Quoted(rat, q.pricing, r, q.payload, q.size) == Ok(cost)
    ensures WithinBudget(q.policy, cost, q.account, q.quota, q.today as int, q.month as int)
    ensures q.taskType == "chat" ==>
              OutputCap(r, q.payload).Ok? && SentCap(Sent(q, r)) == Some(OutputCap(r, q.payload).value)
    ensures forall k :: k in q.payload && k != "model" ==> k in Sent(q, r) && Sent(q, r)[k] == q.payload[k]
  {
    var attempts := Attempts(rat, q, rules);
    var i: nat :| FirstUsable(attempts, rules, q, i) && rules[i] == r && attempts[i] == Ok(cost);
    assert FirstUsable(attempts, rules, q, i);
    AttemptAt(rat, q, rules, i);
    AttemptIsAffordable(rat, q, r, cost);
    SentKeepsPayload(q, r);
    if q.taskType == "chat" { CapIsSent(q, r); }
  }
}
