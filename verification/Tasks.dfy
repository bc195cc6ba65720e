/** The tables `gateway_tasks` and `agent_usage_records` and the transactions on them. A task's random
    identifier is modelled by the position of its row. */
module Tasks {
  import opened Httpx
  import opened Json
  import opened Identity
  import opened Budget
  import opened Calendar
  import opened Outcome

  type TaskId = nat

  /** The columns that are written once, at admission. */
  datatype Subject = Subject(agent: string, tokenId: int64, taskType: string, model: string, estimate: int64)

  datatype Task = Task(subject: Subject, key: string, hash: string, createdAt: Stamp, actual: Option<int64>,
                       status: TaskStatus, startedAt: Option<Stamp>, completedAt: Option<Stamp>,
                       provider: Option<string>, result: Option<Json>, usage: Usage, error: Option<Code>)

  datatype UsageRecord = UsageRecord(subject: Subject, usage: Usage)

  /** What a request brings to admission: the quoted task and its account and token snapshots. */
  datatype Order = Order(subject: Subject, key: string, hash: string, account: int64, quota: int64)

  // ---------- reading the ledger ----------

  /** COALESCE(actual_cost, estimated_cost) */
  function Cost(t: Task): int64 {
    if t.actual.Some? then t.actual.value else t.subject.estimate
  }

  function Sum(tasks: seq<Task>, select: Task -> bool): int {
    if tasks == [] then 0
    else
      var last := tasks[|tasks| - 1];
      Sum(tasks[..|tasks| - 1], select) + if select(last) then Cost(last) as int else 0
  }

  /** The SQL window of `summary`: it has a start and no end. */
  function SumSince(tasks: seq<Task>, a: string, start: Stamp): int {
    Sum(tasks, (t: Task) => t.subject.agent == a && t.createdAt >= start)
  }

  /** What the first i rows charge the agent from `start` on, for every i. */
  ghost predicate Running(tasks: seq<Task>, a: string, start: Stamp, totals: seq<int>) {
    && |totals| == |tasks| + 1 && totals[0] == 0
    && forall i :: 0 <= i < |tasks| ==>
         totals[i + 1] == totals[i]
           + if tasks[i].subject.agent == a && tasks[i].createdAt >= start
             then (if tasks[i].actual.Some? then tasks[i].actual.value else tasks[i].subject.estimate) as int
             else 0
  }

  lemma {:induction false} SumIsLastTotal(tasks: seq<Task>, a: string, start: Stamp, totals: seq<int>)
    requires Running(tasks, a, start, totals)
    ensures SumSince(tasks, a, start) == totals[|tasks|]
  {
    if tasks != [] {
      var n := |tasks| - 1;
      SumIsLastTotal(tasks[..n], a, start, totals[..|tasks|]);
      SumOfMore(tasks[..n], tasks[n], a, start);
      assert tasks[..n] + [tasks[n]] == tasks;
    }
  }

  lemma {:induction false} TotalsExist(tasks: seq<Task>, a: string, start: Stamp) returns (totals: seq<int>)
    ensures Running(tasks, a, start, totals)
  {
    if tasks == [] {
      totals := [0];
    } else {
      var n := |tasks| - 1;
      var front := TotalsExist(tasks[..n], a, start);
      totals := front + [front[n] + if tasks[n].subject.agent == a && tasks[n].createdAt >= start
                                    then Cost(tasks[n]) as int else 0];
    }
  }

  /** One more row adds its cost when it is the agent's and not before the start, and nothing otherwise. */
  lemma {:induction false} SumOfMore(tasks: seq<Task>, t: Task, a: string, start: Stamp)
    ensures SumSince(tasks + [t], a, start) == SumSince(tasks, a, start)
              + if t.subject.agent == a && t.createdAt >= start
                then (if t.actual.Some? then t.actual.value else t.subject.estimate) as int else 0
  {
    assert (tasks + [t])[..|tasks|] == tasks;
  }

  lemma {:induction false} NothingSince(tasks: seq<Task>, a: string, start: Stamp)
    requires forall i :: 0 <= i < |tasks| && tasks[i].subject.agent == a ==> tasks[i].createdAt < start
    ensures SumSince(tasks, a, start) == 0
  {
    if tasks != [] { NothingSince(tasks[..|tasks| - 1], a, start); }
  }

  /** The row of an agent's idempotency key. */
  function Existing(tasks: seq<Task>, a: string, key: string): (r: Option<TaskId>)
    ensures r.Some? ==> r.value < |tasks| && tasks[r.value].subject.agent == a && tasks[r.value].key == key
    ensures r.None? ==> forall i :: 0 <= i < |tasks| ==> !(tasks[i].subject.agent == a && tasks[i].key == key)
  {
    if tasks == [] then None
    else
      var n := |tasks| - 1;
      if tasks[n].subject.agent == a && tasks[n].key == key then Some(n) else Existing(tasks[..n], a, key)
  }

  // ---------- admission ----------

  datatype Admission = Refused(error: Error) | Known(id: TaskId) | Inserted(id: TaskId)

  function NewRow(order: Order, begin: Stamp): Task {
    Task(order.subject, order.key, order.hash, begin, None, CREATED, None, None, None, None, NO_USAGE, None)
  }

  /** An order is admitted exactly when its agent is active, its key is new and its estimate fits the
      true sums of the day and of the month in which the transaction began, from there on. */
  ghost predicate Admissible(agents: Agents, tasks: seq<Task>, order: Order, begin: Stamp) {
    var a := order.subject.agent;
    && Active(agents, a)
    && Existing(tasks, a, order.key).None?
    && WithinBudget(agents[a].policy, order.subject.estimate, order.account, order.quota,
                    SumSince(tasks, a, Truncate(Day, begin)), SumSince(tasks, a, Truncate(Month, begin)))
  }

  // ---------- the code ----------

  const TERMINAL: set<TaskStatus> := {SUCCEEDED, FAILED, CANCELLED}

  function Started(t: Task, now: Stamp): Task
  {
    t.(status := RUNNING, startedAt := Some(now))
  }

  /** The row after `finish`: a terminal row is left alone. */
  function Finished(t: Task, f: Finishing, now: Stamp): Task {
    if t.status in TERMINAL then t
    else t.(status := f.status,
            provider := if f.provider.Some? then f.provider else t.provider,
            result := f.result, usage := f.usage, error := f.cause,
            completedAt := if f.status == RUNNING then None else Some(now))
  }

  /** The usage records after `finish`: one is added when the task leaves the open states. */
  function Recorded(records: map<TaskId, UsageRecord>, id: TaskId, t: Task, subject: Subject, f: Finishing)
    : map<TaskId, UsageRecord>
  {
    if t.status in TERMINAL || f.status == RUNNING || id in records then records
    else records[id := UsageRecord(subject, f.usage)]
  }

  class Service {
    var tasks: seq<Task>
    var records: map<TaskId, UsageRecord>

    constructor ()
      ensures tasks == [] && records == map[]
    {
      tasks, records := [], map[];
    }

    /** Both windows of the agent at the start of the transaction; a sum beyond 64 bits cannot be read. */
    method Summary(a: string, begin: Stamp) returns (r: Result<(int64, int64)>)
      ensures r.Ok? ==> && r.value.0 as int == SumSince(tasks, a, Truncate(Day, begin))
                        && r.value.1 as int == SumSince(tasks, a, Truncate(Month, begin))
      ensures r.Err? ==> || !(MIN <= SumSince(tasks, a, Truncate(Day, begin)) <= MAX)
                         || !(MIN <= SumSince(tasks, a, Truncate(Month, begin)) <= MAX)
      ensures (forall i :: 0 <= i < |tasks| && tasks[i].subject.agent == a ==>
                 tasks[i].createdAt < Truncate(Day, begin))
              ==> r.Ok? ==> r.value.0 == 0
      ensures (forall i :: 0 <= i < |tasks| && tasks[i].subject.agent == a ==>
                 tasks[i].createdAt < Truncate(Month, begin))
              ==> r.Ok? ==> r.value.1 == 0
    {
      var today, month := SumSince(tasks, a, Truncate(Day, begin)), SumSince(tasks, a, Truncate(Month, begin));
      if forall i :: 0 <= i < |tasks| && tasks[i].subject.agent == a ==> tasks[i].createdAt < Truncate(Day, begin) {
        NothingSince(tasks, a, Truncate(Day, begin));
      }
      if forall i :: 0 <= i < |tasks| && tasks[i].subject.agent == a ==> tasks[i].createdAt < Truncate(Month, begin) {
        NothingSince(tasks, a, Truncate(Month, begin));
      }
      if !(MIN <= today <= MAX && MIN <= month <= MAX) {
        return Err(Error(500, INTERNAL_ERROR));
      }
      return Ok((today as int64, month as int64));
    }

    /** The locked transaction of `Create`: everything is read again before the row is inserted. */
    method Admit(identity: Identity.Service, order: Order, begin: Stamp) returns (r: Admission)
      modifies this
      ensures r.Inserted? <==> Admissible(identity.agents, old(tasks), order, begin)
      ensures r.Inserted? ==> tasks == old(tasks) + [NewRow(order, begin)] && r.id == |old(tasks)|
      ensures !r.Inserted? ==> tasks == old(tasks)
      ensures var known := Existing(old(tasks), order.subject.agent, order.key);
              && (r.Known? <==> && Active(identity.agents, order.subject.agent)
                                && known.Some? && old(tasks)[known.value].hash == order.hash)
              && (r.Known? ==> r.id == known.value)
              && (r.Known? || r.Inserted? || !Active(identity.agents, order.subject.agent) || known.None?
                  || r == Refused(Conflict(IDEMPOTENCY_CONFLICT)))
      ensures records == old(records)
    {
      var a := order.subject.agent;
      var locked := identity.LockActive(a);
      if locked.Err? {
        return Refused(locked.error);
      }
      var existing := Existing(tasks, a, order.key);
      if existing.Some? {
        if tasks[existing.value].hash != order.hash {
          return Refused(Conflict(IDEMPOTENCY_CONFLICT));
        }
        return Known(existing.value);
      }
      var sum := Summary(a, begin);
      if sum.Err? {
        return Refused(sum.error);
      }
      var verdict := BudgetGuard(locked.value, order.subject.estimate, order.account, order.quota,
                                 sum.value.0, sum.value.1);
      if verdict.Some? {
        return Refused(verdict.value);
      }
      tasks := tasks + [Task(order.subject, order.key, order.hash, begin, None, CREATED, None, None, None, None,
                             NO_USAGE, None)];
      return Inserted(|tasks| - 1);
    }

    /** Moves an admitted task to RUNNING; only then may the model be called. */
    method Start(identity: Identity.Service, a: string, id: TaskId, now: Stamp) returns (r: Option<Error>)
      requires id < |tasks|
      modifies this
      ensures r.None? <==> Active(identity.agents, a) && old(tasks)[id].status == CREATED
      ensures tasks == if r.None? then old(tasks)[id := Started(old(tasks)[id], now)] else old(tasks)
      ensures r.None? ==> tasks[id].status == RUNNING && tasks[id].startedAt == Some(now)
      ensures Active(identity.agents, a) && r.Some? ==> r == Some(Conflict(TASK_ALREADY_STARTED))
      ensures records == old(records)
    {
      var locked := identity.LockActive(a);
      if locked.Err? {
        return Some(locked.error);
      }
      if tasks[id].status != CREATED {
        return Some(Conflict(TASK_ALREADY_STARTED));
      }
      tasks := tasks[id := tasks[id].(status := RUNNING, startedAt := Some(now))];
      return None;
    }

    /** Settles a task once: the update and the usage record commit together. */
    method Finish(subject: Subject, id: TaskId, f: Finishing, now: Stamp) returns (t: Task)
      requires id < |tasks|
      modifies this
      ensures tasks == old(tasks)[id := Finished(old(tasks)[id], f, now)] && t == tasks[id]
      ensures records == Recorded(old(records), id, old(tasks)[id], subject, f)
      ensures var row := old(tasks)[id];
        if row.status == CREATED || row.status == RUNNING then
          && t.status == f.status && t.result == f.result && t.usage == f.usage && t.error == f.cause
          && t.provider == (if f.provider.Some? then f.provider else row.provider)
          && t.completedAt == (if f.status == RUNNING then None else Some(now))
          && t.subject == row.subject && t.key == row.key && t.hash == row.hash && t.createdAt == row.createdAt
          && t.startedAt == row.startedAt && t.actual == row.actual
          && (f.status != RUNNING && id !in old(records) ==>
                records == old(records)[id := UsageRecord(subject, f.usage)])
        else t == row && records == old(records)
    {
      var row := tasks[id];
      var count := 0;
      if row.status == CREATED || row.status == RUNNING {
        var provider := if f.provider.Some? then f.provider else row.provider;
        var completed := if f.status == RUNNING then None else Some(now);
        tasks := tasks[id := row.(status := f.status, provider := provider, result := f.result,
                                  usage := f.usage, error := f.cause, completedAt := completed)];
        count := 1;
      }
      if count == 1 && f.status != RUNNING && id !in records {
        records := records[id := UsageRecord(subject, f.usage)];
      }
      t := tasks[id];
    }
  }

  /** The agent may act, nothing was admitted under the key, and the estimate fits the quotas, the limit
      per request and, with what the rows since the beginning of the day and of the month charge, the
      other two limits. */
  ghost predicate Admits(agents: Agents, tasks: seq<Task>, order: Order, today: int, month: int) {
    var a, e := order.subject.agent, order.subject.estimate as int;
    && a in agents && agents[a].status == ACTIVE && agents[a].whitelist == APPROVED
    && (forall i :: 0 <= i < |tasks| ==> !(tasks[i].subject.agent == a && tasks[i].key == order.key))
    && 0 <= e <= order.account as int && e <= order.quota as int && e <= agents[a].policy.perRequest as int
    && 0 <= today && today + e <= agents[a].policy.daily as int
    && 0 <= month && month + e <= agents[a].policy.monthly as int
  }

  /** Admission decides on exactly the running totals from the first instant of the day and of the month. */
  lemma {:induction false} AdmissibleIff(agents: Agents, tasks: seq<Task>, order: Order, begin: Stamp,
                                         today: seq<int>, month: seq<int>)
    requires Running(tasks, order.subject.agent, Truncate(Day, begin), today)
    requires Running(tasks, order.subject.agent, Truncate(Month, begin), month)
    ensures Admissible(agents, tasks, order, begin) <==> Admits(agents, tasks, order, today[|tasks|], month[|tasks|])
  {
    SumIsLastTotal(tasks, order.subject.agent, Truncate(Day, begin), today);
    SumIsLastTotal(tasks, order.subject.agent, Truncate(Month, begin), month);
  }

  /** What one more row does to the reported sums: it adds its cost to those of its agent whose window has
      begun at its stamp, and nothing to any other. */
  method SummaryOfMore(service: Service, t: Task, a: string, begin: Stamp)
    returns (was: Result<(int64, int64)>, now: Result<(int64, int64)>)
    modifies service
    ensures service.tasks == old(service.tasks) + [t]
    ensures was.Ok? && now.Ok? ==>
      var cost := (if t.actual.Some? then t.actual.value else t.subject.estimate) as int;
      && now.value.0 as int - was.value.0 as int
         == (if t.subject.agent == a && t.createdAt >= Truncate(Day, begin) then cost else 0)
      && now.value.1 as int - was.value.1 as int
         == (if t.subject.agent == a && t.createdAt >= Truncate(Month, begin) then cost else 0)
  {
    was := service.Summary(a, begin);
    SumOfMore(service.tasks, t, a, Truncate(Day, begin));
    SumOfMore(service.tasks, t, a, Truncate(Month, begin));
    service.tasks := service.tasks + [t];
    now := service.Summary(a, begin);
  }

  /** An affordable order of an active agent with a new key is inserted when what the agent has used up
      lies before the month, and when it lies before the day and leaves room in the month. */
  method AdmitFresh(service: Service, identity: Identity.Service, order: Order, begin: Stamp)
    returns (r: Admission, ghost month: seq<int>)
    modifies service
    ensures var a, e := order.subject.agent, order.subject.estimate as int;
      Running(old(service.tasks), a, Truncate(Month, begin), month) &&
      ((&& a in identity.agents && identity.agents[a].status == ACTIVE && identity.agents[a].whitelist == APPROVED
        && (forall i :: 0 <= i < |old(service.tasks)| && old(service.tasks)[i].subject.agent == a ==>
              old(service.tasks)[i].key != order.key && old(service.tasks)[i].createdAt < Truncate(Day, begin))
        && 0 <= e <= order.account as int && e <= order.quota as int
        && e <= identity.agents[a].policy.perRequest as int && e <= identity.agents[a].policy.daily as int
        && 0 <= month[|old(service.tasks)|]
        && month[|old(service.tasks)|] + e <= identity.agents[a].policy.monthly as int) ==> r.Inserted?)
    ensures r.Inserted? ==>
      && |service.tasks| == |old(service.tasks)| + 1 && service.tasks[..|old(service.tasks)|] == old(service.tasks)
      && var t := service.tasks[|old(service.tasks)|];
         && t.subject == order.subject && t.key == order.key && t.hash == order.hash && t.createdAt == begin
         && t.status == CREATED && t.actual.None? && t.startedAt.None? && t.completedAt.None? && t.error.None?
         && t.provider.None? && t.result.None? && t.usage == Usage(0, 0, 0)
  {
    var a := order.subject.agent;
    ghost var today := TotalsExist(service.tasks, a, Truncate(Day, begin));
    month := TotalsExist(service.tasks, a, Truncate(Month, begin));
    AdmissibleIff(identity.agents, service.tasks, order, begin, today, month);
    SumIsLastTotal(service.tasks, a, Truncate(Day, begin), today);
    if forall i :: 0 <= i < |service.tasks| && service.tasks[i].subject.agent == a ==>
         service.tasks[i].createdAt < Truncate(Day, begin) {
      NothingSince(service.tasks, a, Truncate(Day, begin));
    }
    r := service.Admit(identity, order, begin);
  }

  const MIN: int := -0x8000_0000_0000_0000
  const MAX: int := 0x7fff_ffff_ffff_ffff
}
