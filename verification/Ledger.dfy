/** Every interleaving of task requests: any number of `Create` and `Get` calls in flight, each locked
    transaction one step, with crashes at any point and replies of the database or of upstream lost. */
module Ledger {
  import opened Httpx
  import opened Json
  import opened Identity
  import opened Budget
  import opened Calendar
  import opened Outcome
  import opened Tasks

  // ---------- state ----------

  /** How far a `Create` call has come. */
  datatype Pc =
    | Quoted                                   // priced from unlocked snapshots
    | Begun(begin: Stamp)                      // transaction begun, agent row not yet locked
    | Committed(id: TaskId)                    // row inserted
    | Startable(id: TaskId)                    // RUNNING committed, call not yet sent
    | Unstarted(id: TaskId, cause: Code)       // start refused, or its commit reply lost
    | Calling(id: TaskId)                      // the billable call has been sent

  datatype Request = Request(order: Order, pc: Pc)

  /** A `Get` call that found a running video and asks the provider about it. */
  datatype Poll = Poll(id: TaskId, row: Task)

  /** History: what was committed or sent, in order. */
  datatype Entry =
    | Admitted(id: TaskId)
    | StartedBy(id: TaskId, agent: Agent)
    | Called(id: TaskId)

  /** `limits` and `log` are history: the policy each row was admitted under, and the order of events. */
  datatype State = State(tasks: seq<Task>, records: map<TaskId, UsageRecord>,
                         requests: map<nat, Request>, polls: map<nat, Poll>,
                         limits: seq<Policy>, log: seq<Entry>)

  const INIT := State([], map[], map[], map[], [], [])

  // ---------- steps ----------

  datatype Event =
    | Arrive(r: nat, order: Order)
    | Begin(r: nat, begin: Stamp)
    | Admit(r: nat)
    | Start(r: nat, now: Stamp, replyLost: bool)
    | Call(r: nat)
    | Finish(r: nat, textual: bool, reply: Reply, cancelled: bool, now: Stamp)
    | PollRead(p: nat, agent: string, id: TaskId)
    | PollFinish(p: nat, raw: Json, now: Stamp)
    | Drop(r: nat)
    | DropPoll(p: nat)

  function PcTask(pc: Pc): Option<TaskId> {
    match pc
    case Quoted => None
    case Begun(_) => None
    case Committed(id) => Some(id)
    case Startable(id) => Some(id)
    case Unstarted(id, _) => Some(id)
    case Calling(id) => Some(id)
  }

  function Settled(s: State, id: TaskId, subject: Subject, f: Finishing, now: Stamp): State
    requires id < |s.tasks|
  {
    s.(tasks := s.tasks[id := Finished(s.tasks[id], f, now)],
       records := Recorded(s.records, id, s.tasks[id], subject, f))
  }

  /** Whether the event can happen in the state; an event that cannot is ignored by Step. */
  predicate Enabled(s: State, e: Event) {
    match e
    case Arrive(r, _) => r !in s.requests
    case Begin(r, _) => r in s.requests && s.requests[r].pc.Quoted?
    case Admit(r) => r in s.requests && s.requests[r].pc.Begun?
    case Start(r, _, _) => r in s.requests && s.requests[r].pc.Committed? && s.requests[r].pc.id < |s.tasks|
    case Call(r) => r in s.requests && s.requests[r].pc.Startable?
    case Finish(r, _, _, _, _) =>
      && r in s.requests && (s.requests[r].pc.Unstarted? || s.requests[r].pc.Calling?)
      && s.requests[r].pc.id < |s.tasks|
    case PollRead(p, agent, id) =>
      && p !in s.polls && id < |s.tasks| && s.tasks[id].subject.agent == agent
      && s.tasks[id].subject.taskType == "video" && s.tasks[id].status == RUNNING && s.tasks[id].provider.Some?
    case PollFinish(p, _, _) => p in s.polls && s.polls[p].id < |s.tasks| && s.polls[p].row.provider.Some?
    case Drop(r) => r in s.requests
    case DropPoll(p) => p in s.polls
  }

  ghost function Step(agents: Agents, s: State, e: Event): State {
    if !Enabled(s, e) then s
    else
      match e
      case Arrive(r, order) => s.(requests := s.requests[r := Request(order, Quoted)])
      case Begin(r, begin) => s.(requests := s.requests[r := s.requests[r].(pc := Begun(begin))])
      case Admit(r) =>
        var q := s.requests[r];
        if Admissible(agents, s.tasks, q.order, q.pc.begin) then
          var id := |s.tasks|;
          s.(tasks := s.tasks + [NewRow(q.order, q.pc.begin)],
             limits := s.limits + [agents[q.order.subject.agent].policy],
             log := s.log + [Admitted(id)],
             requests := s.requests[r := q.(pc := Committed(id))])
        else s.(requests := s.requests - {r})
      case Start(r, now, replyLost) =>
        var q := s.requests[r];
        var id, a := q.pc.id, q.order.subject.agent;
        if Active(agents, a) && s.tasks[id].status == CREATED then
          s.(tasks := s.tasks[id := Started(s.tasks[id], now)],
             log := s.log + [StartedBy(id, agents[a])],
             requests := s.requests[r := q.(pc := if replyLost then Unstarted(id, INTERNAL_ERROR) else Startable(id))])
        else s.(requests := s.requests[r := q.(pc := Unstarted(id, StartError(agents, a)))])
      case Call(r) =>
        var q := s.requests[r];
        s.(log := s.log + [Called(q.pc.id)], requests := s.requests[r := q.(pc := Calling(q.pc.id))])
      case Finish(r, textual, reply, cancelled, now) =>
        var q := s.requests[r];
        var f := if q.pc.Unstarted? then Finishing(FAILED, None, None, NO_USAGE, Some(q.pc.cause))
                 else Settle(q.order.subject.taskType, textual, reply, cancelled);
        Settled(s, q.pc.id, q.order.subject, f, now).(requests := s.requests - {r})
      case PollRead(p, _, id) => s.(polls := s.polls[p := Poll(id, s.tasks[id])])
      case PollFinish(p, raw, now) =>
        var q := s.polls[p];
        var f := SettlePoll(q.row.provider.value, raw);
        var next := if f.None? then s else Settled(s, q.id, q.row.subject, f.value, now);
        next.(polls := s.polls - {p})
      case Drop(r) => s.(requests := s.requests - {r})
      case DropPoll(p) => s.(polls := s.polls - {p})
  }

  function StartError(agents: Agents, a: string): Code {
    if a !in agents then AGENT_NOT_FOUND
    else if StatusError(agents[a]).Some? then StatusError(agents[a]).value.code
    else TASK_ALREADY_STARTED
  }

  /** One step of a run, with the agent table it sees; that table may change in any way in between. */
  datatype Moment = Moment(agents: Agents, event: Event)

  ghost function Run(s: State, run: seq<Moment>): State
    decreases |run|
  {
    if run == [] then s else Run(Step(run[0].agents, s, run[0].event), run[1..])
  }

  // ---------- invariant ----------

  /** A row is terminal iff it has its usage record and a completion time, and the record repeats it. */
  ghost predicate RowOk(t: Task, id: TaskId, records: map<TaskId, UsageRecord>) {
    && (t.status in TERMINAL <==> id in records)
    && (t.status in TERMINAL <==> t.completedAt.Some?)
    && (t.error.Some? <==> t.status == FAILED || t.status == CANCELLED)
    && (id in records ==> records[id] == UsageRecord(t.subject, t.usage))
    && t.subject.estimate >= 0 && t.actual.None?
  }

  ghost predicate RowsOk(s: State) {
    && (forall id :: 0 <= id < |s.tasks| ==> RowOk(s.tasks[id], id, s.records))
    && (forall id :: id in s.records ==> id < |s.tasks|)
  }

  ghost predicate KeysUnique(s: State) {
    forall i, j :: 0 <= i < j < |s.tasks| ==>
      s.tasks[i].subject.agent != s.tasks[j].subject.agent || s.tasks[i].key != s.tasks[j].key
  }

  /** A request that owns a task brought its order, and no other request owns the task. */
  ghost predicate OwnersOk(s: State) {
    && (forall r :: r in s.requests && PcTask(s.requests[r].pc).Some? ==>
          var id := PcTask(s.requests[r].pc).value;
          id < |s.tasks| && s.tasks[id].subject == s.requests[r].order.subject)
    && (forall r, q :: r in s.requests && q in s.requests && r != q && PcTask(s.requests[r].pc).Some? ==>
          PcTask(s.requests[r].pc) != PcTask(s.requests[q].pc))
    && (forall p :: p in s.polls ==>
          s.polls[p].id < |s.tasks| && s.tasks[s.polls[p].id].subject == s.polls[p].row.subject)
  }

  function Limit(w: Window, p: Policy): int {
    match w
    case Day => p.daily as int
    case Month => p.monthly as int
  }

  /** What the rows charge an agent in one calendar window. */
  function WindowTotal(tasks: seq<Task>, a: string, w: Window, start: Stamp): int {
    Sum(tasks, (t: Task) => t.subject.agent == a && Truncate(w, t.createdAt) == start)
  }

  /** Up to each row, its window stays within the limit the row was admitted under. */
  ghost predicate WindowsOk(s: State) {
    && |s.limits| == |s.tasks|
    && forall w: Window, id :: 0 <= id < |s.tasks| ==> RowWithinLimit(s, w, id)
  }

  ghost predicate RowWithinLimit(s: State, w: Window, id: TaskId)
    requires id < |s.tasks| == |s.limits|
  {
    var t := s.tasks[id];
    WindowTotal(s.tasks[..id + 1], t.subject.agent, w, Truncate(w, t.createdAt)) <= Limit(w, s.limits[id])
  }

  ghost predicate MayAct(a: Agent) {
    a.status == ACTIVE && a.whitelist == APPROVED
  }

  ghost predicate AdmittedBefore(log: seq<Entry>, id: TaskId, k: nat) {
    exists i :: 0 <= i < k && i < |log| && log[i] == Admitted(id)
  }

  /** Before position k, the start of the task was committed while its agent might act, and before
      that its row. */
  ghost predicate StartedBefore(log: seq<Entry>, id: TaskId, k: nat) {
    exists j, actor: Agent ::
      0 <= j < k && j < |log| && log[j] == StartedBy(id, actor) && MayAct(actor) && AdmittedBefore(log, id, j)
  }

  ghost predicate LogOk(log: seq<Entry>, n: nat) {
    && (forall k :: 0 <= k < |log| ==> log[k].id < n)
    && (forall k :: 0 <= k < |log| && log[k].Called? ==> StartedBefore(log, log[k].id, k))
    && (forall j, k :: 0 <= j < k < |log| && log[j].Called? ==> log[j] != log[k])
  }

  /** The task of a request is in the log as far as the request has come, and no further. */
  ghost predicate Logged(log: seq<Entry>, pc: Pc) {
    PcTask(pc).Some? ==>
      var id := PcTask(pc).value;
      && AdmittedBefore(log, id, |log|)
      && (pc.Startable? ==> StartedBefore(log, id, |log|))
      && (!pc.Calling? ==> Called(id) !in log)
  }

  ghost predicate RequestsLogged(s: State) {
    forall r :: r in s.requests ==> Logged(s.log, s.requests[r].pc)
  }

  ghost predicate Inv(s: State) {
    RowsOk(s) && KeysUnique(s) && OwnersOk(s) && WindowsOk(s) && LogOk(s.log, |s.tasks|) && RequestsLogged(s)
  }

  // ---------- sums ----------

  lemma {:induction false} SumSame(tasks: seq<Task>, tasks': seq<Task>, p: Task -> bool)
    requires |tasks| == |tasks'|
    requires forall i :: 0 <= i < |tasks| ==> p(tasks[i]) == p(tasks'[i]) && Cost(tasks[i]) == Cost(tasks'[i])
    ensures Sum(tasks, p) == Sum(tasks', p)
  {
    if tasks != [] { SumSame(tasks[..|tasks| - 1], tasks'[..|tasks| - 1], p); }
  }

  lemma {:induction false} SumMonotone(tasks: seq<Task>, p: Task -> bool, q: Task -> bool)
    requires forall i :: 0 <= i < |tasks| ==> Cost(tasks[i]) >= 0 && (p(tasks[i]) ==> q(tasks[i]))
    ensures 0 <= Sum(tasks, p) <= Sum(tasks, q)
  {
    if tasks != [] { SumMonotone(tasks[..|tasks| - 1], p, q); }
  }

  lemma {:induction false} SumAppend(tasks: seq<Task>, t: Task, p: Task -> bool)
    ensures Sum(tasks + [t], p) == Sum(tasks, p) + if p(t) then Cost(t) as int else 0
  {
    assert (tasks + [t])[..|tasks|] == tasks;
  }

  lemma {:induction false} SumPrefix(tasks: seq<Task>, n: nat, p: Task -> bool)
    requires n <= |tasks| && forall i :: n <= i < |tasks| ==> !p(tasks[i])
    ensures Sum(tasks, p) == Sum(tasks[..n], p)
    decreases |tasks|
  {
    if n == |tasks| {
      assert tasks[..n] == tasks;
    } else {
      var front := tasks[..|tasks| - 1];
      SumPrefix(front, n, p);
      assert front[..n] == tasks[..n];
    }
  }

  // ---------- the invariant is kept ----------

  /** Rows change only in columns that charge nothing. */
  ghost predicate SameCharges(tasks: seq<Task>, tasks': seq<Task>) {
    && |tasks| == |tasks'|
    && forall i :: 0 <= i < |tasks| ==>
         && tasks'[i].subject == tasks[i].subject && tasks'[i].key == tasks[i].key
         && tasks'[i].hash == tasks[i].hash && tasks'[i].createdAt == tasks[i].createdAt
         && tasks'[i].actual == tasks[i].actual
  }

  lemma {:induction false} WindowsKept(s: State, s': State)
    requires WindowsOk(s) && SameCharges(s.tasks, s'.tasks) && s'.limits == s.limits
    ensures WindowsOk(s')
  {
    forall w: Window, id | 0 <= id < |s.tasks| ensures RowWithinLimit(s', w, id) {
      var t := s.tasks[id];
      var start := Truncate(w, t.createdAt);
      assert RowWithinLimit(s, w, id);
      SumSame(s.tasks[..id + 1], s'.tasks[..id + 1],
              (t': Task) => t'.subject.agent == t.subject.agent && Truncate(w, t'.createdAt) == start);
    }
  }

  /** The open-ended SQL window contains the calendar window of every stamp in it. */
  lemma {:induction false} WindowBelowSum(tasks: seq<Task>, a: string, w: Window, t: Stamp)
    requires forall i :: 0 <= i < |tasks| ==> Cost(tasks[i]) >= 0
    ensures 0 <= WindowTotal(tasks, a, w, Truncate(w, t)) <= SumSince(tasks, a, Truncate(w, t))
  {
    var start := Truncate(w, t);
    SumMonotone(tasks, (t': Task) => t'.subject.agent == a && Truncate(w, t'.createdAt) == start,
                (t': Task) => t'.subject.agent == a && t'.createdAt >= start);
  }

  lemma {:induction false} WindowsExtended(agents: Agents, s: State, order: Order, begin: Stamp, s': State)
    requires RowsOk(s) && WindowsOk(s) && Admissible(agents, s.tasks, order, begin)
    requires s'.tasks == s.tasks + [NewRow(order, begin)]
    requires s'.limits == s.limits + [agents[order.subject.agent].policy]
    ensures WindowsOk(s')
  {
    var n, a := |s.tasks|, order.subject.agent;
    assert s'.tasks[..n + 1] == s'.tasks;
    forall w: Window, id | 0 <= id < |s'.tasks| ensures RowWithinLimit(s', w, id) {
      if id < n {
        assert RowWithinLimit(s, w, id);
        assert s'.tasks[..id + 1] == s.tasks[..id + 1];
      } else {
        var start := Truncate(w, begin);
        WindowBelowSum(s.tasks, a, w, begin);
        SumAppend(s.tasks, NewRow(order, begin),
                  (t: Task) => t.subject.agent == a && Truncate(w, t.createdAt) == start);
      }
    }
  }

  lemma {:induction false} SettledKeepsRows(s: State, id: TaskId, subject: Subject, f: Finishing, now: Stamp)
    requires RowsOk(s) && id < |s.tasks| && subject == s.tasks[id].subject && Proper(f)
    ensures RowsOk(Settled(s, id, subject, f, now))
    ensures SameCharges(s.tasks, Settled(s, id, subject, f, now).tasks)
  {
    var s' := Settled(s, id, subject, f, now);
    assert RowOk(s.tasks[id], id, s.records);
    forall i | 0 <= i < |s'.tasks| ensures RowOk(s'.tasks[i], i, s'.records) {
      assert RowOk(s.tasks[i], i, s.records);
    }
  }

  lemma {:induction false} LogPrefix(log: seq<Entry>, e: Entry, id: TaskId, k: nat)
    requires k <= |log|
    ensures AdmittedBefore(log, id, k) ==> AdmittedBefore(log + [e], id, k)
    ensures StartedBefore(log, id, k) ==> StartedBefore(log + [e], id, k)
  {
    var log' := log + [e];
    assert forall i | 0 <= i < |log| :: log'[i] == log[i];
    if StartedBefore(log, id, k) {
      var j, actor: Agent :| 0 <= j < k && j < |log| && log[j] == StartedBy(id, actor) && MayAct(actor)
                             && AdmittedBefore(log, id, j);
      var i :| 0 <= i < j && i < |log| && log[i] == Admitted(id);
      assert log'[i] == Admitted(id);
      assert AdmittedBefore(log', id, j);
      assert log'[j] == StartedBy(id, actor);
    }
    if AdmittedBefore(log, id, k) {
      var i :| 0 <= i < k && i < |log| && log[i] == Admitted(id);
      assert log'[i] == Admitted(id);
    }
  }

  lemma {:induction false} LogLater(log: seq<Entry>, id: TaskId, k: nat, k': nat)
    requires k <= k'
    ensures AdmittedBefore(log, id, k) ==> AdmittedBefore(log, id, k')
    ensures StartedBefore(log, id, k) ==> StartedBefore(log, id, k')
  {
  }

  /** The arguments of `finish` in a step that settles a task. */
  ghost predicate Settles(agents: Agents, s: State, e: Event, id: TaskId, f: Finishing, now: Stamp) {
    && id < |s.tasks| && Proper(f)
    && Step(agents, s, e).tasks == Settled(s, id, s.tasks[id].subject, f, now).tasks
    && Step(agents, s, e).records == Settled(s, id, s.tasks[id].subject, f, now).records
  }

  lemma {:induction false} FinishSettles(agents: Agents, s: State, e: Event)
    returns (id: TaskId, f: Finishing, now: Stamp)
    requires Inv(s) && Enabled(s, e)
    requires e.Finish? || (e.PollFinish? && SettlePoll(s.polls[e.p].row.provider.value, e.raw).Some?)
    ensures Settles(agents, s, e, id, f, now)
  {
    now := e.now;
    if e.Finish? {
      var q := s.requests[e.r];
      id := q.pc.id;
      assert PcTask(q.pc) == Some(id);
      SettlesProperly(q.order.subject.taskType, e.textual, e.reply, e.cancelled);
      f := if q.pc.Unstarted? then Finishing(FAILED, None, None, NO_USAGE, Some(q.pc.cause))
           else Settle(q.order.subject.taskType, e.textual, e.reply, e.cancelled);
    } else {
      var q := s.polls[e.p];
      id := q.id;
      PollProper(q.row.provider.value, e.raw);
      f := SettlePoll(q.row.provider.value, e.raw).value;
    }
  }

  lemma {:induction false} StepKeepsRows(agents: Agents, s: State, e: Event)
    requires Inv(s)
    ensures RowsOk(Step(agents, s, e))
  {
    var s' := Step(agents, s, e);
    if Enabled(s, e) && (e.Finish? || (e.PollFinish? && SettlePoll(s.polls[e.p].row.provider.value, e.raw).Some?)) {
      var id, f, now := FinishSettles(agents, s, e);
      SettledKeepsRows(s, id, s.tasks[id].subject, f, now);
    } else {
      forall i | 0 <= i < |s'.tasks| ensures RowOk(s'.tasks[i], i, s'.records) {
        if i < |s.tasks| { assert RowOk(s.tasks[i], i, s.records); }
      }
    }
  }

  /** No step changes what a row charges, or its key. */
  lemma {:induction false} StepKeepsCharges(agents: Agents, s: State, e: Event)
    ensures |s.tasks| <= |Step(agents, s, e).tasks|
    ensures SameCharges(s.tasks, Step(agents, s, e).tasks[..|s.tasks|])
  {
  }

  lemma {:induction false} StepKeepsWindows(agents: Agents, s: State, e: Event)
    requires Inv(s)
    ensures WindowsOk(Step(agents, s, e)) && KeysUnique(Step(agents, s, e))
  {
    var s' := Step(agents, s, e);
    StepKeepsCharges(agents, s, e);
    if e.Admit? && |s'.tasks| > |s.tasks| {
      var q := s.requests[e.r];
      WindowsExtended(agents, s, q.order, q.pc.begin, s');
    } else {
      assert s'.tasks[..|s.tasks|] == s'.tasks;
      WindowsKept(s, s');
    }
  }

  /** A step that hands out no task keeps the owners. */
  lemma {:induction false} OwnersKept(s: State, s': State)
    requires OwnersOk(s) && |s.tasks| <= |s'.tasks|
    requires forall i :: 0 <= i < |s.tasks| ==> s'.tasks[i].subject == s.tasks[i].subject
    requires forall r :: r in s'.requests && PcTask(s'.requests[r].pc).Some? ==>
               && r in s.requests && s'.requests[r].order == s.requests[r].order
               && PcTask(s'.requests[r].pc) == PcTask(s.requests[r].pc)
    requires forall p :: p in s'.polls ==>
               || (p in s.polls && s'.polls[p] == s.polls[p])
               || (s'.polls[p].id < |s.tasks| && s.tasks[s'.polls[p].id].subject == s'.polls[p].row.subject)
    ensures OwnersOk(s')
  {
  }

  lemma {:induction false} AdmitKeepsOwners(s: State, r: nat, order: Order, t: Task, s': State)
    requires OwnersOk(s) && t.subject == order.subject
    requires s'.tasks == s.tasks + [t] && s'.polls == s.polls
    requires s'.requests == s.requests[r := Request(order, Committed(|s.tasks|))]
    ensures OwnersOk(s')
  {
    assert forall q :: q in s.requests && PcTask(s.requests[q].pc).Some? ==> PcTask(s.requests[q].pc).value < |s.tasks|;
  }

  lemma {:induction false} PollFromRow(agents: Agents, s: State, e: Event, p: nat)
    requires p in Step(agents, s, e).polls
    ensures var q := Step(agents, s, e).polls[p];
      (p in s.polls && q == s.polls[p]) || (q.id < |s.tasks| && s.tasks[q.id].subject == q.row.subject)
  {
  }

  lemma {:induction false} TaskFromRequest(agents: Agents, s: State, e: Event, r: nat)
    requires |Step(agents, s, e).tasks| == |s.tasks|
    requires r in Step(agents, s, e).requests && PcTask(Step(agents, s, e).requests[r].pc).Some?
    ensures var q := Step(agents, s, e).requests[r];
      r in s.requests && q.order == s.requests[r].order && PcTask(q.pc) == PcTask(s.requests[r].pc)
  {
  }

  lemma {:induction false} AdmitStepKeepsOwners(agents: Agents, s: State, r: nat)
    requires Inv(s) && |Step(agents, s, Admit(r)).tasks| > |s.tasks|
    ensures OwnersOk(Step(agents, s, Admit(r)))
  {
    var q := s.requests[r];
    AdmitKeepsOwners(s, r, q.order, NewRow(q.order, q.pc.begin), Step(agents, s, Admit(r)));
  }

  lemma {:induction false} StepKeepsOwners(agents: Agents, s: State, e: Event)
    requires Inv(s)
    ensures OwnersOk(Step(agents, s, e))
  {
    var s' := Step(agents, s, e);
    StepKeepsCharges(agents, s, e);
    if |s'.tasks| > |s.tasks| {
      AdmitStepKeepsOwners(agents, s, e.r);
    } else {
      assert s'.tasks[..|s.tasks|] == s'.tasks;
      forall r | r in s'.requests && PcTask(s'.requests[r].pc).Some?
        ensures && r in s.requests && s'.requests[r].order == s.requests[r].order
                && PcTask(s'.requests[r].pc) == PcTask(s.requests[r].pc)
      {
        TaskFromRequest(agents, s, e, r);
      }
      forall p | p in s'.polls
        ensures || (p in s.polls && s'.polls[p] == s.polls[p])
                || (s'.polls[p].id < |s.tasks| && s.tasks[s'.polls[p].id].subject == s'.polls[p].row.subject)
      {
        PollFromRow(agents, s, e, p);
      }
      OwnersKept(s, s');
    }
  }

  /** A step that logs nothing moves a request at most to where its log entries are the same. */
  lemma {:induction false} LogKept(s: State, s': State)
    requires LogOk(s.log, |s.tasks|) && RequestsLogged(s) && s'.log == s.log && |s.tasks| <= |s'.tasks|
    requires forall r :: r in s'.requests && PcTask(s'.requests[r].pc).Some? ==>
               && r in s.requests && PcTask(s'.requests[r].pc) == PcTask(s.requests[r].pc)
               && (|| s'.requests[r].pc == s.requests[r].pc
                   || (s.requests[r].pc.Committed? && s'.requests[r].pc.Unstarted?))
    ensures LogOk(s'.log, |s'.tasks|) && RequestsLogged(s')
  {
    forall r | r in s'.requests ensures Logged(s'.log, s'.requests[r].pc) {
      if PcTask(s'.requests[r].pc).Some? { assert Logged(s.log, s.requests[r].pc); }
    }
  }

  lemma {:induction false} LogAppended(log: seq<Entry>, n: nat, e: Entry, n': nat)
    requires LogOk(log, n) && n <= n' && e.id < n'
    requires e.Called? ==> StartedBefore(log, e.id, |log|) && e !in log
    ensures LogOk(log + [e], n')
  {
    var log' := log + [e];
    forall k | 0 <= k < |log'| && log'[k].Called? ensures StartedBefore(log', log'[k].id, k) {
      LogPrefix(log, e, log'[k].id, k);
    }
  }

  /** Another request's entry leaves a request logged. */
  lemma {:induction false} OthersLogged(log: seq<Entry>, e: Entry, pc: Pc)
    requires Logged(log, pc) && (e.Called? ==> PcTask(pc) != Some(e.id))
    ensures Logged(log + [e], pc)
  {
    if PcTask(pc).Some? {
      LogPrefix(log, e, PcTask(pc).value, |log|);
      LogLater(log + [e], PcTask(pc).value, |log|, |log| + 1);
    }
  }

  lemma {:induction false} OwnEntryLogged(log: seq<Entry>, e: Entry, pc: Pc, pc': Pc)
    requires PcTask(pc') == Some(e.id) && (PcTask(pc).Some? ==> Logged(log, pc) && PcTask(pc) == PcTask(pc'))
    requires match e
             case Admitted(id) => PcTask(pc).None? && pc'.Committed? && Called(id) !in log
             case StartedBy(id, a) => pc.Committed? && (pc'.Startable? || pc'.Unstarted?) && MayAct(a)
             case Called(id) => pc.Startable? && pc'.Calling?
    ensures Logged(log + [e], pc')
    ensures e.Called? ==> StartedBefore(log, e.id, |log|) && e !in log
  {
    var n, log' := |log|, log + [e];
    LogPrefix(log, e, e.id, n);
    LogLater(log', e.id, n, n + 1);
    assert log'[n] == e;
    if e.StartedBy? { assert StartedBefore(log', e.id, n + 1); }
  }

  lemma {:induction false} EntryKeepsLog(s: State, r: nat, e: Entry, pc': Pc, s': State)
    requires LogOk(s.log, |s.tasks|) && RequestsLogged(s) && OwnersOk(s) && r in s.requests
    requires s'.log == s.log + [e] && |s.tasks| <= |s'.tasks| && e.id < |s'.tasks|
    requires s'.requests == s.requests[r := s.requests[r].(pc := pc')]
    requires PcTask(pc') == Some(e.id) && (e.Admitted? ==> e.id == |s.tasks|)
    requires e.Called? ==> PcTask(s.requests[r].pc) == Some(e.id)
    requires Logged(s.log + [e], pc') && (e.Called? ==> StartedBefore(s.log, e.id, |s.log|) && e !in s.log)
    ensures LogOk(s'.log, |s'.tasks|) && RequestsLogged(s')
  {
    LogAppended(s.log, |s.tasks|, e, |s'.tasks|);
    forall q | q in s'.requests ensures Logged(s'.log, s'.requests[q].pc) {
      if q != r {
        assert Logged(s.log, s.requests[q].pc);
        OthersLogged(s.log, e, s.requests[q].pc);
      }
    }
  }

  lemma {:induction false} AdmitKeepsLog(agents: Agents, s: State, r: nat)
    requires Inv(s) && Enabled(s, Admit(r))
    requires Admissible(agents, s.tasks, s.requests[r].order, s.requests[r].pc.begin)
    ensures var s' := Step(agents, s, Admit(r)); LogOk(s'.log, |s'.tasks|) && RequestsLogged(s')
  {
    var s', id := Step(agents, s, Admit(r)), |s.tasks|;
    assert forall k :: 0 <= k < |s.log| ==> s.log[k].id < |s.tasks|;
    OwnEntryLogged(s.log, Admitted(id), s.requests[r].pc, Committed(id));
    EntryKeepsLog(s, r, Admitted(id), Committed(id), s');
  }

  lemma {:induction false} StartKeepsLog(agents: Agents, s: State, e: Event)
    requires Inv(s) && Enabled(s, e) && e.Start? && Active(agents, s.requests[e.r].order.subject.agent)
    requires s.tasks[s.requests[e.r].pc.id].status == CREATED
    ensures var s' := Step(agents, s, e); LogOk(s'.log, |s'.tasks|) && RequestsLogged(s')
  {
    var s', q := Step(agents, s, e), s.requests[e.r];
    var entry, pc' := StartedBy(q.pc.id, agents[q.order.subject.agent]), s'.requests[e.r].pc;
    assert Logged(s.log, q.pc);
    OwnEntryLogged(s.log, entry, q.pc, pc');
    EntryKeepsLog(s, e.r, entry, pc', s');
  }

  lemma {:induction false} CallKeepsLog(agents: Agents, s: State, r: nat)
    requires Inv(s) && Enabled(s, Call(r))
    ensures var s' := Step(agents, s, Call(r)); LogOk(s'.log, |s'.tasks|) && RequestsLogged(s')
  {
    var s', pc := Step(agents, s, Call(r)), s.requests[r].pc;
    assert Logged(s.log, pc);
    assert PcTask(pc) == Some(pc.id);
    OwnEntryLogged(s.log, Called(pc.id), pc, Calling(pc.id));
    EntryKeepsLog(s, r, Called(pc.id), Calling(pc.id), s');
  }

  lemma {:induction false} StepKeepsLog(agents: Agents, s: State, e: Event)
    requires Inv(s)
    ensures LogOk(Step(agents, s, e).log, |Step(agents, s, e).tasks|) && RequestsLogged(Step(agents, s, e))
  {
    if !Enabled(s, e) {
    } else if e.Admit? && Admissible(agents, s.tasks, s.requests[e.r].order, s.requests[e.r].pc.begin) {
      AdmitKeepsLog(agents, s, e.r);
    } else if e.Start? && Active(agents, s.requests[e.r].order.subject.agent)
              && s.tasks[s.requests[e.r].pc.id].status == CREATED {
      StartKeepsLog(agents, s, e);
    } else if e.Call? {
      CallKeepsLog(agents, s, e.r);
    } else {
      LogKept(s, Step(agents, s, e));
    }
  }

  lemma {:induction false} StepKeepsInv(agents: Agents, s: State, e: Event)
    requires Inv(s)
    ensures Inv(Step(agents, s, e))
  {
    StepKeepsRows(agents, s, e);
    StepKeepsWindows(agents, s, e);
    StepKeepsOwners(agents, s, e);
    StepKeepsLog(agents, s, e);
  }

  lemma {:induction false} RunKeepsInv(s: State, run: seq<Moment>)
    requires Inv(s)
    ensures Inv(Run(s, run))
    decreases |run|
  {
    if run != [] {
      StepKeepsInv(run[0].agents, s, run[0].event);
      RunKeepsInv(Step(run[0].agents, s, run[0].event), run[1..]);
    }
  }

  // ---------- main results: the budget ----------

  ghost predicate InWindow(t: Task, a: string, w: Window, start: Stamp) {
    t.subject.agent == a && Truncate(w, t.createdAt) == start
  }

  ghost predicate LastInWindow(tasks: seq<Task>, a: string, w: Window, start: Stamp, id: TaskId) {
    && id < |tasks| && InWindow(tasks[id], a, w, start)
    && forall j :: id < j < |tasks| ==> !InWindow(tasks[j], a, w, start)
  }

  /** In every reachable state, the charges stamped in a day or a month total at most the limit in
      force when the last of them was admitted, though stamps do not follow commit order. */
  lemma {:induction false} BudgetHolds(run: seq<Moment>, a: string, w: Window, start: Stamp)
    ensures var s := Run(INIT, run);
      && |s.limits| == |s.tasks|
      && (forall id: TaskId :: LastInWindow(s.tasks, a, w, start, id) ==>
            WindowTotal(s.tasks, a, w, start) <= Limit(w, s.limits[id]))
      && ((forall id :: 0 <= id < |s.tasks| ==> !InWindow(s.tasks[id], a, w, start)) ==>
            WindowTotal(s.tasks, a, w, start) == 0)
  {
    RunKeepsInv(INIT, run);
    var s := Run(INIT, run);
    var p := (t: Task) => t.subject.agent == a && Truncate(w, t.createdAt) == start;
    forall id: TaskId | LastInWindow(s.tasks, a, w, start, id)
      ensures WindowTotal(s.tasks, a, w, start) <= Limit(w, s.limits[id])
    {
      assert RowWithinLimit(s, w, id);
      assert forall j | id + 1 <= j < |s.tasks| :: !p(s.tasks[j]) by {
        assert forall j | id + 1 <= j < |s.tasks| :: !InWindow(s.tasks[j], a, w, start);
      }
      SumPrefix(s.tasks, id + 1, p);
    }
    if forall id :: 0 <= id < |s.tasks| ==> !InWindow(s.tasks[id], a, w, start) {
      assert forall j | 0 <= j < |s.tasks| :: !p(s.tasks[j]) by {
        assert forall j | 0 <= j < |s.tasks| :: !InWindow(s.tasks[j], a, w, start);
      }
      SumPrefix(s.tasks, 0, p);
    }
  }

  ghost predicate Capped(s: State, a: string, w: Window, cap: int) {
    && |s.limits| == |s.tasks|
    && forall id :: 0 <= id < |s.tasks| && s.tasks[id].subject.agent == a ==> Limit(w, s.limits[id]) <= cap
  }

  lemma {:induction false} StepKeepsCap(agents: Agents, s: State, e: Event, a: string, w: Window, cap: int)
    requires Capped(s, a, w, cap) && (a in agents ==> Limit(w, agents[a].policy) <= cap)
    ensures Capped(Step(agents, s, e), a, w, cap)
  {
    StepKeepsCharges(agents, s, e);
    var s' := Step(agents, s, e);
    assert forall i | 0 <= i < |s.tasks| :: s'.tasks[..|s.tasks|][i] == s'.tasks[i];
  }

  lemma {:induction false} RunKeepsCap(s: State, run: seq<Moment>, a: string, w: Window, cap: int)
    requires Capped(s, a, w, cap)
    requires forall i :: 0 <= i < |run| && a in run[i].agents ==> Limit(w, run[i].agents[a].policy) <= cap
    ensures Capped(Run(s, run), a, w, cap)
    decreases |run|
  {
    if run != [] {
      StepKeepsCap(run[0].agents, s, run[0].event, a, w, cap);
      RunKeepsCap(Step(run[0].agents, s, run[0].event), run[1..], a, w, cap);
    }
  }

  lemma {:induction false} HasLast(tasks: seq<Task>, a: string, w: Window, start: Stamp, n: nat) returns (id: TaskId)
    requires exists i :: 0 <= i < n <= |tasks| && InWindow(tasks[i], a, w, start)
    requires forall j :: n <= j < |tasks| ==> !InWindow(tasks[j], a, w, start)
    ensures LastInWindow(tasks, a, w, start, id)
    decreases n
  {
    id := n - 1;
    if !InWindow(tasks[id], a, w, start) { id := HasLast(tasks, a, w, start, n - 1); }
  }

  /** Over a run in which no policy of the agent exceeds a cap, no window's charges exceed it. */
  lemma {:induction false} BudgetUnderCap(run: seq<Moment>, a: string, w: Window, start: Stamp, cap: int)
    requires cap >= 0
    requires forall i :: 0 <= i < |run| && a in run[i].agents ==> Limit(w, run[i].agents[a].policy) <= cap
    ensures WindowTotal(Run(INIT, run).tasks, a, w, start) <= cap
  {
    var s := Run(INIT, run);
    BudgetHolds(run, a, w, start);
    RunKeepsCap(INIT, run, a, w, cap);
    if exists i :: 0 <= i < |s.tasks| && InWindow(s.tasks[i], a, w, start) {
      var id := HasLast(s.tasks, a, w, start, |s.tasks|);
    }
  }

  // ---------- main results: the calls ----------

  /** The estimates, in a window, of the first n tasks as far as the model was called for them. */
  ghost function CalledTotal(s: State, n: nat, a: string, w: Window, start: Stamp): int
    requires n <= |s.tasks|
  {
    if n == 0 then 0
    else
      CalledTotal(s, n - 1, a, w, start)
      + if Called(n - 1) in s.log && InWindow(s.tasks[n - 1], a, w, start)
        then s.tasks[n - 1].subject.estimate as int else 0
  }

  lemma {:induction false} CalledBelowCharged(s: State, n: nat, a: string, w: Window, start: Stamp)
    requires RowsOk(s) && n <= |s.tasks|
    ensures CalledTotal(s, n, a, w, start) <= WindowTotal(s.tasks[..n], a, w, start)
  {
    if n > 0 {
      CalledBelowCharged(s, n - 1, a, w, start);
      assert RowOk(s.tasks[n - 1], n - 1, s.records);
      assert s.tasks[..n] == s.tasks[..n - 1] + [s.tasks[n - 1]];
      SumAppend(s.tasks[..n - 1], s.tasks[n - 1],
                (t: Task) => t.subject.agent == a && Truncate(w, t.createdAt) == start);
    }
  }

  ghost predicate SameKey(tasks: seq<Task>, i: TaskId, j: TaskId)
    requires i < |tasks| && j < |tasks|
  {
    tasks[i].subject.agent == tasks[j].subject.agent && tasks[i].key == tasks[j].key
  }

  /** For every agent and idempotency key the model is called at most once, over all interleavings,
      replays and crashes; each call follows a committed row and then a start committed while the agent
      was active; so the calls of a window, too, stay within the cap on its policies. */
  lemma {:induction false} CallsAreSafe(run: seq<Moment>, a: string, w: Window, start: Stamp, cap: int)
    requires cap >= 0
    requires forall i :: 0 <= i < |run| && a in run[i].agents ==> Limit(w, run[i].agents[a].policy) <= cap
    ensures var s := Run(INIT, run);
      && (forall k :: 0 <= k < |s.log| && s.log[k].Called? ==>
            s.log[k].id < |s.tasks| && StartedBefore(s.log, s.log[k].id, k))
      && (forall j, k :: 0 <= j < |s.log| && 0 <= k < |s.log| && s.log[j].Called? && s.log[k].Called? ==>
            SameKey(s.tasks, s.log[j].id, s.log[k].id) ==> j == k)
      && CalledTotal(s, |s.tasks|, a, w, start) <= cap
  {
    RunKeepsInv(INIT, run);
    var s := Run(INIT, run);
    assert s.tasks[..|s.tasks|] == s.tasks;
    CalledBelowCharged(s, |s.tasks|, a, w, start);
    BudgetUnderCap(run, a, w, start, cap);
  }

  // ---------- main results: settling ----------

  ghost function RecordedTotal(records: map<TaskId, UsageRecord>, n: nat): int {
    if n == 0 then 0
    else RecordedTotal(records, n - 1) + if n - 1 in records then records[n - 1].subject.estimate as int else 0
  }

  /** What the first n rows charge, as far as they are terminal. */
  ghost function TerminalTotal(tasks: seq<Task>, n: nat): int
    requires n <= |tasks|
  {
    if n == 0 then 0
    else TerminalTotal(tasks, n - 1) + if tasks[n - 1].status in TERMINAL then Cost(tasks[n - 1]) as int else 0
  }

  lemma {:induction false} RecordedIsTerminal(s: State, n: nat)
    requires RowsOk(s) && n <= |s.tasks|
    ensures RecordedTotal(s.records, n) == TerminalTotal(s.tasks, n)
  {
    if n > 0 {
      RecordedIsTerminal(s, n - 1);
      assert RowOk(s.tasks[n - 1], n - 1, s.records);
    }
  }

  /** In every reachable state, with racing finishers and polls: a task is terminal iff it has its one
      usage record and a completion time, the record repeats its columns, an error code is present iff it
      failed or was cancelled, no record is an orphan, and the recorded estimates total the terminal ones. */
  lemma {:induction false} TasksSettleOnce(run: seq<Moment>)
    ensures var s := Run(INIT, run);
      && (forall id :: 0 <= id < |s.tasks| ==>
            var t := s.tasks[id];
            && (t.status in TERMINAL <==> id in s.records)
            && (t.status in TERMINAL <==> t.completedAt.Some?)
            && (t.error.Some? <==> t.status == FAILED || t.status == CANCELLED)
            && (id in s.records ==> s.records[id] == UsageRecord(t.subject, t.usage)))
      && (forall id :: id in s.records ==> id < |s.tasks|)
      && RecordedTotal(s.records, |s.tasks|) == TerminalTotal(s.tasks, |s.tasks|)
  {
    RunKeepsInv(INIT, run);
    var s := Run(INIT, run);
    forall id | 0 <= id < |s.tasks| ensures RowOk(s.tasks[id], id, s.records) {}
    assert s.tasks[..|s.tasks|] == s.tasks;
    RecordedIsTerminal(s, |s.tasks|);
  }

  lemma {:induction false} TerminalStays(agents: Agents, s: State, e: Event, id: TaskId)
    requires id < |s.tasks| && s.tasks[id].status in TERMINAL && id in s.records
    ensures var s' := Step(agents, s, e);
      id < |s'.tasks| && s'.tasks[id] == s.tasks[id] && id in s'.records && s'.records[id] == s.records[id]
  {
  }

  /** Once terminal, a row and its usage record never change again. */
  lemma {:induction false} TerminalAbsorbs(s: State, run: seq<Moment>, id: TaskId)
    requires id < |s.tasks| && s.tasks[id].status in TERMINAL && id in s.records
    ensures var s' := Run(s, run);
      id < |s'.tasks| && s'.tasks[id] == s.tasks[id] && id in s'.records && s'.records[id] == s.records[id]
    decreases |run|
  {
    if run != [] {
      TerminalStays(run[0].agents, s, run[0].event, id);
      TerminalAbsorbs(Step(run[0].agents, s, run[0].event), run[1..], id);
    }
  }

  lemma {:induction false} RunKeepsCharges(s: State, run: seq<Moment>)
    ensures |s.tasks| <= |Run(s, run).tasks|
    ensures SameCharges(s.tasks, Run(s, run).tasks[..|s.tasks|])
    decreases |run|
  {
    if run == [] {
      assert s.tasks[..|s.tasks|] == s.tasks;
    } else {
      var s1, s2 := Step(run[0].agents, s, run[0].event), Run(s, run);
      StepKeepsCharges(run[0].agents, s, run[0].event);
      RunKeepsCharges(s1, run[1..]);
      forall i | 0 <= i < |s.tasks|
        ensures s1.tasks[..|s.tasks|][i] == s1.tasks[i]
        ensures s2.tasks[..|s.tasks|][i] == s2.tasks[i] == s2.tasks[..|s1.tasks|][i]
      {
      }
    }
  }

  /** A request with a key that was admitted finds the same task ever after, with what was first asked. */
  lemma {:induction false} KeyKeepsItsTask(past: seq<Moment>, future: seq<Moment>, id: TaskId)
    requires id < |Run(INIT, past).tasks|
    ensures var t := Run(INIT, past).tasks[id];
      var tasks := Run(Run(INIT, past), future).tasks;
      && Existing(tasks, t.subject.agent, t.key) == Some(id)
      && tasks[id].subject == t.subject && tasks[id].hash == t.hash
  {
    var s := Run(INIT, past);
    RunKeepsInv(INIT, past);
    RunKeepsInv(s, future);
    RunKeepsCharges(s, future);
    var s' := Run(s, future);
    assert s'.tasks[..|s.tasks|][id] == s'.tasks[id];
  }

  // ---------- undisturbed requests reach their end ----------

  /** The states that a list of events leads through. */
  ghost function Trace(agents: Agents, s: State, events: seq<Event>): (states: seq<State>)
    ensures |states| == |events| + 1 && states[0] == s
    decreases |events|
  {
    if events == [] then [s] else [s] + Trace(agents, Step(agents, s, events[0]), events[1..])
  }

  lemma {:induction false} TraceAt(agents: Agents, s: State, events: seq<Event>, i: nat)
    requires i < |events|
    ensures var states := Trace(agents, s, events); states[i + 1] == Step(agents, states[i], events[i])
    decreases |events|
  {
    if i > 0 { TraceAt(agents, Step(agents, s, events[0]), events[1..], i - 1); }
  }

  function Creation(r: nat, order: Order, begin: Stamp, now: Stamp, textual: bool, reply: Reply, done: Stamp)
    : seq<Event>
  {
    [Arrive(r, order), Begin(r, begin), Admit(r), Start(r, now, false), Call(r), Finish(r, textual, reply, false, done)]
  }

  lemma {:induction false} RequestIsBegun(agents: Agents, s: State, r: nat, order: Order, begin: Stamp, now: Stamp,
                                          textual: bool, reply: Reply, done: Stamp)
    requires r !in s.requests
    ensures Trace(agents, s, Creation(r, order, begin, now, textual, reply, done))[2]
         == s.(requests := s.requests[r := Request(order, Begun(begin))])
  {
    var events := Creation(r, order, begin, now, textual, reply, done);
    TraceAt(agents, s, events, 0);
    TraceAt(agents, s, events, 1);
  }

  lemma {:induction false} RequestIsAdmitted(agents: Agents, s: State, r: nat, order: Order, begin: Stamp, now: Stamp,
                                             textual: bool, reply: Reply, done: Stamp)
    requires r !in s.requests && Admissible(agents, s.tasks, order, begin)
    ensures var s3 := Trace(agents, s, Creation(r, order, begin, now, textual, reply, done))[3];
      && s3.tasks == s.tasks + [NewRow(order, begin)] && s3.log == s.log + [Admitted(|s.tasks|)]
      && s3.requests == s.requests[r := Request(order, Committed(|s.tasks|))] && s3.records == s.records
  {
    RequestIsBegun(agents, s, r, order, begin, now, textual, reply, done);
    TraceAt(agents, s, Creation(r, order, begin, now, textual, reply, done), 2);
  }

  lemma {:induction false} RequestIsStarted(agents: Agents, s: State, r: nat, order: Order, begin: Stamp, now: Stamp,
                                            textual: bool, reply: Reply, done: Stamp)
    requires r !in s.requests && Admissible(agents, s.tasks, order, begin)
    ensures var s4 := Trace(agents, s, Creation(r, order, begin, now, textual, reply, done))[4];
      var id, actor := |s.tasks|, agents[order.subject.agent];
      && s4.tasks == s.tasks + [Started(NewRow(order, begin), now)]
      && s4.log == s.log + [Admitted(id), StartedBy(id, actor)]
      && s4.requests == s.requests[r := Request(order, Startable(id))] && s4.records == s.records
  {
    RequestIsAdmitted(agents, s, r, order, begin, now, textual, reply, done);
    TraceAt(agents, s, Creation(r, order, begin, now, textual, reply, done), 3);
  }

  lemma {:induction false} RequestIsCalled(agents: Agents, s: State, r: nat, order: Order, begin: Stamp, now: Stamp,
                                           textual: bool, reply: Reply, done: Stamp)
    requires r !in s.requests && Admissible(agents, s.tasks, order, begin)
    ensures var s5 := Trace(agents, s, Creation(r, order, begin, now, textual, reply, done))[5];
      var id, actor := |s.tasks|, agents[order.subject.agent];
      && s5.tasks == s.tasks + [Started(NewRow(order, begin), now)]
      && s5.log == s.log + [Admitted(id), StartedBy(id, actor), Called(id)]
      && s5.requests == s.requests[r := Request(order, Calling(id))] && s5.records == s.records
  {
    RequestIsStarted(agents, s, r, order, begin, now, textual, reply, done);
    TraceAt(agents, s, Creation(r, order, begin, now, textual, reply, done), 4);
  }

  /** From any reachable state, an undisturbed request with an admissible order is admitted under its begin
      stamp, started, sent to the model once, and settled as its reply says, with a usage record unless it
      stays running. */
  lemma {:induction false} RequestCompletes(agents: Agents, s: State, r: nat, order: Order, begin: Stamp, now: Stamp,
                                            textual: bool, reply: Reply, done: Stamp)
    requires Inv(s) && r !in s.requests && Admissible(agents, s.tasks, order, begin)
    ensures var s' := Trace(agents, s, [Arrive(r, order), Begin(r, begin), Admit(r), Start(r, now, false), Call(r),
                                        Finish(r, textual, reply, false, done)])[6];
      var id, actor := |s.tasks|, agents[order.subject.agent];
      var f := Settle(order.subject.taskType, textual, reply, false);
      && s'.log == s.log + [Admitted(id), StartedBy(id, actor), Called(id)]
      && |s'.tasks| == id + 1 && s'.tasks[..id] == s.tasks
      && s'.tasks[id] == Task(order.subject, order.key, order.hash, begin, None, f.status, Some(now),
                              if f.status == RUNNING then None else Some(done), f.provider, f.result, f.usage, f.cause)
      && s'.records == if f.status == RUNNING then s.records
                       else s.records[id := UsageRecord(order.subject, f.usage)]
  {
    RequestIsCalled(agents, s, r, order, begin, now, textual, reply, done);
    TraceAt(agents, s, Creation(r, order, begin, now, textual, reply, done), 5);
  }

  // ---------- what the agent gate prevents ----------

  /** Whether the log gained, for the agent's tasks, something other than a call. */
  ghost predicate AgentAdvances(s: State, s': State, a: string) {
    exists k :: |s.log| <= k < |s'.log| && !s'.log[k].Called?
      && s'.log[k].id < |s'.tasks| && s'.tasks[s'.log[k].id].subject.agent == a
  }

  /** An agent that may not act has no task admitted or started. */
  lemma {:induction false} InactiveStalls(agents: Agents, s: State, e: Event, a: string)
    requires Inv(s) && !Active(agents, a)
    ensures !AgentAdvances(s, Step(agents, s, e), a)
  {
    if e.Start? && Enabled(s, e) {
      assert PcTask(s.requests[e.r].pc) == Some(s.requests[e.r].pc.id);
    }
  }
}
