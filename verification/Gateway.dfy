/** All protocols together, over the one agent table that they share: review and policy updates, request
    authentication, binding, task admission and settling, and the key life cycle of every agent. */
module Gateway {
  import opened Httpx
  import opened Identity
  import Bindings
  import Calendar
  import KeyRuns
  import Keys
  import Ledger
  import Replay
  import Tasks

  // ---------- steps ----------

  datatype State = State(agents: Agents, bindings: Bindings.Table, replay: Replay.State, ledger: Ledger.State,
                         keys: map<string, KeyRuns.State>)

  const INIT := State(map[], map[], Replay.INIT, Ledger.INIT, map[])

  datatype Event =
    | Reviewed(identity: Identity.Event)
    | Asked(replay: Replay.Event)
    | Bind(agent: string, binding: Bindings.Binding)
    | Worked(ledger: Ledger.Event)
    | Keyed(agent: string, key: KeyRuns.Event)

  function KeyState(s: State, a: string): KeyRuns.State {
    if a in s.keys then s.keys[a] else KeyRuns.INIT
  }

  ghost function Step(skew: real, s: State, e: Event): State {
    match e
    case Reviewed(i) => s.(agents := Identity.Step(s.agents, i))
    case Asked(q) => s.(replay := Replay.Step(skew, s.agents, s.replay, q))
    case Bind(a, b) => s.(bindings := Bindings.Bound(s.agents, s.bindings, a, b))
    case Worked(l) => s.(ledger := Ledger.Step(s.agents, s.ledger, l))
    case Keyed(a, k) => s.(keys := s.keys[a := KeyRuns.Step(s.agents, a, KeyState(s, a), k)])
  }

  /** The state after the first n events. */
  ghost function After(skew: real, run: seq<Event>, n: nat): State
    requires n <= |run|
  {
    if n == 0 then INIT else Step(skew, After(skew, run, n - 1), run[n - 1])
  }

  // ---------- the protocols within a run ----------

  /** The steps of the ledger, each with the agent table it saw. */
  ghost function LedgerPart(skew: real, run: seq<Event>, n: nat): seq<Ledger.Moment>
    requires n <= |run|
  {
    if n == 0 then []
    else if run[n - 1].Worked?
    then LedgerPart(skew, run, n - 1) + [Ledger.Moment(After(skew, run, n - 1).agents, run[n - 1].ledger)]
    else LedgerPart(skew, run, n - 1)
  }

  ghost function KeyPart(skew: real, run: seq<Event>, n: nat, a: string): seq<KeyRuns.Moment>
    requires n <= |run|
  {
    if n == 0 then []
    else if run[n - 1].Keyed? && run[n - 1].agent == a
    then KeyPart(skew, run, n - 1, a) + [KeyRuns.Moment(After(skew, run, n - 1).agents, run[n - 1].key)]
    else KeyPart(skew, run, n - 1, a)
  }

  lemma {:induction false} LedgerRunAppend(s: Ledger.State, run: seq<Ledger.Moment>, m: Ledger.Moment)
    ensures Ledger.Run(s, run + [m]) == Ledger.Step(m.agents, Ledger.Run(s, run), m.event)
    decreases |run|
  {
    if run == [] {
      assert ([m])[1..] == [];
      assert run + [m] == [m];
    } else {
      assert (run + [m])[1..] == run[1..] + [m];
      LedgerRunAppend(Ledger.Step(run[0].agents, s, run[0].event), run[1..], m);
    }
  }

  lemma {:induction false} KeyRunAppend(a: string, s: KeyRuns.State, run: seq<KeyRuns.Moment>, m: KeyRuns.Moment)
    ensures KeyRuns.Run(a, s, run + [m]) == KeyRuns.Step(m.agents, a, KeyRuns.Run(a, s, run), m.event)
    decreases |run|
  {
    if run == [] {
      assert ([m])[1..] == [];
      assert run + [m] == [m];
    } else {
      assert (run + [m])[1..] == run[1..] + [m];
      KeyRunAppend(a, KeyRuns.Step(run[0].agents, a, s, run[0].event), run[1..], m);
    }
  }

  lemma {:induction false} LedgerProjects(skew: real, run: seq<Event>, n: nat)
    requires n <= |run|
    ensures After(skew, run, n).ledger == Ledger.Run(Ledger.INIT, LedgerPart(skew, run, n))
  {
    if n > 0 {
      LedgerProjects(skew, run, n - 1);
      if run[n - 1].Worked? {
        LedgerRunAppend(Ledger.INIT, LedgerPart(skew, run, n - 1),
                        Ledger.Moment(After(skew, run, n - 1).agents, run[n - 1].ledger));
      }
    }
  }

  lemma {:induction false} KeysProject(skew: real, run: seq<Event>, n: nat, a: string)
    requires n <= |run|
    ensures KeyState(After(skew, run, n), a) == KeyRuns.Run(a, KeyRuns.INIT, KeyPart(skew, run, n, a))
  {
    if n > 0 {
      KeysProject(skew, run, n - 1, a);
      if run[n - 1].Keyed? && run[n - 1].agent == a {
        KeyRunAppend(a, KeyRuns.INIT, KeyPart(skew, run, n - 1, a),
                     KeyRuns.Moment(After(skew, run, n - 1).agents, run[n - 1].key));
      }
    }
  }

  /** The invariants of the ledger and of every agent's key hold in every reachable state. */
  lemma {:induction false} InvariantsHold(skew: real, run: seq<Event>, n: nat, a: string)
    requires n <= |run|
    ensures Ledger.Inv(After(skew, run, n).ledger) && KeyRuns.Inv(KeyState(After(skew, run, n), a))
  {
    LedgerProjects(skew, run, n);
    Ledger.RunKeepsInv(Ledger.INIT, LedgerPart(skew, run, n));
    KeysProject(skew, run, n, a);
    KeyRuns.RunKeepsInv(a, KeyRuns.INIT, KeyPart(skew, run, n, a));
  }

  // ---------- main results: budgets under policy updates ----------

  lemma {:induction false} LedgerPartSees(skew: real, run: seq<Event>, n: nat, a: string, w: Calendar.Window, cap: int)
    requires n <= |run|
    requires forall k :: 0 <= k < n && a in After(skew, run, k).agents ==>
               Ledger.Limit(w, After(skew, run, k).agents[a].policy) <= cap
    ensures forall i :: 0 <= i < |LedgerPart(skew, run, n)| && a in LedgerPart(skew, run, n)[i].agents ==>
              Ledger.Limit(w, LedgerPart(skew, run, n)[i].agents[a].policy) <= cap
  {
    if n > 0 { LedgerPartSees(skew, run, n - 1, a, w, cap); }
  }

  /** Whatever the administrators update meanwhile: if no policy in force so far allowed an agent more
      than a cap per window, its charges in that window, and those of the calls made, are within it. */
  lemma {:induction false} BudgetsHold(skew: real, run: seq<Event>, n: nat, a: string, w: Calendar.Window,
                                       start: Calendar.Stamp, cap: int)
    requires n <= |run| && cap >= 0
    requires forall k :: 0 <= k < n && a in After(skew, run, k).agents ==>
               Ledger.Limit(w, After(skew, run, k).agents[a].policy) <= cap
    ensures var s := After(skew, run, n).ledger;
      && Ledger.WindowTotal(s.tasks, a, w, start) <= cap
      && Ledger.CalledTotal(s, |s.tasks|, a, w, start) <= cap
  {
    LedgerPartSees(skew, run, n, a, w, cap);
    LedgerProjects(skew, run, n);
    Ledger.BudgetUnderCap(LedgerPart(skew, run, n), a, w, start, cap);
    Ledger.CallsAreSafe(LedgerPart(skew, run, n), a, w, start, cap);
  }

  // ---------- main results: revocation ----------

  /** The step does something for the agent that only an approved agent may: a request of its is
      authenticated, it is bound, a task of its is admitted or started, a key is reserved for it or made
      ACTIVE. */
  ghost predicate Acts(skew: real, s: State, e: Event, a: string) {
    var s' := Step(skew, s, e);
    match e
    case Reviewed(_) => false
    case Asked(q) => q.Authenticate? && q.q.agent == a && s'.replay.accepted != s.replay.accepted
    case Bind(b, binding) => b == a && Bindings.Bindable(s.agents, s.bindings, a, binding.user)
    case Worked(_) => Ledger.AgentAdvances(s.ledger, s'.ledger, a)
    case Keyed(b, _) =>
      && b == a
      && var k, k' := KeyState(s, a), KeyState(s', a);
         k'.reservation != k.reservation || (k'.row.Some? && k'.row.value.status == Keys.LIVE && k'.row != k.row)
  }

  lemma {:induction false} InactiveDoesNotAct(skew: real, s: State, e: Event, a: string)
    requires !Active(s.agents, a) && Ledger.Inv(s.ledger) && KeyRuns.Inv(KeyState(s, a))
    ensures !Acts(skew, s, e, a)
  {
    match e
    case Worked(l) => Ledger.InactiveStalls(s.agents, s.ledger, l, a);
    case Keyed(b, k) => if b == a { KeyRuns.InactiveGetsNoKey(s.agents, a, KeyState(s, a), k); }
    case _ =>
  }

  lemma {:induction false} RevokedStays(skew: real, run: seq<Event>, n: nat, k: nat, a: string)
    requires n <= k <= |run| && Revoked(After(skew, run, n).agents, a)
    ensures Revoked(After(skew, run, k).agents, a)
    decreases k
  {
    if k > n { RevokedStays(skew, run, n, k - 1, a); }
  }

  /** After a revocation is committed, the agent stays revoked, and no later step authenticates, binds,
      admits or starts a task, reserves a key or makes a key ACTIVE for it. */
  lemma {:induction false} RevocationIsFinal(skew: real, run: seq<Event>, n: nat, k: nat, a: string)
    requires n <= k < |run| && Revoked(After(skew, run, n).agents, a)
    ensures Revoked(After(skew, run, k).agents, a) && !Acts(skew, After(skew, run, k), run[k], a)
  {
    RevokedStays(skew, run, n, k, a);
    InvariantsHold(skew, run, k, a);
    InactiveDoesNotAct(skew, After(skew, run, k), run[k], a);
  }

  /** The log of the ledger only grows, and the agents of its rows do not change. */
  ghost predicate Grown(s: Ledger.State, s': Ledger.State) {
    && s.log <= s'.log && |s.tasks| <= |s'.tasks|
    && forall i :: 0 <= i < |s.tasks| ==> s'.tasks[i].subject == s.tasks[i].subject
  }

  lemma {:induction false} StepGrows(agents: Agents, s: Ledger.State, e: Ledger.Event)
    ensures Grown(s, Ledger.Step(agents, s, e))
  {
    var s' := Ledger.Step(agents, s, e);
    Ledger.StepKeepsCharges(agents, s, e);
    assert forall i | 0 <= i < |s.tasks| :: s'.tasks[..|s.tasks|][i] == s'.tasks[i];
  }

  /** Between two points of the log, nothing but calls was logged for the agent. */
  ghost predicate OnlyCalls(s: Ledger.State, s': Ledger.State, a: string) {
    forall k :: |s.log| <= k < |s'.log| && !s'.log[k].Called? ==>
      s'.log[k].id < |s'.tasks| && s'.tasks[s'.log[k].id].subject.agent != a
  }

  lemma {:induction false} OnlyCallsExtended(s: Ledger.State, s1: Ledger.State, s2: Ledger.State, a: string)
    requires Grown(s, s1) && Grown(s1, s2) && OnlyCalls(s, s1, a)
    requires Ledger.LogOk(s2.log, |s2.tasks|) && !Ledger.AgentAdvances(s1, s2, a)
    ensures Grown(s, s2) && OnlyCalls(s, s2, a)
  {
    forall k | |s.log| <= k < |s2.log| && !s2.log[k].Called?
      ensures s2.log[k].id < |s2.tasks| && s2.tasks[s2.log[k].id].subject.agent != a
    {
      if k < |s1.log| { assert s2.log[k] == s1.log[k]; }
    }
  }

  /** The ledger moves on, but not for the agent. */
  ghost predicate Passed(s: Ledger.State, s': Ledger.State, a: string) {
    Grown(s, s') && Ledger.LogOk(s'.log, |s'.tasks|) && !Ledger.AgentAdvances(s, s', a)
  }

  lemma {:induction false} StepPasses(skew: real, s: State, e: Event, a: string)
    requires !Acts(skew, s, e, a) && Ledger.Inv(s.ledger)
    ensures Passed(s.ledger, Step(skew, s, e).ledger, a)
  {
    if e.Worked? {
      StepGrows(s.agents, s.ledger, e.ledger);
      Ledger.StepKeepsInv(s.agents, s.ledger, e.ledger);
    }
  }

  lemma {:induction false} LedgerPasses(skew: real, run: seq<Event>, n: nat, k: nat, a: string)
    requires n <= k < |run| && Revoked(After(skew, run, n).agents, a)
    ensures Passed(After(skew, run, k).ledger, After(skew, run, k + 1).ledger, a)
  {
    InvariantsHold(skew, run, k, a);
    RevocationIsFinal(skew, run, n, k, a);
    StepPasses(skew, After(skew, run, k), run[k], a);
  }

  lemma {:induction false} ChainPasses(states: seq<Ledger.State>, a: string)
    requires |states| >= 1
    requires forall i :: 0 <= i < |states| - 1 ==> Passed(states[i], states[i + 1], a)
    ensures Grown(states[0], states[|states| - 1]) && OnlyCalls(states[0], states[|states| - 1], a)
  {
    var m := |states| - 1;
    if m > 0 {
      ChainPasses(states[..m], a);
      assert Passed(states[m - 1], states[m], a);
      OnlyCallsExtended(states[0], states[m - 1], states[m], a);
    }
  }

  lemma {:induction false} OnlyCallsAfterRevoke(skew: real, run: seq<Event>, n: nat, k: nat, a: string)
    requires n <= k <= |run| && Revoked(After(skew, run, n).agents, a)
    ensures Grown(After(skew, run, n).ledger, After(skew, run, k).ledger)
    ensures OnlyCalls(After(skew, run, n).ledger, After(skew, run, k).ledger, a)
  {
    var states := seq(k - n + 1, i requires 0 <= i < k - n + 1 => After(skew, run, n + i).ledger);
    forall i | 0 <= i < k - n ensures Passed(states[i], states[i + 1], a) {
      LedgerPasses(skew, run, n, n + i, a);
    }
    ChainPasses(states, a);
  }

  /** After a revocation, the model is called only for tasks of the agent that were started before it,
      while the agent might act. */
  lemma {:induction false} LateCallsWereStarted(skew: real, run: seq<Event>, n: nat, k: nat, a: string, c: nat)
    requires n <= k <= |run| && Revoked(After(skew, run, n).agents, a)
    requires var s' := After(skew, run, k).ledger;
      && |After(skew, run, n).ledger.log| <= c < |s'.log| && s'.log[c].Called?
      && s'.log[c].id < |s'.tasks| && s'.tasks[s'.log[c].id].subject.agent == a
    ensures var log, id := After(skew, run, n).ledger.log, After(skew, run, k).ledger.log[c].id;
      exists j, actor: Agent :: 0 <= j < |log| && log[j] == Ledger.StartedBy(id, actor) && Ledger.MayAct(actor)
  {
    var s, s' := After(skew, run, n).ledger, After(skew, run, k).ledger;
    var id := s'.log[c].id;
    InvariantsHold(skew, run, k, a);
    OnlyCallsAfterRevoke(skew, run, n, k, a);
    assert Ledger.StartedBefore(s'.log, id, c);
    var j, actor: Agent :| 0 <= j < c && j < |s'.log| && s'.log[j] == Ledger.StartedBy(id, actor)
                           && Ledger.MayAct(actor) && Ledger.AdmittedBefore(s'.log, id, j);
    assert s'.log[j].id == id && !s'.log[j].Called?;
    assert j < |s.log|;
    assert s.log[j] == s'.log[j];
  }

  // ---------- main results: bindings ----------

  /** The Kovar user that an agent acts for never changes. */
  lemma {:induction false} UserNeverChanges(skew: real, run: seq<Event>, n: nat, k: nat, a: string)
    requires n <= k <= |run| && a in After(skew, run, n).bindings
    ensures a in After(skew, run, k).bindings
    ensures After(skew, run, k).bindings[a].user == After(skew, run, n).bindings[a].user
    decreases k
  {
    if k > n { UserNeverChanges(skew, run, n, k - 1, a); }
  }
}
