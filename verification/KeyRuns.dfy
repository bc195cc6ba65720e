/** Every interleaving of `CreateKey` and `DeleteKey` calls for one agent, with crashes at any point,
    with upstream requests that are lost, applied late or answered late, and with the agent lock that
    the deletion holds between its read and its write. */
module KeyRuns {
  import opened Httpx
  import opened Identity
  import opened Keys
  import opened Tokens

  // ---------- state ----------

  datatype CreatorPc =
    | Reserved                              // CREATING committed, request not yet sent
    | Posted                                // creation request sent
    | Searching(t: Token)                   // answered without a usable token
    | Identified(id: int)                   // the token is known, its key is being fetched
    | Holding(id: int, secret: string)      // about to finalize
    | Failing                               // about to record the failure

  datatype Creator = Creator(reservation: nat, pc: CreatorPc)

  datatype DeleterPc = Locked | Pending | Sent | Acknowledged

  datatype Deleter = Deleter(id: int, pc: DeleterPc)

  /** `live` are the tokens upstream under the agent's token name; `posts` and `deletes` the requests
      that upstream may still apply. `reservation`, `issued` (which reservation a token stems from) and
      `vanished` (tokens that disappeared upstream by themselves) are history. */
  datatype State = State(row: Option<Row>, lock: Option<nat>, creators: map<nat, Creator>, deleters: map<nat, Deleter>,
                         live: set<int>, posts: set<nat>, deletes: set<int>,
                         reservation: nat, issued: map<int, nat>, vanished: set<int>)

  const INIT := State(None, None, map[], map[], {}, {}, {}, 0, map[], {})

  // ---------- steps ----------

  datatype Event =
    | Reserve(c: nat, opt: KeyOptions, now: int64)
    | SendPost(c: nat)
    | ApplyPost(n: nat, id: int)
    | LosePost(n: nat)
    | PostReply(c: nat, reply: Option<Token>, userId: int)
    | SearchReply(c: nat, found: SearchReply, userId: int)
    | KeyReply(c: nat, secret: Option<string>)
    | Finalize(c: nat, taken: bool)
    | RecordFailure(c: nat)
    | CrashCreator(c: nat)
    | DeleteRead(d: nat)
    | DeleteWrite(d: nat)
    | SendDelete(d: nat)
    | ApplyDelete(id: int)
    | DeleteReply(d: nat, ok: bool)
    | DeleteFinish(d: nat)
    | CrashDeleter(d: nat)
    | Vanish(id: int)

  function TokenName(a: string): string {
    "agent-" + a
  }

  /** Upstream answers truthfully: a success means that the creation was applied, a token it answers
      with is the one created, and tokens listed under the agent's name exist. */
  ghost predicate Truthful(a: string, s: State, e: Event) {
    match e
    case PostReply(c, Some(t), _) =>
      c in s.creators ==>
        && (exists id :: id in s.issued && s.issued[id] == s.creators[c].reservation)
        && (t.id != 0 ==> t.id in s.issued && s.issued[t.id] == s.creators[c].reservation)
    case SearchReply(_, found, _) =>
      SearchItems(found).Ok? ==> forall t :: t in SearchItems(found).value && t.name == TokenName(a) ==> t.id in s.live
    case DeleteReply(d, true) => d in s.deleters ==> s.deleters[d].id !in s.live
    case _ => true
  }

  predicate DeleterAt(s: State, d: nat, pc: DeleterPc) {
    d in s.deleters && s.deleters[d].pc == pc
  }

  ghost predicate Enabled(a: string, s: State, e: Event) {
    Truthful(a, s, e) &&
    match e
    case Reserve(c, _, _) => s.lock.None? && c !in s.creators
    case SendPost(c) => c in s.creators && s.creators[c].pc.Reserved?
    case ApplyPost(n, id) => n in s.posts && id > 0 && id !in s.issued
    case LosePost(n) => n in s.posts
    case PostReply(c, _, _) => c in s.creators && s.creators[c].pc.Posted?
    case SearchReply(c, _, _) => c in s.creators && s.creators[c].pc.Searching?
    case KeyReply(c, _) => c in s.creators && s.creators[c].pc.Identified?
    case Finalize(c, _) => s.lock.None? && c in s.creators && s.creators[c].pc.Holding?
    case RecordFailure(c) => c in s.creators && s.creators[c].pc.Failing?
    case CrashCreator(c) => c in s.creators
    case DeleteRead(d) => s.lock.None? && d !in s.deleters
    case DeleteWrite(d) => DeleterAt(s, d, Locked)
    case SendDelete(d) => DeleterAt(s, d, Pending)
    case ApplyDelete(id) => id in s.deletes
    case DeleteReply(d, _) => DeleterAt(s, d, Sent)
    case DeleteFinish(d) => DeleterAt(s, d, Acknowledged)
    case CrashDeleter(d) => d in s.deleters
    case Vanish(id) => id in s.live
  }

  function Goto(s: State, c: nat, pc: CreatorPc): State
    requires c in s.creators
  {
    s.(creators := s.creators[c := s.creators[c].(pc := pc)])
  }

  /** The identified token, or none: `CreateToken` up to the fetching of the key. */
  ghost function AfterIdentify(a: string, t: Token, found: Result<seq<Token>>, userId: int): CreatorPc {
    if exists x :: Identifies(t, found, TokenName(a), userId, x) then
      var x :| Identifies(t, found, TokenName(a), userId, x);
      Identified(x.id)
    else Failing
  }

  ghost function Step(agents: Agents, a: string, s: State, e: Event): State {
    if !Enabled(a, s, e) then s
    else
      match e
      case Reserve(c, opt, now) =>
        if Active(agents, a) && ValidOptions(agents[a].policy, opt, now) && Reservable(s.row) then
          s.(row := Some(Row(CREATING, None, None)), reservation := s.reservation + 1,
             creators := s.creators[c := Creator(s.reservation + 1, Reserved)])
        else s
      case SendPost(c) => Goto(s, c, Posted).(posts := s.posts + {s.creators[c].reservation})
      case ApplyPost(n, id) => s.(posts := s.posts - {n}, live := s.live + {id}, issued := s.issued[id := n])
      case LosePost(n) => s.(posts := s.posts - {n})
      case PostReply(c, reply, userId) =>
        if reply.None? then Goto(s, c, Failing)
        else if NeedsSearch(reply.value) then Goto(s, c, Searching(reply.value))
        else Goto(s, c, AfterIdentify(a, reply.value, Err(Invalid()), userId))
      case SearchReply(c, found, userId) =>
        Goto(s, c, AfterIdentify(a, s.creators[c].pc.t, SearchItems(found), userId))
      case KeyReply(c, secret) =>
        Goto(s, c, if secret.Some? && FullKey(secret.value)
                   then Holding(s.creators[c].pc.id, secret.value) else Failing)
      case Finalize(c, taken) =>
        var pc := s.creators[c].pc;
        s.(creators := s.creators - {c},
           row := if a !in agents || taken then s.row
                  else Finalized(s.row, pc.id, Prefixed(pc.secret), Active(agents, a)))
      case RecordFailure(c) => s.(creators := s.creators - {c}, row := Failed(s.row))
      case CrashCreator(c) => s.(creators := s.creators - {c})
      case DeleteRead(d) =>
        (match PlanDelete(s.row)
         case Delete(id) =>
           if a in agents then s.(lock := Some(d), deleters := s.deleters[d := Deleter(id, Locked)]) else s
         case _ => s)
      case DeleteWrite(d) =>
        s.(lock := None, deleters := s.deleters[d := s.deleters[d].(pc := Pending)],
           row := if s.row.Some? then Some(s.row.value.(status := DELETE_PENDING)) else None)
      case SendDelete(d) =>
        s.(deletes := s.deletes + {s.deleters[d].id}, deleters := s.deleters[d := s.deleters[d].(pc := Sent)])
      case ApplyDelete(id) => s.(live := s.live - {id})
      case DeleteReply(d, ok) =>
        if ok then s.(deleters := s.deleters[d := s.deleters[d].(pc := Acknowledged)])
        else s.(deleters := s.deleters - {d})
      case DeleteFinish(d) => s.(deleters := s.deleters - {d}, row := Deleted(s.row, s.deleters[d].id))
      case CrashDeleter(d) =>
        s.(deleters := s.deleters - {d}, lock := if s.lock == Some(d) then None else s.lock)
      case Vanish(id) => s.(live := s.live - {id}, vanished := s.vanished + {id})
  }

  datatype Moment = Moment(agents: Agents, event: Event)

  ghost function Run(a: string, s: State, run: seq<Moment>): State
    decreases |run|
  {
    if run == [] then s else Run(a, Step(run[0].agents, a, s, run[0].event), run[1..])
  }

  // ---------- invariant ----------

  predicate Unresolved(row: Option<Row>) {
    row.Some? && (row.value.status == CREATING || row.value.status == UNKNOWN)
  }

  predicate Dying(row: Option<Row>) {
    row.Some? && (row.value.status == DELETE_PENDING || row.value.status == DELETED)
  }

  ghost predicate OfCurrent(s: State, id: int) {
    id in s.issued && s.issued[id] == s.reservation
  }

  /** The row names the token of its reservation as soon as it names one. */
  ghost predicate RowOk(s: State) {
    && (s.row.None? ==> s.reservation == 0 && s.live == {} && s.posts == {})
    && (s.row.Some? ==> (s.row.value.tokenId.None? <==> Unresolved(s.row)))
    && (s.row.Some? && s.row.value.tokenId.Some? ==> OfCurrent(s, s.row.value.tokenId.value))
    && (s.row.Some? && s.row.value.status == LIVE ==> s.row.value.key.Some?)
    && (s.row.Some? && s.row.value.status == DELETED ==> s.live == {})
  }

  /** A reservation sends one request, which is applied at most once; older tokens are gone. */
  ghost predicate UpstreamOk(s: State) {
    && (forall id :: id in s.issued ==> 1 <= s.issued[id] <= s.reservation)
    && (forall x, y :: x in s.issued && y in s.issued && s.issued[x] == s.issued[y] ==> x == y)
    && (forall n :: n in s.posts ==> n == s.reservation && n >= 1 && forall id :: id in s.issued ==> s.issued[id] != n)
    && (forall id :: id in s.live ==> OfCurrent(s, id))
    && (forall id :: OfCurrent(s, id) && !Dying(s.row) ==> id in s.live || id in s.vanished)
  }

  ghost predicate CreatorOk(s: State, c: Creator) {
    && c.reservation == s.reservation && s.reservation >= 1
    && s.row.Some? && s.row.value.status == CREATING
    && (c.pc.Reserved? ==> s.posts == {} && forall id :: id in s.issued ==> s.issued[id] != s.reservation)
    && (c.pc.Searching? && c.pc.t.id != 0 ==> OfCurrent(s, c.pc.t.id))
    && (c.pc.Identified? || c.pc.Holding? ==> OfCurrent(s, c.pc.id))
  }

  ghost predicate CreatorsOk(s: State) {
    && (forall c :: c in s.creators ==> CreatorOk(s, s.creators[c]))
    && (forall c, c' :: c in s.creators && c' in s.creators ==> c == c')
  }

  /** A token that is being deleted is an old one, or the row already says so. */
  ghost predicate Doomed(s: State, id: int) {
    id in s.issued &&
    (s.issued[id] < s.reservation || (s.row.Some? && s.row.value.tokenId == Some(id) && Dying(s.row)))
  }

  ghost predicate DeletersOk(s: State) {
    && (forall d :: d in s.deleters ==>
          if s.deleters[d].pc == Locked
          then s.lock == Some(d) && s.row.Some? && s.row.value.tokenId == Some(s.deleters[d].id)
          else Doomed(s, s.deleters[d].id))
    && (forall d :: d in s.deleters && s.deleters[d].pc == Acknowledged ==> s.deleters[d].id !in s.live)
    && (forall id :: id in s.deletes ==> Doomed(s, id))
    && (s.lock.Some? ==> DeleterAt(s, s.lock.value, Locked))
  }

  ghost predicate Inv(s: State) {
    RowOk(s) && UpstreamOk(s) && CreatorsOk(s) && DeletersOk(s)
  }

  // ---------- the invariant is kept ----------

  lemma {:induction false} IdentifiedIsOwn(a: string, s: State, t: Token, found: Result<seq<Token>>, userId: int)
    requires UpstreamOk(s)
    requires t.id != 0 ==> OfCurrent(s, t.id)
    requires found.Ok? ==> forall x :: x in found.value && x.name == TokenName(a) ==> x.id in s.live
    ensures var pc := AfterIdentify(a, t, found, userId);
            pc.Failing? || (pc.Identified? && OfCurrent(s, pc.id))
  {
    forall x | Identifies(t, found, TokenName(a), userId, x) ensures OfCurrent(s, x.id) {
      if NeedsSearch(t) {
        assert x in Named(found.value, TokenName(a)) by { assert [x][0] == x; }
      }
    }
  }

  lemma {:induction false} AnswerIsOwn(a: string, s: State, e: Event)
    requires Inv(s) && Enabled(a, s, e) && (e.PostReply? || e.SearchReply?)
    ensures e.SearchReply? ==>
      var pc := AfterIdentify(a, s.creators[e.c].pc.t, SearchItems(e.found), e.userId);
      pc.Failing? || (pc.Identified? && OfCurrent(s, pc.id))
    ensures e.PostReply? && e.reply.Some? ==>
      && (e.reply.value.id != 0 ==> OfCurrent(s, e.reply.value.id))
      && (!NeedsSearch(e.reply.value) ==>
            var pc := AfterIdentify(a, e.reply.value, Err(Invalid()), e.userId);
            pc.Failing? || (pc.Identified? && OfCurrent(s, pc.id)))
  {
    assert CreatorOk(s, s.creators[e.c]);
    if e.SearchReply? {
      IdentifiedIsOwn(a, s, s.creators[e.c].pc.t, SearchItems(e.found), e.userId);
    } else if e.reply.Some? && !NeedsSearch(e.reply.value) {
      IdentifiedIsOwn(a, s, e.reply.value, Err(Invalid()), e.userId);
    }
  }

  /** A reservation has only one token. */
  lemma {:induction false} LiveIsOwn(s: State, id: int)
    requires UpstreamOk(s) && OfCurrent(s, id)
    ensures s.live <= {id}
  {
    forall x | x in s.live ensures x == id { assert OfCurrent(s, x); }
  }

  lemma {:induction false} CreateStepKeepsRow(agents: Agents, a: string, s: State, e: Event)
    requires Inv(s) && Enabled(a, s, e) && (e.Finalize? || e.SendPost? || e.RecordFailure? || e.CrashCreator?)
    ensures RowOk(Step(agents, a, s, e))
  {
    assert CreatorOk(s, s.creators[e.c]);
  }

  lemma {:induction false} DeleteStepKeepsRow(agents: Agents, a: string, s: State, e: Event)
    requires Inv(s) && Enabled(a, s, e) && (e.DeleteWrite? || e.DeleteFinish?)
    ensures RowOk(Step(agents, a, s, e))
  {
    var id := s.deleters[e.d].id;
    if e.DeleteFinish? && s.row.Some? && s.row.value.tokenId == Some(id) { LiveIsOwn(s, id); }
  }

  lemma {:induction false} StepKeepsRow(agents: Agents, a: string, s: State, e: Event)
    requires Inv(s)
    ensures RowOk(Step(agents, a, s, e))
  {
    if !Enabled(a, s, e) {
    } else if e.Finalize? || e.SendPost? || e.RecordFailure? || e.CrashCreator? {
      CreateStepKeepsRow(agents, a, s, e);
    } else if e.DeleteWrite? || e.DeleteFinish? {
      DeleteStepKeepsRow(agents, a, s, e);
    }
  }

  /** Steps that leave upstream alone and do not bring a dying row back. */
  lemma {:induction false} UpstreamKept(s: State, s': State)
    requires UpstreamOk(s) && (Dying(s.row) ==> Dying(s'.row))
    requires s'.issued == s.issued && s'.reservation == s.reservation && s'.posts <= s.posts
    requires s'.live == s.live && s'.vanished == s.vanished
    ensures UpstreamOk(s')
  {
  }

  lemma {:induction false} LiveSetShrinks(agents: Agents, a: string, s: State, e: Event)
    requires Inv(s) && Enabled(a, s, e) && (e.ApplyDelete? || e.Vanish?)
    ensures UpstreamOk(Step(agents, a, s, e))
  {
    if e.ApplyDelete? { assert Doomed(s, e.id); }
  }

  lemma {:induction false} TokenIssued(agents: Agents, a: string, s: State, e: Event)
    requires Inv(s) && Enabled(a, s, e) && e.ApplyPost?
    ensures UpstreamOk(Step(agents, a, s, e))
  {
  }

  lemma {:induction false} ReservationTurns(agents: Agents, a: string, s: State, e: Event)
    requires Inv(s) && Enabled(a, s, e) && e.Reserve? && Reservable(s.row)
    ensures UpstreamOk(Step(agents, a, s, e))
  {
    assert s.row.Some? ==> OfCurrent(s, s.row.value.tokenId.value);
  }

  lemma {:induction false} StepKeepsUpstream(agents: Agents, a: string, s: State, e: Event)
    requires Inv(s)
    ensures UpstreamOk(Step(agents, a, s, e))
  {
    var s' := Step(agents, a, s, e);
    if !Enabled(a, s, e) || (e.Reserve? && !Reservable(s.row)) {
    } else if e.ApplyDelete? || e.Vanish? {
      LiveSetShrinks(agents, a, s, e);
    } else if e.ApplyPost? {
      TokenIssued(agents, a, s, e);
    } else if e.Reserve? {
      ReservationTurns(agents, a, s, e);
    } else if e.SendPost? {
      assert CreatorOk(s, s.creators[e.c]);
    } else {
      UpstreamKept(s, s');
    }
  }

  lemma {:induction false} CreateStepKeepsCreators(agents: Agents, a: string, s: State, e: Event)
    requires Inv(s) && Enabled(a, s, e)
    requires || e.SendPost? || e.PostReply? || e.SearchReply? || e.KeyReply? || e.Finalize? || e.RecordFailure?
             || e.CrashCreator?
    ensures CreatorsOk(Step(agents, a, s, e))
  {
    assert CreatorOk(s, s.creators[e.c]);
    if e.PostReply? || e.SearchReply? {
      AnswerIsOwn(a, s, e);
    }
  }

  lemma {:induction false} StepKeepsCreators(agents: Agents, a: string, s: State, e: Event)
    requires Inv(s)
    ensures CreatorsOk(Step(agents, a, s, e))
  {
    if !Enabled(a, s, e) {
    } else if e.SendPost? || e.PostReply? || e.SearchReply? || e.KeyReply? || e.Finalize? || e.RecordFailure?
              || e.CrashCreator? {
      CreateStepKeepsCreators(agents, a, s, e);
    }
  }

  /** Steps of creators and of upstream: no deletion moves, and the doomed stay doomed. */
  lemma {:induction false} DeletersKept(s: State, s': State)
    requires DeletersOk(s) && s'.deleters == s.deleters && s'.lock == s.lock && s'.deletes == s.deletes
    requires forall id :: Doomed(s, id) ==> Doomed(s', id)
    requires forall id :: id in s.issued && id in s'.live ==> id in s.live
    requires s.lock.Some? ==> s'.row == s.row
    ensures DeletersOk(s')
  {
  }

  lemma {:induction false} DoomedStays(agents: Agents, a: string, s: State, e: Event, id: int)
    requires Inv(s) && Doomed(s, id)
    ensures Doomed(Step(agents, a, s, e), id)
  {
  }

  lemma {:induction false} CreateStepKeepsDeleters(agents: Agents, a: string, s: State, e: Event)
    requires Inv(s) && Enabled(a, s, e)
    requires !(e.DeleteRead? || e.DeleteWrite? || e.SendDelete? || e.DeleteReply? || e.DeleteFinish? || e.CrashDeleter?)
    ensures DeletersOk(Step(agents, a, s, e))
  {
    var s' := Step(agents, a, s, e);
    forall id | Doomed(s, id) ensures Doomed(s', id) { DoomedStays(agents, a, s, e, id); }
    assert s.lock.Some? ==> !Unresolved(s.row);
    DeletersKept(s, s');
  }

  lemma {:induction false} ReplyStepKeepsDeleters(agents: Agents, a: string, s: State, e: Event)
    requires Inv(s) && Enabled(a, s, e) && (e.DeleteReply? || e.CrashDeleter?)
    ensures DeletersOk(Step(agents, a, s, e))
  {
    var s' := Step(agents, a, s, e);
    forall id | Doomed(s, id) ensures Doomed(s', id) { DoomedStays(agents, a, s, e, id); }
  }

  lemma {:induction false} FinishStepKeepsDeleters(agents: Agents, a: string, s: State, e: Event)
    requires Inv(s) && Enabled(a, s, e) && e.DeleteFinish?
    ensures DeletersOk(Step(agents, a, s, e))
  {
    var s' := Step(agents, a, s, e);
    forall id | Doomed(s, id) ensures Doomed(s', id) { DoomedStays(agents, a, s, e, id); }
  }

  lemma {:induction false} RequestStepKeepsDeleters(agents: Agents, a: string, s: State, e: Event)
    requires Inv(s) && Enabled(a, s, e) && (e.DeleteRead? || e.DeleteWrite? || e.SendDelete?)
    ensures DeletersOk(Step(agents, a, s, e))
  {
    var s' := Step(agents, a, s, e);
    forall id | Doomed(s, id) ensures Doomed(s', id) { DoomedStays(agents, a, s, e, id); }
  }

  lemma {:induction false} StepKeepsDeleters(agents: Agents, a: string, s: State, e: Event)
    requires Inv(s)
    ensures DeletersOk(Step(agents, a, s, e))
  {
    if !Enabled(a, s, e) {
    } else if e.DeleteRead? || e.DeleteWrite? || e.SendDelete? {
      RequestStepKeepsDeleters(agents, a, s, e);
    } else if e.DeleteReply? || e.CrashDeleter? {
      ReplyStepKeepsDeleters(agents, a, s, e);
    } else if e.DeleteFinish? {
      FinishStepKeepsDeleters(agents, a, s, e);
    } else {
      CreateStepKeepsDeleters(agents, a, s, e);
    }
  }

  lemma {:induction false} StepKeepsInv(agents: Agents, a: string, s: State, e: Event)
    requires Inv(s)
    ensures Inv(Step(agents, a, s, e))
  {
    StepKeepsRow(agents, a, s, e);
    StepKeepsUpstream(agents, a, s, e);
    StepKeepsCreators(agents, a, s, e);
    StepKeepsDeleters(agents, a, s, e);
  }

  lemma {:induction false} RunKeepsInv(a: string, s: State, run: seq<Moment>)
    requires Inv(s)
    ensures Inv(Run(a, s, run))
    decreases |run|
  {
    if run != [] {
      StepKeepsInv(run[0].agents, a, s, run[0].event);
      RunKeepsInv(a, Step(run[0].agents, a, s, run[0].event), run[1..]);
    }
  }

  // ---------- main results ----------

  /** In every reachable state: at most one token of the gateway is live upstream; DELETED implies that
      none is, and none can still appear; an ACTIVE row holds a key and names exactly the token that its
      own reservation created, which is live unless it vanished upstream by itself. */
  lemma {:induction false} OneTokenPerAgent(a: string, run: seq<Moment>)
    ensures var s := Run(a, INIT, run);
      && (forall x, y :: x in s.live && y in s.live ==> x == y)
      && (s.row.Some? && s.row.value.status == DELETED ==> s.live == {} && s.posts == {})
      && (s.row.Some? && s.row.value.status == LIVE ==>
            && s.row.value.key.Some? && s.row.value.tokenId.Some?
            && var id := s.row.value.tokenId.value;
               && OfCurrent(s, id) && (forall x :: OfCurrent(s, x) ==> x == id)
               && s.live <= {id} && (id in s.live || id in s.vanished))
  {
    RunKeepsInv(a, INIT, run);
    var s := Run(a, INIT, run);
    forall x, y | x in s.live && y in s.live ensures x == y { assert OfCurrent(s, x) && OfCurrent(s, y); }
    if s.row.Some? && s.row.value.tokenId.Some? {
      var id := s.row.value.tokenId.value;
      assert OfCurrent(s, id);
      forall x | x in s.live ensures x == id { assert OfCurrent(s, x); }
    }
  }

  /** A CREATING row has at most one call that can still move it, and it is the call that reserved it;
      a call that lost its reservation does not exist. */
  lemma {:induction false} OneOwner(a: string, run: seq<Moment>)
    ensures var s := Run(a, INIT, run);
      && (forall c, c' :: c in s.creators && c' in s.creators ==> c == c')
      && (forall c :: c in s.creators ==>
            s.row.Some? && s.row.value.status == CREATING && s.creators[c].reservation == s.reservation)
  {
    RunKeepsInv(a, INIT, run);
    var s := Run(a, INIT, run);
    forall c | c in s.creators ensures CreatorOk(s, s.creators[c]) {}
  }

  /** The row is in the hands of no call. */
  ghost predicate Abandoned(s: State) {
    Unresolved(s.row) && s.creators == map[]
  }

  lemma {:induction false} UnknownIsAbandoned(s: State)
    requires Inv(s) && s.row.Some? && s.row.value.status == UNKNOWN
    ensures Abandoned(s)
  {
    assert forall c :: c in s.creators ==> CreatorOk(s, s.creators[c]);
    assert forall c :: c !in s.creators;
  }

  lemma {:induction false} AbandonedStaysOneStep(agents: Agents, a: string, s: State, e: Event)
    requires Inv(s) && Abandoned(s)
    ensures Abandoned(Step(agents, a, s, e)) && Step(agents, a, s, e).row == s.row
  {
  }

  /** UNKNOWN, and CREATING when its call is gone, are never left: a creation whose outcome nobody
      knows is not retried. */
  lemma {:induction false} AbandonedForever(a: string, s: State, run: seq<Moment>)
    requires Inv(s) && s.row.Some?
    requires s.row.value.status == UNKNOWN || (s.row.value.status == CREATING && s.creators == map[])
    ensures Run(a, s, run).row == s.row
    decreases |run|
  {
    if s.row.value.status == UNKNOWN { UnknownIsAbandoned(s); }
    if run != [] {
      StepKeepsInv(run[0].agents, a, s, run[0].event);
      AbandonedStaysOneStep(run[0].agents, a, s, run[0].event);
      AbandonedForever(a, Step(run[0].agents, a, s, run[0].event), run[1..]);
    }
  }

  /** A deletion that completes late, after the row has been reserved again, does not change the row;
      one that completes for the row's own token makes it DELETED. */
  lemma {:induction false} LateCompletion(agents: Agents, a: string, run: seq<Moment>, d: nat)
    requires Enabled(a, Run(a, INIT, run), DeleteFinish(d))
    ensures var s := Run(a, INIT, run);
      var id, s' := s.deleters[d].id, Step(agents, a, s, DeleteFinish(d));
      && id in s.issued
      && (s.issued[id] < s.reservation ==> s'.row == s.row)
      && (s.issued[id] == s.reservation ==> s'.row == Some(Row(DELETED, Some(id), None)))
  {
    RunKeepsInv(a, INIT, run);
    var s := Run(a, INIT, run);
    assert Doomed(s, s.deleters[d].id);
  }

  // ---------- undisturbed calls reach their end ----------

  /** The states that a list of events leads through. */
  ghost function Trace(agents: Agents, a: string, s: State, events: seq<Event>): (states: seq<State>)
    ensures |states| == |events| + 1 && states[0] == s
    decreases |events|
  {
    if events == [] then [s] else [s] + Trace(agents, a, Step(agents, a, s, events[0]), events[1..])
  }

  lemma {:induction false} TraceAt(agents: Agents, a: string, s: State, events: seq<Event>, i: nat)
    requires i < |events|
    ensures var states := Trace(agents, a, s, events);
      states[i + 1] == Step(agents, a, states[i], events[i])
    decreases |events|
  {
    if i > 0 { TraceAt(agents, a, Step(agents, a, s, events[0]), events[1..], i - 1); }
  }

  function Deletion(d: nat, id: int): seq<Event> {
    [DeleteRead(d), DeleteWrite(d), SendDelete(d), ApplyDelete(id), DeleteReply(d, true), DeleteFinish(d)]
  }

  lemma {:induction false} DeletionLocks(agents: Agents, a: string, s: State, d: nat, id: int)
    requires a in agents && s.lock.None? && d !in s.deleters
    requires s.row.Some? && s.row.value.status != DELETED && s.row.value.tokenId == Some(id)
    ensures Trace(agents, a, s, Deletion(d, id))[1]
         == s.(lock := Some(d), deleters := s.deleters[d := Deleter(id, Locked)])
  {
    TraceAt(agents, a, s, Deletion(d, id), 0);
  }

  lemma {:induction false} DeletionMarks(agents: Agents, a: string, s: State, d: nat, id: int)
    requires a in agents && s.lock.None? && d !in s.deleters
    requires s.row.Some? && s.row.value.status != DELETED && s.row.value.tokenId == Some(id)
    ensures var s2 := Trace(agents, a, s, Deletion(d, id))[2];
      && s2.row == Some(Row(DELETE_PENDING, Some(id), s.row.value.key)) && s2.live == s.live
      && d in s2.deleters && s2.deleters[d] == Deleter(id, Pending)
  {
    DeletionLocks(agents, a, s, d, id);
    TraceAt(agents, a, s, Deletion(d, id), 1);
  }

  lemma {:induction false} DeletionIsApplied(agents: Agents, a: string, s: State, d: nat, id: int)
    requires var s2 := Trace(agents, a, s, Deletion(d, id))[2];
      d in s2.deleters && s2.deleters[d] == Deleter(id, Pending)
    ensures var s2, s4 := Trace(agents, a, s, Deletion(d, id))[2], Trace(agents, a, s, Deletion(d, id))[4];
      s4 == s2.(deletes := s2.deletes + {id}, live := s2.live - {id}, deleters := s2.deleters[d := Deleter(id, Sent)])
  {
    var events := Deletion(d, id);
    TraceAt(agents, a, s, events, 2);
    TraceAt(agents, a, s, events, 3);
  }

  lemma {:induction false} DeletionEnds(agents: Agents, a: string, s: State, d: nat, id: int)
    requires var s4 := Trace(agents, a, s, Deletion(d, id))[4];
      && d in s4.deleters && s4.deleters[d] == Deleter(id, Sent) && id !in s4.live
      && s4.row.Some? && s4.row.value.tokenId == Some(id)
    ensures var s4, s6 := Trace(agents, a, s, Deletion(d, id))[4], Trace(agents, a, s, Deletion(d, id))[6];
      s6.row == Some(Row(DELETED, Some(id), None)) && s6.live == s4.live
  {
    var events := Deletion(d, id);
    TraceAt(agents, a, s, events, 4);
    TraceAt(agents, a, s, events, 5);
  }

  /** From any reachable row with a token that is not deleted, an ACTIVE one in particular, an undisturbed
      deletion ends with the row DELETED, its key gone, and no token live upstream. */
  lemma {:induction false} DeletionCompletes(agents: Agents, a: string, s: State, d: nat, id: int)
    requires Inv(s) && a in agents && s.lock.None? && d !in s.deleters
    requires s.row.Some? && (s.row.value.status == LIVE || s.row.value.status == DELETE_PENDING)
    ensures s.row.value.tokenId.Some?
    ensures s.row.value.tokenId == Some(id) ==>
      var s' := Trace(agents, a, s, [DeleteRead(d), DeleteWrite(d), SendDelete(d), ApplyDelete(id),
                                     DeleteReply(d, true), DeleteFinish(d)])[6];
      s'.row == Some(Row(DELETED, Some(id), None)) && s'.live == {}
  {
    if s.row.value.tokenId == Some(id) {
      LiveIsOwn(s, id);
      DeletionMarks(agents, a, s, d, id);
      DeletionIsApplied(agents, a, s, d, id);
      DeletionEnds(agents, a, s, d, id);
    }
  }

  function Creation(c: nat, n: nat, opt: KeyOptions, now: int64, t: Token, secret: string): seq<Event> {
    [Reserve(c, opt, now), SendPost(c), ApplyPost(n, t.id), PostReply(c, Some(BLANK), t.userId),
     SearchReply(c, List([t]), t.userId), KeyReply(c, Some(secret)), Finalize(c, false)]
  }

  /** The usual answer to a creation, without a token. */
  const BLANK := Token(0, 0, "", "", None, None, None)

  /** The token as upstream lists it, complete and under the agent's name. */
  ghost predicate Listed(a: string, t: Token) {
    t.id > 0 && t.name == TokenName(a) && t.status.Some? && t.expiredTime.Some? && t.remainQuota.Some?
  }

  lemma {:induction false} CreationIsSent(agents: Agents, a: string, s: State, c: nat, opt: KeyOptions, now: int64,
                                          t: Token, secret: string)
    requires Inv(s) && s.lock.None? && c !in s.creators && (s.row.Some? ==> s.row.value.status == DELETED)
    requires Active(agents, a) && ValidOptions(agents[a].policy, opt, now)
    ensures var n := s.reservation + 1;
      var s2 := Trace(agents, a, s, Creation(c, n, opt, now, t, secret))[2];
      && s2.row == Some(Row(CREATING, None, None)) && s2.lock.None? && s2.live == {} && s2.issued == s.issued
      && n in s2.posts && c in s2.creators && s2.creators[c] == Creator(n, Posted)
  {
    var n := s.reservation + 1;
    var events := Creation(c, n, opt, now, t, secret);
    var s1 := s.(row := Some(Row(CREATING, None, None)), reservation := n,
                 creators := s.creators[c := Creator(n, Reserved)]);
    TraceAt(agents, a, s, events, 0);
    assert Trace(agents, a, s, events)[1] == s1;
    TraceAt(agents, a, s, events, 1);
  }

  lemma {:induction false} CreationIsAnswered(agents: Agents, a: string, s: State, c: nat, n: nat, opt: KeyOptions,
                                              now: int64, t: Token, secret: string)
    requires var s2 := Trace(agents, a, s, Creation(c, n, opt, now, t, secret))[2];
      && n in s2.posts && t.id > 0 && t.id !in s2.issued && c in s2.creators && s2.creators[c] == Creator(n, Posted)
    ensures var states := Trace(agents, a, s, Creation(c, n, opt, now, t, secret));
      var s2, s4 := states[2], states[4];
      && s4.row == s2.row && s4.lock == s2.lock && s4.live == s2.live + {t.id}
      && t.id in s4.issued && s4.issued[t.id] == n
      && c in s4.creators && s4.creators[c] == Creator(n, Searching(BLANK))
  {
    var events := Creation(c, n, opt, now, t, secret);
    var s2 := Trace(agents, a, s, events)[2];
    var s3 := s2.(posts := s2.posts - {n}, live := s2.live + {t.id}, issued := s2.issued[t.id := n]);
    TraceAt(agents, a, s, events, 2);
    assert Trace(agents, a, s, events)[3] == s3;
    TraceAt(agents, a, s, events, 3);
  }

  lemma {:induction false} SearchIdentifies(a: string, t: Token)
    requires Listed(a, t)
    ensures AfterIdentify(a, BLANK, SearchItems(List([t])), t.userId) == Identified(t.id)
  {
    ListedIsIdentified(BLANK, List([t]), [t], 0, TokenName(a), t.userId);
  }

  lemma {:induction false} CreationIsIdentified(agents: Agents, a: string, s: State, c: nat, n: nat, opt: KeyOptions,
                                                now: int64, t: Token, secret: string)
    requires Listed(a, t)
    requires var s4 := Trace(agents, a, s, Creation(c, n, opt, now, t, secret))[4];
      t.id in s4.live && c in s4.creators && s4.creators[c] == Creator(n, Searching(BLANK))
    ensures var states := Trace(agents, a, s, Creation(c, n, opt, now, t, secret));
      states[5] == Goto(states[4], c, Identified(t.id))
  {
    SearchIdentifies(a, t);
    TraceAt(agents, a, s, Creation(c, n, opt, now, t, secret), 4);
  }

  lemma {:induction false} CreationIsHeld(agents: Agents, a: string, s: State, c: nat, n: nat, opt: KeyOptions,
                                          now: int64, t: Token, secret: string)
    requires Listed(a, t) && FullKey(secret)
    requires var s4 := Trace(agents, a, s, Creation(c, n, opt, now, t, secret))[4];
      t.id in s4.live && c in s4.creators && s4.creators[c] == Creator(n, Searching(BLANK))
    ensures var states := Trace(agents, a, s, Creation(c, n, opt, now, t, secret));
      var s4, s6 := states[4], states[6];
      && s6.row == s4.row && s6.lock == s4.lock && s6.live == s4.live
      && c in s6.creators && s6.creators[c] == Creator(n, Holding(t.id, secret))
  {
    CreationIsIdentified(agents, a, s, c, n, opt, now, t, secret);
    TraceAt(agents, a, s, Creation(c, n, opt, now, t, secret), 5);
  }

  lemma {:induction false} CreationEnds(agents: Agents, a: string, s: State, c: nat, n: nat, opt: KeyOptions,
                                        now: int64, t: Token, secret: string)
    requires Active(agents, a)
    requires var s6 := Trace(agents, a, s, Creation(c, n, opt, now, t, secret))[6];
      && s6.row == Some(Row(CREATING, None, None)) && s6.lock.None?
      && c in s6.creators && s6.creators[c] == Creator(n, Holding(t.id, secret))
    ensures var states := Trace(agents, a, s, Creation(c, n, opt, now, t, secret));
      && states[7].row == Some(Row(LIVE, Some(t.id), Some(if "sk-" <= secret then secret else "sk-" + secret)))
      && states[7].live == states[6].live
  {
    TraceAt(agents, a, s, Creation(c, n, opt, now, t, secret), 6);
  }

  /** From any reachable row that is absent or DELETED, an undisturbed creation for an active agent with
      valid options ends with the row ACTIVE, holding the full key and naming the one token live upstream. */
  lemma {:induction false} CreationCompletes(agents: Agents, a: string, s: State, c: nat, opt: KeyOptions, now: int64,
                                             t: Token, secret: string)
    requires Inv(s) && s.lock.None? && c !in s.creators && (s.row.Some? ==> s.row.value.status == DELETED)
    requires a in agents && agents[a].status == ACTIVE && agents[a].whitelist == APPROVED
    requires 1 <= (if opt.remainQuota == 0 then agents[a].policy.monthly else opt.remainQuota)
               <= agents[a].policy.monthly
    requires opt.expiredTime == 0 || opt.expiredTime == -1 || opt.expiredTime > now
    requires Listed(a, t) && t.id !in s.issued && FullKey(secret)
    ensures var s' := Trace(agents, a, s,
                            [Reserve(c, opt, now), SendPost(c), ApplyPost(s.reservation + 1, t.id),
                             PostReply(c, Some(BLANK), t.userId), SearchReply(c, List([t]), t.userId),
                             KeyReply(c, Some(secret)), Finalize(c, false)])[7];
      && s'.row == Some(Row(LIVE, Some(t.id), Some(if "sk-" <= secret then secret else "sk-" + secret)))
      && s'.live == {t.id}
  {
    var n := s.reservation + 1;
    CreationIsSent(agents, a, s, c, opt, now, t, secret);
    CreationIsAnswered(agents, a, s, c, n, opt, now, t, secret);
    CreationIsHeld(agents, a, s, c, n, opt, now, t, secret);
    CreationEnds(agents, a, s, c, n, opt, now, t, secret);
  }

  // ---------- what the agent gate prevents ----------

  /** For an agent that may not act, no step reserves a key or makes one ACTIVE. */
  lemma {:induction false} InactiveGetsNoKey(agents: Agents, a: string, s: State, e: Event)
    requires Inv(s) && !Active(agents, a)
    ensures var s' := Step(agents, a, s, e);
      && s'.reservation == s.reservation
      && (s'.row.Some? && s'.row.value.status == LIVE ==> s'.row == s.row)
  {
  }
}
