/** The idempotency records around every agent operation that writes upstream: claim the key, run the
    operation, store what it answered, and answer repetitions from the store. */
module Idempotency {
  import opened Httpx
  import opened Json
  import opened Outcome

  datatype Key = Key(agent: string, operation: string, key: string)

  datatype RecordStatus = PROCESSING | COMPLETED

  datatype Record = Record(hash: string, status: RecordStatus, http: Option<int>, body: Option<Json>)

  type Records = map<Key, Record>

  /** What the wrapped operation returned. */
  datatype Produced = Value(v: Json) | Failed(status: int, code: string, message: string)

  /** What the client is answered. */
  datatype Answer = Success(status: int, body: Json) | Failure(status: int, code: string, message: string)

  /** What claiming a key yields. */
  datatype Claim = Owned | Replay(status: int, body: Json) | Refused(error: Error)

  function FirstAnswer(r: Produced): Answer {
    match r
    case Value(v) => Success(200, v)
    case Failed(status, code, message) => Failure(status, code, message)
  }

  function StoredStatus(r: Produced): int {
    if r.Value? then 200 else r.status
  }

  function StoredBody(r: Produced): Json {
    if r.Value? then r.v else Obj(map["code" := Str(r.code), "message" := Str(r.message)])
  }

  /** The answer that is read back from a stored status and body. */
  function ReplayAnswer(status: int, body: Json): Answer {
    if status >= 400 then
      match (StrField(body, "code"), StrField(body, "message"))
      case (Some(code), Some(message)) => Failure(status, code, message)
      case _ => Failure(500, "INTERNAL_ERROR", "invalid stored response")
    else Success(status, body)
  }

  /** INSERT ... ON CONFLICT DO NOTHING */
  function Inserted(records: Records, k: Key, hash: string): Records {
    if k in records then records else records[k := Record(hash, PROCESSING, None, None)]
  }

  /** What a request that did not insert reads. */
  function Found(row: Record, hash: string): Claim {
    if row.hash != hash then Refused(Conflict(IDEMPOTENCY_CONFLICT))
    else if row.status != COMPLETED then Refused(Conflict(IDEMPOTENCY_IN_PROGRESS))
    else Replay(if row.http.Some? then row.http.value else 0, if row.body.Some? then row.body.value else Null)
  }

  /** UPDATE ... WHERE status='PROCESSING' */
  function Completed(records: Records, k: Key, status: int, body: Json): Records {
    if k in records && records[k].status == PROCESSING
    then records[k := records[k].(status := COMPLETED, http := Some(status), body := Some(body))] else records
  }

  // ---------- the code ----------

  class Service {
    var records: Records

    constructor ()
      ensures records == map[]
    {
      records := map[];
    }

    method Claim(k: Key, hash: string) returns (c: Claim)
      modifies this
      ensures records == if Identifier(k.key) then Inserted(old(records), k, hash) else old(records)
      ensures c.Owned? <==> Identifier(k.key) && k !in old(records)
      ensures !Identifier(k.key) ==> c == Refused(Invalid())
      ensures Identifier(k.key) && k in old(records) ==> c == Found(old(records)[k], hash)
      ensures Identifier(k.key) && k !in old(records) ==>
        records == old(records)[k := Record(hash, PROCESSING, None, None)]
      ensures Identifier(k.key) && k in old(records) ==>
        var row := old(records)[k];
        && records == old(records)
        && (c == Refused(Conflict(IDEMPOTENCY_CONFLICT)) <==> row.hash != hash)
        && (c == Refused(Conflict(IDEMPOTENCY_IN_PROGRESS)) <==> row.hash == hash && row.status == PROCESSING)
        && (row.hash == hash && row.status == COMPLETED && row.http.Some? && row.body.Some? ==>
              c == Replay(row.http.value, row.body.value))
    {
      if !Identifier(k.key) {
        return Refused(Invalid());
      }
      if k !in records {
        records := records[k := Record(hash, PROCESSING, None, None)];
        return Owned;
      }
      var row := records[k];
      if row.hash != hash {
        return Refused(Conflict(IDEMPOTENCY_CONFLICT));
      }
      if row.status != COMPLETED {
        return Refused(Conflict(IDEMPOTENCY_IN_PROGRESS));
      }
      return Replay(if row.http.Some? then row.http.value else 0, if row.body.Some? then row.body.value else Null);
    }

    method Complete(k: Key, status: int, body: Json) returns (r: Option<Error>)
      modifies this
      ensures records == Completed(old(records), k, status, body)
      ensures r.None? <==> k in old(records) && old(records)[k].status == PROCESSING
      ensures records == if k in old(records) && old(records)[k].status == PROCESSING
        then old(records)[k := Record(old(records)[k].hash, COMPLETED, Some(status), Some(body))] else old(records)
    {
      if k !in records || records[k].status != PROCESSING {
        return Some(Conflict(IDEMPOTENCY_CONFLICT));
      }
      records := records[k := Record(records[k].hash, COMPLETED, Some(status), Some(body))];
      return None;
    }

    /** The wrapper, undisturbed: `result` is what the operation returns if it is run, and `runs` counts. */
    method Handle(k: Key, hash: string, result: Produced) returns (answer: Option<Answer>, runs: nat)
      modifies this
      ensures runs == if Identifier(k.key) && k !in old(records) then 1 else 0
      ensures runs == 1 ==>
        && answer == Some(FirstAnswer(result))
        && records == old(records)[k := Record(hash, COMPLETED, Some(StoredStatus(result)), Some(StoredBody(result)))]
      ensures runs == 0 ==> records == old(records)
      ensures runs == 0 && answer.Some? ==>
        && k in records && records[k].hash == hash && Found(records[k], hash).Replay?
        && answer.value == ReplayAnswer(Found(records[k], hash).status, Found(records[k], hash).body)
      ensures runs == 1 ==>
        && records.Keys == old(records).Keys + {k}
        && (forall other :: other in old(records) ==> records[other] == old(records)[other])
        && records[k].hash == hash && records[k].status == COMPLETED && records[k].http.Some? && records[k].body.Some?
        && match result
           case Value(v) =>
             answer == Some(Success(200, v)) && records[k].http.value == 200 && records[k].body.value == v
           case Failed(s, code, message) =>
             && answer == Some(Failure(s, code, message)) && records[k].http.value == s
             && records[k].body.value == Obj(map["code" := Str(code), "message" := Str(message)])
      ensures
        Identifier(k.key) && k in old(records) && old(records)[k].hash == hash && old(records)[k].status == COMPLETED
        && old(records)[k].http.Some? && old(records)[k].body.Some? ==>
          var status, body := old(records)[k].http.value, old(records)[k].body.value;
          && runs == 0
          && (status < 400 ==> answer == Some(Success(status, body)))
          && (status >= 400 && body.Obj? && "code" in body.fields && "message" in body.fields
              && body.fields["code"].Str? && body.fields["message"].Str? ==>
                answer == Some(Failure(status, body.fields["code"].s, body.fields["message"].s)))
    {
      runs := 0;
      var claim := Claim(k, hash);
      match claim {
        case Refused(_) =>
          return None, 0;
        case Replay(status, body) =>
          return Some(ReplayAnswer(status, body)), 0;
        case Owned =>
      }
      runs := runs + 1;
      var value, status := Null, 200;
      match result {
        case Value(v) =>
          value := v;
        case Failed(s, code, message) =>
          value := Obj(map["code" := Str(code), "message" := Str(message)]);
          status := s;
      }
      var failed := Complete(k, status, value);
      if failed.Some? {
        return None, runs;
      }
      answer := Some(FirstAnswer(result));
    }
  }

  /** A repetition: once the operation has returned a success, or an error with a status of at least 400,
      the same request is answered the same again, and the operation is not run again, whatever it would
      return now. */
  method HandleTwice(service: Service, k: Key, hash: string, result: Produced, other: Produced)
    returns (first: Option<Answer>, second: Option<Answer>, runs: nat, more: nat)
    requires Identifier(k.key) && k !in service.records
    modifies service
    ensures runs == 1 && more == 0
    ensures match result
      case Value(v) => first == second == Some(Success(200, v))
      case Failed(status, code, message) =>
        && first == Some(Failure(status, code, message))
        && (status >= 400 ==> second == first)
  {
    first, runs := service.Handle(k, hash, result);
    second, more := service.Handle(k, hash, other);
  }

  // ---------- every interleaving ----------

  /** How far a request has come; an owner is one that inserted the record. */
  datatype Pc =
    | Arrived
    | Beaten                   // the record was there before
    | Claimed                  // the record is ours, the operation not yet run
    | Running                  // the operation has been called
    | Returned(result: Produced) // and has returned

  datatype Request = Request(k: Key, hash: string, pc: Pc)

  datatype Given = Given(k: Key, hash: string, replayed: bool, answer: Answer)

  /** `starts`, `results` and `answers` are history: the runs of operations, what they returned, and
      what clients were answered. */
  datatype State = State(records: Records, requests: map<nat, Request>,
                         starts: seq<(Key, string)>, results: map<Key, Produced>, answers: set<Given>)

  const INIT := State(map[], map[], [], map[], {})

  datatype Event =
    | Arrive(r: nat, k: Key, hash: string)
    | Insert(r: nat)
    | Read(r: nat)
    | Start(r: nat)
    | Return(r: nat, result: Produced)
    | Complete(r: nat)
    | Crash(r: nat)

  predicate At(s: State, r: nat, pc: Pc) {
    r in s.requests && s.requests[r].pc == pc
  }

  function Goto(s: State, r: nat, pc: Pc): State
    requires r in s.requests
  {
    s.(requests := s.requests[r := s.requests[r].(pc := pc)])
  }

  function Leave(s: State, r: nat): State {
    s.(requests := s.requests - {r})
  }

  /** One statement of one request. A lost reply is a crash after the statement. */
  function Step(s: State, e: Event): State {
    match e
    case Arrive(r, k, hash) =>
      if r in s.requests then s else s.(requests := s.requests[r := Request(k, hash, Arrived)])
    case Insert(r) =>
      if !At(s, r, Arrived) then s
      else
        var q := s.requests[r];
        if !Identifier(q.k.key) then Leave(s, r)
        else if q.k in s.records then Goto(s, r, Beaten)
        else Goto(s, r, Claimed).(records := Inserted(s.records, q.k, q.hash))
    case Read(r) =>
      if !At(s, r, Beaten) || s.requests[r].k !in s.records then s
      else
        var q := s.requests[r];
        (match Found(s.records[q.k], q.hash)
         case Replay(status, body) =>
           Leave(s, r).(answers := s.answers + {Given(q.k, q.hash, true, ReplayAnswer(status, body))})
         case _ => Leave(s, r))
    case Start(r) =>
      if !At(s, r, Claimed) then s
      else Goto(s, r, Running).(starts := s.starts + [(s.requests[r].k, s.requests[r].hash)])
    case Return(r, result) =>
      if !At(s, r, Running) then s
      else Goto(s, r, Returned(result)).(results := s.results[s.requests[r].k := result])
    case Complete(r) =>
      if !(r in s.requests && s.requests[r].pc.Returned?) then s
      else
        var q := s.requests[r];
        if q.k in s.records && s.records[q.k].status == PROCESSING then
          Leave(s, r).(records := Completed(s.records, q.k, StoredStatus(q.pc.result), StoredBody(q.pc.result)),
                       answers := s.answers + {Given(q.k, q.hash, false, FirstAnswer(q.pc.result))})
        else Leave(s, r)
    case Crash(r) => Leave(s, r)
  }

  function Run(s: State, events: seq<Event>): State
    decreases |events|
  {
    if events == [] then s else Run(Step(s, events[0]), events[1..])
  }

  // ---------- invariant ----------

  predicate Owner(pc: Pc) {
    pc.Claimed? || pc.Running? || pc.Returned?
  }

  ghost predicate StartsOk(s: State) {
    && (forall i, j :: 0 <= i < j < |s.starts| ==> s.starts[i].0 != s.starts[j].0)
    && (forall i :: 0 <= i < |s.starts| ==>
          s.starts[i].0 in s.records && s.records[s.starts[i].0].hash == s.starts[i].1)
  }

  ghost predicate OwnerOk(s: State, q: Request) {
    && q.k in s.records && s.records[q.k].hash == q.hash && s.records[q.k].status == PROCESSING
    && (q.pc.Claimed? ==> forall i :: 0 <= i < |s.starts| ==> s.starts[i].0 != q.k)
    && (q.pc.Returned? <==> q.k in s.results)
    && (q.pc.Returned? ==> s.results[q.k] == q.pc.result)
  }

  ghost predicate OwnersOk(s: State) {
    && (forall r :: r in s.requests && Owner(s.requests[r].pc) ==> OwnerOk(s, s.requests[r]))
    && OneOwnerEach(s)
  }

  ghost predicate OneOwnerEach(s: State) {
    forall r, q | r in s.requests && q in s.requests && Owner(s.requests[r].pc) && Owner(s.requests[q].pc) ::
      s.requests[r].k == s.requests[q].k ==> r == q
  }

  ghost predicate RecordsOk(s: State) {
    && s.results.Keys <= s.records.Keys
    && forall k :: k in s.records && s.records[k].status == COMPLETED ==>
         && k in s.results
         && s.records[k].http == Some(StoredStatus(s.results[k])) && s.records[k].body == Some(StoredBody(s.results[k]))
  }

  ghost predicate AnswerOk(s: State, g: Given) {
    && g.k in s.results && g.k in s.records && s.records[g.k].hash == g.hash && s.records[g.k].status == COMPLETED
    && g.answer == if g.replayed then ReplayAnswer(StoredStatus(s.results[g.k]), StoredBody(s.results[g.k]))
                   else FirstAnswer(s.results[g.k])
  }

  ghost predicate AnswersOk(s: State) {
    forall g :: g in s.answers ==> AnswerOk(s, g)
  }

  ghost predicate Inv(s: State) {
    StartsOk(s) && OwnersOk(s) && RecordsOk(s) && AnswersOk(s)
  }

  lemma {:induction false} StepKeepsStarts(s: State, e: Event)
    requires Inv(s)
    ensures StartsOk(Step(s, e))
  {
    if e.Start? && At(s, e.r, Claimed) { assert OwnerOk(s, s.requests[e.r]); }
  }

  lemma {:induction false} OnlyInsertMakesOwners(s: State, e: Event, r: nat)
    requires !e.Insert? && r in Step(s, e).requests && Owner(Step(s, e).requests[r].pc)
    ensures r in s.requests && Owner(s.requests[r].pc) && s.requests[r].k == Step(s, e).requests[r].k
  {
  }

  lemma {:induction false} InsertKeepsOneOwner(s: State, r: nat)
    requires Inv(s)
    ensures OneOwnerEach(Step(s, Insert(r)))
  {
    assert forall q :: q in s.requests && Owner(s.requests[q].pc) ==> OwnerOk(s, s.requests[q]);
  }

  lemma {:induction false} StepKeepsOneOwner(s: State, e: Event)
    requires Inv(s)
    ensures OneOwnerEach(Step(s, e))
  {
    var s' := Step(s, e);
    if e.Insert? {
      InsertKeepsOneOwner(s, e.r);
    } else {
      forall r | r in s'.requests && Owner(s'.requests[r].pc)
        ensures r in s.requests && Owner(s.requests[r].pc) && s.requests[r].k == s'.requests[r].k
      {
        OnlyInsertMakesOwners(s, e, r);
      }
    }
  }

  /** What other requests do concerns other keys. */
  lemma {:induction false} OthersKeepOwner(s: State, e: Event, r: nat)
    requires Inv(s) && r in s.requests && Owner(s.requests[r].pc)
    requires e.Arrive? || e.r != r
    ensures OwnerOk(Step(s, e), s.requests[r])
  {
    assert OwnerOk(s, s.requests[r]);
    if !e.Arrive? && e.r in s.requests && Owner(s.requests[e.r].pc) {
      assert OwnerOk(s, s.requests[e.r]);
      assert s.requests[e.r].k != s.requests[r].k;
    }
  }

  lemma {:induction false} OwnInsertKeepsOwner(s: State, r: nat)
    requires Inv(s) && r in Step(s, Insert(r)).requests && Owner(Step(s, Insert(r)).requests[r].pc)
    ensures OwnerOk(Step(s, Insert(r)), Step(s, Insert(r)).requests[r])
  {
    if Owner(s.requests[r].pc) { assert OwnerOk(s, s.requests[r]); }
  }

  lemma {:induction false} OwnStepKeepsOwner(s: State, e: Event, r: nat)
    requires Inv(s) && !e.Arrive? && !e.Insert? && e.r == r && r in Step(s, e).requests
    requires Owner(Step(s, e).requests[r].pc)
    ensures OwnerOk(Step(s, e), Step(s, e).requests[r])
  {
    assert OwnerOk(s, s.requests[r]);
  }

  lemma {:induction false} StepKeepsOwner(s: State, e: Event, r: nat)
    requires Inv(s) && r in Step(s, e).requests && Owner(Step(s, e).requests[r].pc)
    ensures OwnerOk(Step(s, e), Step(s, e).requests[r])
  {
    if e.Arrive? || e.r != r {
      OthersKeepOwner(s, e, r);
    } else if e.Insert? {
      OwnInsertKeepsOwner(s, r);
    } else {
      OwnStepKeepsOwner(s, e, r);
    }
  }

  lemma {:induction false} StepKeepsOwners(s: State, e: Event)
    requires Inv(s)
    ensures OwnersOk(Step(s, e))
  {
    StepKeepsOneOwner(s, e);
    var s' := Step(s, e);
    forall r | r in s'.requests && Owner(s'.requests[r].pc) ensures OwnerOk(s', s'.requests[r]) {
      StepKeepsOwner(s, e, r);
    }
  }

  lemma {:induction false} StepKeepsRecords(s: State, e: Event)
    requires Inv(s)
    ensures RecordsOk(Step(s, e))
  {
    if (e.Return? && At(s, e.r, Running)) || (e.Complete? && e.r in s.requests && s.requests[e.r].pc.Returned?) {
      assert OwnerOk(s, s.requests[e.r]);
    }
  }

  lemma {:induction false} StepKeepsAnswers(s: State, e: Event)
    requires Inv(s)
    ensures AnswersOk(Step(s, e))
  {
    var s' := Step(s, e);
    if (e.Return? && At(s, e.r, Running)) || (e.Complete? && e.r in s.requests && s.requests[e.r].pc.Returned?) {
      assert OwnerOk(s, s.requests[e.r]);
    }
    forall g | g in s'.answers ensures AnswerOk(s', g) {
      if g in s.answers { assert AnswerOk(s, g); }
    }
  }

  lemma {:induction false} StepKeepsInv(s: State, e: Event)
    requires Inv(s)
    ensures Inv(Step(s, e))
  {
    StepKeepsStarts(s, e);
    StepKeepsOwners(s, e);
    StepKeepsRecords(s, e);
    StepKeepsAnswers(s, e);
  }

  lemma {:induction false} RunKeepsInv(s: State, events: seq<Event>)
    requires Inv(s)
    ensures Inv(Run(s, events))
    decreases |events|
  {
    if events != [] {
      StepKeepsInv(s, events[0]);
      RunKeepsInv(Step(s, events[0]), events[1..]);
    }
  }

  // ---------- main results ----------

  /** A stored result is answered again as it was the first time exactly when it is not an error with
      a status below 400; such an error would come back as a success. */
  lemma {:induction false} ReplayIsFaithfulIff(r: Produced)
    ensures ReplayAnswer(StoredStatus(r), StoredBody(r)) == FirstAnswer(r) <==> (r.Failed? ==> r.status >= 400)
  {
    if r.Failed? {
      var body := StoredBody(r);
      assert StrField(body, "code") == Some(r.code) && StrField(body, "message") == Some(r.message);
    }
  }

  /** For every agent, operation and key, over all interleavings, crashes and replays: the operation is
      run at most once, only ever for the request text that the key was claimed with; whoever is answered
      sent that text; and all are answered alike, with the status, body, code and message of the one run. */
  lemma {:induction false} RunsOnce(events: seq<Event>)
    ensures var s := Run(INIT, events);
      && (forall i, j :: 0 <= i < j < |s.starts| ==> s.starts[i].0 != s.starts[j].0)
      && (forall i :: 0 <= i < |s.starts| ==>
            s.starts[i].0 in s.records && s.records[s.starts[i].0].hash == s.starts[i].1)
      && (forall g :: g in s.answers ==>
            && g.k in s.records && g.k in s.results && s.records[g.k].hash == g.hash
            && ((s.results[g.k].Failed? ==> s.results[g.k].status >= 400) ==> g.answer == FirstAnswer(s.results[g.k])))
  {
    RunKeepsInv(INIT, events);
    var s := Run(INIT, events);
    forall g | g in s.answers
      ensures AnswerOk(s, g)
      ensures (s.results[g.k].Failed? ==> s.results[g.k].status >= 400) ==> g.answer == FirstAnswer(s.results[g.k])
    {
      assert AnswerOk(s, g);
      ReplayIsFaithfulIff(s.results[g.k]);
    }
  }

  /** A record keeps its request hash for ever, and once completed it never changes. */
  lemma {:induction false} CompletedNeverChanges(s: State, events: seq<Event>, k: Key)
    requires k in s.records
    ensures k in Run(s, events).records && Run(s, events).records[k].hash == s.records[k].hash
    ensures s.records[k].status == COMPLETED ==> Run(s, events).records[k] == s.records[k]
    decreases |events|
  {
    if events != [] {
      CompletedNeverChanges(Step(s, events[0]), events[1..], k);
    }
  }

  /** Whoever claims a new key, and is not disturbed, has the operation run for it and its result stored
      and answered. */
  lemma {:induction false} FirstIsRun(s: State, r: nat, k: Key, hash: string, result: Produced)
    requires r !in s.requests && Identifier(k.key) && k !in s.records
    ensures var s3 := Step(Step(Step(s, Arrive(r, k, hash)), Insert(r)), Start(r));
      var s5 := Step(Step(s3, Return(r, result)), Complete(r));
      && s5.starts == s.starts + [(k, hash)] && k in s5.records && s5.records[k].hash == hash
      && s5.records[k].status == COMPLETED
      && Given(k, hash, false, match result
                               case Value(v) => Success(200, v)
                               case Failed(status, code, message) => Failure(status, code, message)) in s5.answers
  {
    var s1 := Step(s, Arrive(r, k, hash));
    assert s1 == s.(requests := s.requests[r := Request(k, hash, Arrived)]);
    var s2 := Step(s1, Insert(r));
    assert s2 == s.(requests := s1.requests[r := Request(k, hash, Claimed)], records := Inserted(s.records, k, hash));
    var s3 := Step(s2, Start(r));
    assert s3 == s2.(requests := s2.requests[r := Request(k, hash, Running)], starts := s.starts + [(k, hash)]);
    var s4 := Step(s3, Return(r, result));
    assert s4 == s3.(requests := s3.requests[r := Request(k, hash, Returned(result))],
                     results := s3.results[k := result]);
  }

  /** In every interleaving, too, whoever repeats a completed request with the same text is answered. */
  lemma {:induction false} CompletedIsReplayed(s: State, r: nat, k: Key, hash: string)
    requires Inv(s) && r !in s.requests && Identifier(k.key)
    requires k in s.records && s.records[k].status == COMPLETED && s.records[k].hash == hash
    ensures k in s.results
    ensures (s.results[k].Failed? ==> s.results[k].status >= 400) ==>
      Given(k, hash, true, FirstAnswer(s.results[k]))
      in Step(Step(Step(s, Arrive(r, k, hash)), Insert(r)), Read(r)).answers
  {
    var s1 := Step(s, Arrive(r, k, hash));
    assert s1 == s.(requests := s.requests[r := Request(k, hash, Arrived)]);
    var s2 := Step(s1, Insert(r));
    assert s2 == s.(requests := s1.requests[r := Request(k, hash, Beaten)]);
    ReplayIsFaithfulIff(s.results[k]);
  }

  ghost predicate Abandoned(s: State, k: Key) {
    && k in s.records && s.records[k].status == PROCESSING
    && forall r :: r in s.requests && Owner(s.requests[r].pc) ==> s.requests[r].k != k
  }

  lemma {:induction false} AbandonedStays(s: State, e: Event, k: Key)
    requires Abandoned(s, k)
    ensures Abandoned(Step(s, e), k) && Step(s, e).records[k] == s.records[k]
    ensures s.starts <= Step(s, e).starts
    ensures forall i :: |s.starts| <= i < |Step(s, e).starts| ==> Step(s, e).starts[i].0 != k
  {
  }

  /** A key whose request is gone before it completed stays in progress: the operation is not run again
      for it, and nobody is answered. */
  lemma {:induction false} AbandonedIsNotRetried(s: State, events: seq<Event>, k: Key)
    requires Inv(s) && Abandoned(s, k)
    ensures var s' := Run(s, events);
      && k in s'.records && s'.records[k] == s.records[k]
      && s.starts <= s'.starts
      && (forall i :: |s.starts| <= i < |s'.starts| ==> s'.starts[i].0 != k)
      && (forall g :: g in s'.answers ==> g.k != k)
    decreases |events|
  {
    assert forall g :: g in s.answers ==> AnswerOk(s, g);
    if events != [] {
      var s1, s' := Step(s, events[0]), Run(s, events);
      StepKeepsInv(s, events[0]);
      AbandonedStays(s, events[0], k);
      AbandonedIsNotRetried(s1, events[1..], k);
      forall i | |s.starts| <= i < |s'.starts| ensures s'.starts[i].0 != k {
        assert i < |s1.starts| ==> s'.starts[i] == s1.starts[i];
      }
    }
  }
}
