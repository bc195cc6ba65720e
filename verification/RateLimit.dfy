/** The request counter of one minute, which saturates just above its limit and is deleted when it is
    old, against an unbounded count of the same calls. Times are seconds since the Unix epoch. */
module RateLimit {
  import opened Httpx

  type Time = t: real | 0.0 <= t

  datatype Caller = Caller(scope: string, subject: string)

  /** The table `rate_limit_windows`. */
  type Counters = map<(Caller, nat), int>

  /** time.Now().Unix() / 60 */
  function Minute(now: Time): nat {
    now.Floor / 60
  }

  /** window_start < extract(epoch from now())::bigint / 60 - 2, where the cast rounds */
  predicate Stale(minute: nat, now: Time) {
    minute < (now + 0.5).Floor / 60 - 2
  }

  function Min(a: int, b: int): int {
    if a <= b then a else b
  }

  // ---------- the code ----------

  class Service {
    var counters: Counters

    constructor ()
      ensures counters == map[]
    {
      counters := map[];
    }

    method Rate(c: Caller, limit: int, now: Time) returns (r: Option<Error>)
      modifies this
      ensures counters == old(counters)[(c, Minute(now)) := Bumped(old(counters), (c, Minute(now)), limit)]
      ensures r == if counters[(c, Minute(now))] > limit then Some(Error(429, RATE_LIMITED)) else None
      ensures var k := (c, now.Floor / 60);
        var count := if k !in old(counters) then 1
                     else if old(counters)[k] <= limit then old(counters)[k] + 1 else limit + 1;
        && counters == old(counters)[k := count]
        && r == if count <= limit then None else Some(Error(429, RATE_LIMITED))
    {
      var k, count := (c, Minute(now)), 1;
      if k in counters {
        count := if counters[k] + 1 <= limit + 1 then counters[k] + 1 else limit + 1;
      }
      counters := counters[k := count];
      if count > limit {
        return Some(Error(429, RATE_LIMITED));
      }
      return None;
    }

    method Cleanup(now: Time)
      modifies this
      ensures counters == Fresh(old(counters), now)
      ensures forall k :: k in counters <==> k in old(counters) && k.1 >= (now + 0.5).Floor / 60 - 2
      ensures forall k :: k in counters ==> counters[k] == old(counters)[k]
    {
      counters := map k | k in counters && !(k.1 < (now + 0.5).Floor / 60 - 2) :: counters[k];
    }
  }

  function Bumped(counters: Counters, k: (Caller, nat), limit: int): int {
    if k in counters then Min(counters[k] + 1, limit + 1) else 1
  }

  function Fresh(counters: Counters, now: Time): Counters {
    map k | k in counters && !Stale(k.1, now) :: counters[k]
  }

  // ---------- runs ----------

  /** Calls happen at a gateway clock, cleanup at the database clock. */
  datatype Event =
    | Call(c: Caller, limit: nat, now: Time)
    | Cleanup(now: Time)

  /** A call as it was answered. */
  datatype Entry = Entry(c: Caller, now: Time, accepted: bool)

  /** `log` is history. */
  datatype State = State(counters: Counters, log: seq<Entry>)

  function Step(s: State, e: Event): State {
    match e
    case Call(c, limit, now) =>
      var count := Bumped(s.counters, (c, Minute(now)), limit);
      State(s.counters[(c, Minute(now)) := count], s.log + [Entry(c, now, count <= limit)])
    case Cleanup(now) => s.(counters := Fresh(s.counters, now))
  }

  /** The state after the first n events. */
  function After(run: seq<Event>, n: nat): State
    requires n <= |run|
  {
    if n == 0 then State(map[], []) else Step(After(run, n - 1), run[n - 1])
  }

  /** No call reads a gateway clock that lags behind the database clock of an earlier cleanup by more. */
  ghost predicate LagBounded(run: seq<Event>, lag: real) {
    forall i, j :: 0 <= i < j < |run| && run[i].Cleanup? && run[j].Call? ==> run[j].now >= run[i].now - lag
  }

  /** Every call of this caller is counted against the same limit. */
  ghost predicate SameLimit(run: seq<Event>, c: Caller, limit: nat) {
    forall i :: 0 <= i < |run| && run[i].Call? && run[i].c == c ==> run[i].limit == limit
  }

  // ---------- the unbounded count ----------

  function Calls(log: seq<Entry>, c: Caller, minute: nat): nat {
    if log == [] then 0
    else
      var last := log[|log| - 1];
      Calls(log[..|log| - 1], c, minute) + if last.c == c && Minute(last.now) == minute then 1 else 0
  }

  function Accepted(log: seq<Entry>, c: Caller, minute: nat): nat {
    if log == [] then 0
    else
      var last := log[|log| - 1];
      Accepted(log[..|log| - 1], c, minute)
      + if last.c == c && Minute(last.now) == minute && last.accepted then 1 else 0
  }

  function AcceptedBetween(log: seq<Entry>, c: Caller, from: Time, to: Time): nat {
    if log == [] then 0
    else
      var last := log[|log| - 1];
      AcceptedBetween(log[..|log| - 1], c, from, to)
      + if last.c == c && from <= last.now < to && last.accepted then 1 else 0
  }

  /** Every call of the caller is accepted exactly when fewer than `limit` came before it in its minute. */
  ghost predicate CountsTrue(log: seq<Entry>, c: Caller, limit: nat) {
    forall k :: 0 <= k < |log| && log[k].c == c ==>
      (log[k].accepted <==> Calls(log[..k], c, Minute(log[k].now)) < limit)
  }

  ghost predicate Forgotten(run: seq<Event>, n: nat, minute: nat) {
    exists i :: 0 <= i < n && i < |run| && run[i].Cleanup? && Stale(minute, run[i].now)
  }

  /** The counter of a minute that was not forgotten is the true count, up to saturation. */
  ghost predicate Tallied(counters: Counters, log: seq<Entry>, c: Caller, limit: nat, m: nat) {
    if (c, m) in counters then counters[(c, m)] == Min(Calls(log, c, m), limit + 1) else Calls(log, c, m) == 0
  }

  ghost predicate Inv(run: seq<Event>, n: nat, s: State, c: Caller, limit: nat) {
    && (forall m: nat :: !Forgotten(run, n, m) ==> Tallied(s.counters, s.log, c, limit, m))
    && CountsTrue(s.log, c, limit)
  }

  lemma {:induction false} CalledIsNotForgotten(run: seq<Event>, n: nat)
    requires n < |run| && LagBounded(run, 119.5) && run[n].Call?
    ensures !Forgotten(run, n, Minute(run[n].now))
  {
    var now, minute := run[n].now, Minute(run[n].now);
    forall i | 0 <= i < n && run[i].Cleanup? ensures !Stale(minute, run[i].now) {
      var q := (run[i].now + 0.5).Floor;
      assert now >= run[i].now - 119.5;
      assert now < (now.Floor + 1) as real;
      assert now.Floor + 1 <= 60 * minute + 60;
      assert (q as real) < (60 * minute + 180) as real;
    }
  }

  lemma {:induction false} CallTallied(s: State, e: Event, c: Caller, limit: nat, m: nat)
    requires e.Call? && (e.c == c ==> e.limit == limit) && Tallied(s.counters, s.log, c, limit, m)
    ensures Tallied(Step(s, e).counters, Step(s, e).log, c, limit, m)
  {
    assert Step(s, e).log[..|s.log|] == s.log;
  }

  lemma {:induction false} CallCounted(s: State, e: Event, c: Caller, limit: nat)
    requires e.Call? && (e.c == c ==> e.limit == limit) && CountsTrue(s.log, c, limit)
    requires Tallied(s.counters, s.log, c, limit, Minute(e.now))
    ensures CountsTrue(Step(s, e).log, c, limit)
  {
    var log' := Step(s, e).log;
    forall k | 0 <= k < |log'| && log'[k].c == c
      ensures log'[k].accepted <==> Calls(log'[..k], c, Minute(log'[k].now)) < limit
    {
      assert log'[..k] == s.log[..k];
      if k == |s.log| { assert log'[..k] == s.log; } else { assert log'[k] == s.log[k]; }
    }
  }

  lemma {:induction false} StepKeepsInv(run: seq<Event>, n: nat, c: Caller, limit: nat)
    requires n < |run| && LagBounded(run, 119.5) && SameLimit(run, c, limit)
    requires Inv(run, n, After(run, n), c, limit)
    ensures Inv(run, n + 1, After(run, n + 1), c, limit)
  {
    var s, s', e := After(run, n), After(run, n + 1), run[n];
    if e.Call? {
      CalledIsNotForgotten(run, n);
      CallCounted(s, e, c, limit);
    }
    forall m: nat | !Forgotten(run, n + 1, m) ensures Tallied(s'.counters, s'.log, c, limit, m) {
      assert !Forgotten(run, n, m);
      if e.Call? { CallTallied(s, e, c, limit, m); } else { assert !Stale(m, e.now); }
    }
  }

  lemma {:induction false} RunKeepsInv(run: seq<Event>, n: nat, c: Caller, limit: nat)
    requires n <= |run| && LagBounded(run, 119.5) && SameLimit(run, c, limit)
    ensures Inv(run, n, After(run, n), c, limit)
  {
    if n > 0 {
      RunKeepsInv(run, n - 1, c, limit);
      StepKeepsInv(run, n - 1, c, limit);
    }
  }

  lemma {:induction false} LagWeakens(run: seq<Event>, lag: real)
    requires LagBounded(run, lag) && lag <= 119.5
    ensures LagBounded(run, 119.5)
  {
  }

  // ---------- main results ----------

  lemma {:induction false} AcceptedIsMin(log: seq<Entry>, c: Caller, limit: nat, minute: nat)
    requires CountsTrue(log, c, limit)
    ensures Accepted(log, c, minute) == Min(Calls(log, c, minute), limit)
  {
    if log != [] {
      var front := log[..|log| - 1];
      forall k | 0 <= k < |front| ensures front[k] == log[k] && front[..k] == log[..k] {}
      assert log[|log| - 1].c == c ==>
        (log[|log| - 1].accepted <==> Calls(front, c, Minute(log[|log| - 1].now)) < limit);
      AcceptedIsMin(front, c, limit, minute);
    }
  }

  /** All calls are decided as by an unbounded counter, and each minute accepts the first `limit` calls. */
  ghost predicate Exact(log: seq<Entry>, c: Caller, limit: nat) {
    && CountsTrue(log, c, limit)
    && forall minute: nat :: Accepted(log, c, minute) == Min(Calls(log, c, minute), limit)
  }

  ghost predicate CountsExactly(lag: real) {
    forall run: seq<Event>, c: Caller, limit: nat | LagBounded(run, lag) && SameLimit(run, c, limit) ::
      Exact(After(run, |run|).log, c, limit)
  }

  /** A call, a cleanup that is early by a fraction of a second, and a second call in the same minute. */
  function Recount(c: Caller, lag: real): seq<Event> {
    [Call(c, 1, 0.0), Cleanup(179.5), Call(c, 1, if lag >= 179.5 then 0.0 else 179.5 - lag)]
  }

  lemma {:induction false} RecountAccepted(c: Caller, lag: real)
    requires lag > 119.5
    ensures LagBounded(Recount(c, lag), lag) && SameLimit(Recount(c, lag), c, 1)
    ensures var log := After(Recount(c, lag), 3).log; Calls(log, c, 0) == 2 && Accepted(log, c, 0) == 2
  {
    var run := Recount(c, lag);
    var late: Time := run[2].now;
    assert Minute(0.0) == 0 && Minute(late) == 0;
    assert (179.5 + 0.5).Floor == 180;
    var s1, s2, s3 := After(run, 1), After(run, 2), After(run, 3);
    assert After(run, 0) == State(map[], []);
    assert s1 == State(map[(c, 0) := 1], [Entry(c, 0.0, true)]);
    assert s2 == State(map[], [Entry(c, 0.0, true)]);
    assert s3.log == [Entry(c, 0.0, true), Entry(c, late, true)];
    var l1: seq<Entry> := [Entry(c, 0.0, true)];
    assert s3.log[..1] == l1 && l1[..0] == [];
    assert Calls(l1, c, 0) == 1 && Accepted(l1, c, 0) == 1;
  }

  /** The saturating counter, deleted when it is old, decides every call as an unbounded counter would,
      and so accepts the first `limit` calls of every minute and no more, exactly when the gateway clock
      never lags behind the database clock of an earlier cleanup by more than 119.5 seconds. */
  lemma {:induction false} CountsExactlyIff(lag: real)
    ensures CountsExactly(lag) <==> lag <= 119.5
  {
    if lag <= 119.5 {
      forall run: seq<Event>, c: Caller, limit: nat | LagBounded(run, lag) && SameLimit(run, c, limit)
        ensures Exact(After(run, |run|).log, c, limit)
      {
        LagWeakens(run, lag);
        RunKeepsInv(run, |run|, c, limit);
        forall minute: nat { AcceptedIsMin(After(run, |run|).log, c, limit, minute); }
      }
    } else {
      var c := Caller("", "");
      RecountAccepted(c, lag);
      assert |Recount(c, lag)| == 3;
      assert !Exact(After(Recount(c, lag), 3).log, c, 1);
    }
  }

  lemma {:induction false} SpanTouchesTwoMinutes(log: seq<Entry>, c: Caller, from: Time)
    ensures AcceptedBetween(log, c, from, from + 60.0) <=
            Accepted(log, c, Minute(from)) + Accepted(log, c, Minute(from) + 1)
  {
    if log != [] {
      SpanTouchesTwoMinutes(log[..|log| - 1], c, from);
      var now := log[|log| - 1].now;
      if from <= now < from + 60.0 {
        assert from.Floor <= now.Floor <= from.Floor + 60;
        assert Minute(from) <= Minute(now) <= Minute(from) + 1;
      }
    }
  }

  /** Any span of sixty seconds accepts at most twice the limit. */
  lemma {:induction false} SpanBound(run: seq<Event>, c: Caller, limit: nat, from: Time)
    requires LagBounded(run, 119.5) && SameLimit(run, c, limit)
    ensures AcceptedBetween(After(run, |run|).log, c, from, from + 60.0) <= 2 * limit
  {
    var log := After(run, |run|).log;
    RunKeepsInv(run, |run|, c, limit);
    AcceptedIsMin(log, c, limit, Minute(from));
    AcceptedIsMin(log, c, limit, Minute(from) + 1);
    SpanTouchesTwoMinutes(log, c, from);
  }
}
