/** Signed requests and their nonces: the table `agent_challenges`, which forgets used nonces, against
    the two clocks that decide when. Times are seconds since the Unix epoch. */
module Replay {
  import opened Httpx
  import opened Identity
  import opened Secure
  import opened Strings

  // ---------- state ----------

  datatype Purpose = REGISTER | REQUEST

  datatype Row = Row(owner: string, purpose: Purpose, expires: real, used: bool)

  type Challenges = map<string, Row>

  // ---------- the code ----------

  /** secure.Timestamp, which compares whole seconds: both ends are rounded down. */
  predicate Timely(ts: int, now: real, skew: real) {
    (now - skew).Floor <= ts <= (now + skew).Floor
  }

  /** A request as it arrives; `signed` says whether its signature recovers the agent's address. */
  datatype Request = Request(agent: string, ts: int, nonce: string, signed: bool)

  class Service {
    const skew: real
    var rows: Challenges

    constructor (skew: real)
      ensures this.skew == skew && rows == map[]
    {
      this.skew := skew;
      rows := map[];
    }

    method Authenticate(identity: Identity.Service, q: Request, now: real) returns (r: Option<Error>)
      modifies this
      ensures r.None? <==> Acceptable(skew, identity.agents, old(rows), q, now)
      ensures rows == if r.None? then old(rows)[Lower(q.nonce) := RequestRow(skew, q)] else old(rows)
      ensures var early, late := q.ts < (now - skew).Floor, q.ts > (now + skew).Floor;
        var hex := |q.nonce| == 64 && forall i :: 0 <= i < 64 ==>
          '0' <= q.nonce[i] <= '9' || 'a' <= q.nonce[i] <= 'f' || 'A' <= q.nonce[i] <= 'F';
        var active := && q.agent in identity.agents && identity.agents[q.agent].status == ACTIVE
                      && identity.agents[q.agent].whitelist == APPROVED;
        var known := Lower(q.nonce) in old(rows);
        && (r.None? <==> !early && !late && hex && q.signed && active && !known)
        && (early || late ==> r == Some(Error(401, AGENT_TIMESTAMP_EXPIRED)))
        && (!early && !late && !hex ==> r == Some(Invalid()))
        && (!early && !late && hex && !q.signed ==> r == Some(Error(401, INVALID_AGENT_SIGNATURE)))
        && (!early && !late && hex && q.signed && q.agent !in identity.agents ==>
              r == Some(Error(404, AGENT_NOT_FOUND)))
        && (!early && !late && hex && q.signed && !active ==> r.Some?)
        && (!early && !late && hex && q.signed && active && known ==> r == Some(Error(401, AGENT_NONCE_REUSED)))
        && rows == if r.None? then old(rows)[Lower(q.nonce) := Row(q.agent, REQUEST, q.ts as real + skew, true)]
                   else old(rows)
    {
      if !Timely(q.ts, now, skew) {
        return Some(Error(401, AGENT_TIMESTAMP_EXPIRED));
      }
      if |q.nonce| != 64 {
        return Some(Invalid());
      }
      if !Hex32(q.nonce) {
        return Some(Invalid());
      }
      if !q.signed {
        return Some(Error(401, INVALID_AGENT_SIGNATURE));
      }
      var locked := identity.LockActive(q.agent);
      if locked.Err? {
        return Some(locked.error);
      }
      if Lower(q.nonce) in rows {
        return Some(Error(401, AGENT_NONCE_REUSED));
      }
      rows := rows[Lower(q.nonce) := Row(q.agent, REQUEST, q.ts as real + skew, true)];
      return None;
    }

    /** DELETE FROM agent_challenges WHERE expires_at < now() - interval '1 day' */
    method Cleanup(now: real)
      modifies this
      ensures rows == Kept(old(rows), now)
      ensures forall n :: n in rows <==> n in old(rows) && old(rows)[n].expires >= now - 86400.0
      ensures forall n :: n in rows ==> rows[n] == old(rows)[n]
    {
      rows := map n | n in rows && !(rows[n].expires < now - 86400.0) :: rows[n];
    }

    method Challenge(a: string, nonce: string, expires: real) returns (ok: bool)
      modifies this
      ensures ok <==> nonce !in old(rows)
      ensures rows == if ok then old(rows)[nonce := Row(a, REGISTER, expires, false)] else old(rows)
    {
      if nonce in rows {
        return false;
      }
      rows := rows[nonce := Row(a, REGISTER, expires, false)];
      return true;
    }

    method ConsumeChallenge(a: string, nonce: string, now: real) returns (r: Option<Error>)
      modifies this
      ensures r.None? <==> && nonce in old(rows) && Consumable(old(rows)[nonce], a, now)
      ensures rows == if r.None? then old(rows)[nonce := old(rows)[nonce].(used := true)] else old(rows)
      ensures r.None? <==> && nonce in old(rows) && old(rows)[nonce].owner == a && old(rows)[nonce].purpose == REGISTER
                           && !old(rows)[nonce].used && now < old(rows)[nonce].expires
    {
      if nonce !in rows {
        return Some(Error(401, INVALID_AGENT_SIGNATURE));
      }
      var row := rows[nonce];
      if row.owner != a || row.purpose != REGISTER {
        return Some(Error(401, INVALID_AGENT_SIGNATURE));
      }
      if row.used {
        return Some(Error(401, AGENT_NONCE_REUSED));
      }
      if !(now < row.expires) {
        return Some(Error(401, AGENT_NONCE_EXPIRED));
      }
      rows := rows[nonce := row.(used := true)];
      return None;
    }
  }

  predicate Acceptable(skew: real, agents: Agents, rows: Challenges, q: Request, now: real) {
    Timely(q.ts, now, skew) && Hex32(q.nonce) && q.signed && Active(agents, q.agent) && Lower(q.nonce) !in rows
  }

  function RequestRow(skew: real, q: Request): Row {
    Row(q.agent, REQUEST, q.ts as real + skew, true)
  }

  predicate Consumable(row: Row, a: string, now: real) {
    row.owner == a && row.purpose == REGISTER && !row.used && now < row.expires
  }

  function Kept(rows: Challenges, now: real): Challenges {
    map n | n in rows && rows[n].expires >= now - 86400.0 :: rows[n]
  }

  // ---------- runs ----------

  /** Authentication and consumption happen at a gateway clock, cleanup at the database clock. */
  datatype Event =
    | Authenticate(q: Request, now: real)
    | Cleanup(now: real)
    | Challenge(owner: string, nonce: string, expires: real)
    | Consume(owner: string, nonce: string, now: real)

  /** `accepted` is history: the timestamp and nonce of every accepted request, in order. */
  datatype State = State(rows: Challenges, accepted: seq<(int, string)>)

  const INIT := State(map[], [])

  function Step(skew: real, agents: Agents, s: State, e: Event): State {
    match e
    case Authenticate(q, now) =>
      if Acceptable(skew, agents, s.rows, q, now)
      then State(s.rows[Lower(q.nonce) := RequestRow(skew, q)], s.accepted + [(q.ts, Lower(q.nonce))])
      else s
    case Cleanup(now) => s.(rows := Kept(s.rows, now))
    case Challenge(a, nonce, expires) =>
      if nonce in s.rows then s else s.(rows := s.rows[nonce := Row(a, REGISTER, expires, false)])
    case Consume(a, nonce, now) =>
      if nonce in s.rows && Consumable(s.rows[nonce], a, now)
      then s.(rows := s.rows[nonce := s.rows[nonce].(used := true)]) else s
  }

  datatype Moment = Moment(agents: Agents, event: Event)

  /** The state after the first n moments. */
  function After(skew: real, run: seq<Moment>, n: nat): State
    requires n <= |run|
  {
    if n == 0 then INIT else Step(skew, run[n - 1].agents, After(skew, run, n - 1), run[n - 1].event)
  }

  /** After a cleanup, the gateway clock never lags behind the database clock of that cleanup by more. */
  ghost predicate LagBounded(run: seq<Moment>, lag: real) {
    forall i, j :: 0 <= i < j < |run| && run[i].event.Cleanup? && run[j].event.Authenticate? ==>
      run[j].event.now >= run[i].event.now - lag
  }

  ghost predicate NoReplay(s: State) {
    forall i, j :: 0 <= i < j < |s.accepted| ==> s.accepted[i] != s.accepted[j]
  }

  // ---------- at most once ----------

  /** Some cleanup so far has forgotten everything that expired before this. */
  ghost predicate Forgotten(run: seq<Moment>, n: nat, expires: real) {
    exists i :: 0 <= i < n && i < |run| && run[i].event.Cleanup? && expires < run[i].event.now - 86400.0
  }

  /** A remembered nonce still has its own expiry unless an earlier row of it was forgotten. */
  ghost predicate Traced(skew: real, run: seq<Moment>, n: nat, s: State) {
    forall k :: 0 <= k < |s.accepted| ==>
      var (ts, nonce) := s.accepted[k];
      || (nonce in s.rows && s.rows[nonce].purpose == REQUEST && s.rows[nonce].expires == ts as real + skew)
      || Forgotten(run, n, ts as real + skew)
  }

  lemma {:induction false} ForgottenStays(run: seq<Moment>, n: nat, expires: real)
    ensures Forgotten(run, n, expires) ==> Forgotten(run, n + 1, expires)
  {
  }

  /** A timestamp that is still accepted has not been forgotten: rounding down costs less than the
      second by which 86399 falls short of a day. */
  lemma {:induction false} TimelyIsNotForgotten(skew: real, run: seq<Moment>, n: nat)
    requires n < |run| && LagBounded(run, 86399.0)
    requires run[n].event.Authenticate? && Timely(run[n].event.q.ts, run[n].event.now, skew)
    ensures !Forgotten(run, n, run[n].event.q.ts as real + skew)
  {
    var e := run[n].event;
    assert (e.now - skew).Floor as real > e.now - skew - 1.0;
    forall i | 0 <= i < n && run[i].event.Cleanup?
      ensures !(e.q.ts as real + skew < run[i].event.now - 86400.0)
    {
      assert e.now >= run[i].event.now - 86399.0;
    }
  }

  lemma {:induction false} StepTraced(skew: real, run: seq<Moment>, n: nat)
    requires n < |run| && LagBounded(run, 86399.0)
    requires Traced(skew, run, n, After(skew, run, n)) && NoReplay(After(skew, run, n))
    ensures Traced(skew, run, n + 1, After(skew, run, n + 1)) && NoReplay(After(skew, run, n + 1))
  {
    var s, s', e := After(skew, run, n), After(skew, run, n + 1), run[n].event;
    forall k | 0 <= k < |s.accepted|
      ensures var (ts, nonce) := s.accepted[k];
        || (nonce in s'.rows && s'.rows[nonce].purpose == REQUEST && s'.rows[nonce].expires == ts as real + skew)
        || Forgotten(run, n + 1, ts as real + skew)
    {
      var (ts, nonce) := s.accepted[k];
      ForgottenStays(run, n, ts as real + skew);
    }
    if e.Authenticate? && s'.accepted != s.accepted {
      TimelyIsNotForgotten(skew, run, n);
      assert forall k | 0 <= k < |s.accepted| :: s.accepted[k] != (e.q.ts, Lower(e.q.nonce));
    }
  }

  lemma {:induction false} RunTraced(skew: real, run: seq<Moment>, n: nat)
    requires n <= |run| && LagBounded(run, 86399.0)
    ensures Traced(skew, run, n, After(skew, run, n)) && NoReplay(After(skew, run, n))
  {
    if n > 0 {
      RunTraced(skew, run, n - 1);
      StepTraced(skew, run, n - 1);
    }
  }

  /** Every accepted request arrived signed by an agent that might act, with a nonce of 32 bytes, at a
      gateway time whose window, rounded down at both ends, contains its timestamp. */
  lemma {:induction false} AcceptedWasChecked(skew: real, run: seq<Moment>, n: nat, k: nat)
    requires n <= |run| && k < |After(skew, run, n).accepted|
    ensures exists i ::
      && 0 <= i < n && run[i].event.Authenticate?
      && var q, now, agents := run[i].event.q, run[i].event.now, run[i].agents;
      && After(skew, run, n).accepted[k] == (q.ts, Lower(q.nonce))
      && q.signed && (now - skew).Floor <= q.ts <= (now + skew).Floor
      && |q.nonce| == 64 && (forall j :: 0 <= j < 64 ==>
           '0' <= q.nonce[j] <= '9' || 'a' <= q.nonce[j] <= 'f' || 'A' <= q.nonce[j] <= 'F')
      && q.agent in agents && agents[q.agent].status == ACTIVE && agents[q.agent].whitelist == APPROVED
  {
    var s, s' := After(skew, run, n - 1), After(skew, run, n);
    if k < |s.accepted| {
      AcceptedWasChecked(skew, run, n - 1, k);
    } else {
      assert run[n - 1].event.Authenticate?;
    }
  }

  /** A checked request is accepted: both ends of the window are open to it, and nothing else is asked. */
  lemma {:induction false} CheckedIsAccepted(skew: real, agents: Agents, s: State, q: Request, now: real)
    requires (now - skew).Floor <= q.ts <= (now + skew).Floor && q.signed
    requires |q.nonce| == 64 && forall j :: 0 <= j < 64 ==>
      '0' <= q.nonce[j] <= '9' || 'a' <= q.nonce[j] <= 'f' || 'A' <= q.nonce[j] <= 'F'
    requires q.agent in agents && agents[q.agent].status == ACTIVE && agents[q.agent].whitelist == APPROVED
    requires Lower(q.nonce) !in s.rows
    ensures Step(skew, agents, s, Authenticate(q, now)).accepted == s.accepted + [(q.ts, Lower(q.nonce))]
  {
  }

  ghost predicate AcceptsOnce(skew: real, lag: real) {
    forall run: seq<Moment> :: LagBounded(run, lag) ==> NoReplay(After(skew, run, |run|))
  }

  lemma {:induction false} LagWeakens(run: seq<Moment>, lag: real, lag': real)
    requires LagBounded(run, lag) && lag <= lag'
    ensures LagBounded(run, lag')
  {
  }

  // ---------- the bound is sharp ----------

  function Zeros(): string {
    seq(64, i => '0')
  }

  /** A gateway time at which second 0 is still accepted, and yet more than the lag allows for. */
  function Late(skew: real, lag: real): real {
    skew + 1.0 - if lag - 86399.0 < 1.0 then (lag - 86399.0) / 2.0 else 0.5
  }

  function Anyone(): Agents {
    map["a" := Agent(ACTIVE, APPROVED, Policy(0, 0, 0))]
  }

  /** One request, sent twice around a cleanup. */
  function Resend(skew: real, lag: real): seq<Moment> {
    [Moment(Anyone(), Authenticate(Request("a", 0, Zeros(), true), skew)),
     Moment(Anyone(), Cleanup(Late(skew, lag) + lag)),
     Moment(Anyone(), Authenticate(Request("a", 0, Zeros(), true), Late(skew, lag)))]
  }

  /** When the gateway clock lags behind by more, a request is accepted again after its nonce was
      forgotten: it was signed for second 0, and comes back less than a second after its window. */
  lemma {:induction false} ResendAccepted(skew: real, lag: real)
    requires skew >= 0.0 && lag > 86399.0
    ensures LagBounded(Resend(skew, lag), lag)
    ensures !NoReplay(After(skew, Resend(skew, lag), 3))
  {
    var run := Resend(skew, lag);
    assert Hex32(Zeros()) && Lower(Zeros()) == Zeros();
    var q, late := run[0].event.q, run[2].event.now;
    var s1, s2, s3 := After(skew, run, 1), After(skew, run, 2), After(skew, run, 3);
    assert After(skew, run, 0) == INIT;
    assert Timely(0, skew, skew);
    assert s1 == State(map[Zeros() := RequestRow(skew, q)], [(0, Zeros())]);
    assert s2 == State(map[], [(0, Zeros())]);
    assert (late - skew).Floor == 0;
    assert (late + skew).Floor >= 0;
    assert s3.accepted == [(0, Zeros()), (0, Zeros())];
    assert s3.accepted[0] == s3.accepted[1];
  }

  /** A request, that is a timestamp with a nonce, is accepted at most once for all time although used
      nonces are forgotten, exactly when the gateway clock never lags behind the database clock of an
      earlier cleanup by more than 86399 seconds. */
  lemma {:induction false} AcceptsOnceIff(skew: real, lag: real)
    requires skew >= 0.0
    ensures AcceptsOnce(skew, lag) <==> lag <= 86399.0
  {
    if lag <= 86399.0 {
      forall run: seq<Moment> | LagBounded(run, lag) ensures NoReplay(After(skew, run, |run|)) {
        LagWeakens(run, lag, 86399.0);
        RunTraced(skew, run, |run|);
      }
    } else {
      ResendAccepted(skew, lag);
      assert |Resend(skew, lag)| == 3;
    }
  }
}
