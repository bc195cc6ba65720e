/** Agents, their review and their budget policies. */
module Identity {
  import opened Httpx

  datatype Status = REGISTERED | ACTIVE | SUSPENDED | REVOKED
  datatype Whitelist = PENDING | APPROVED | REJECTED | WITHDRAWN  // WITHDRAWN is stored as 'REVOKED'

  datatype Policy = Policy(perRequest: int64, daily: int64, monthly: int64)

  datatype Agent = Agent(status: Status, whitelist: Whitelist, policy: Policy)

  /** The rows of `agents`, `agent_whitelist` and `agent_budget_policies`, which are created together. */
  type Agents = map<string, Agent>

  const MAX_REMARK := 1000

  // ---------- the state machine of one agent ----------

  function Transition(a: Agent, action: string): Result<(Status, Whitelist)> {
    match action
    case "approve" =>
      if a.status == REGISTERED && (a.whitelist == PENDING || a.whitelist == REJECTED)
      then Ok((ACTIVE, APPROVED)) else Err(Conflict(INVALID_AGENT_STATE))
    case "reject" =>
      if a.status == REGISTERED && a.whitelist == PENDING
      then Ok((REGISTERED, REJECTED)) else Err(Conflict(INVALID_AGENT_STATE))
    case "suspend" =>
      if a.status == ACTIVE && a.whitelist == APPROVED
      then Ok((SUSPENDED, APPROVED)) else Err(Conflict(INVALID_AGENT_STATE))
    case "resume" =>
      if a.status == SUSPENDED && a.whitelist == APPROVED
      then Ok((ACTIVE, APPROVED)) else Err(Conflict(INVALID_AGENT_STATE))
    case "revoke" => Ok((REVOKED, WITHDRAWN))
    case _ => Err(Invalid())
  }

  function StatusError(a: Agent): Option<Error> {
    match a.status
    case REVOKED => Some(Error(403, AGENT_REVOKED))
    case SUSPENDED => Some(Error(403, AGENT_SUSPENDED))
    case _ =>
      if a.status != ACTIVE || a.whitelist != APPROVED
      then Some(Error(403, AGENT_NOT_WHITELISTED)) else None
  }

  /** The agent may act: the gate of every dependent write. */
  predicate Active(agents: Agents, a: string) {
    a in agents && agents[a].status == ACTIVE && agents[a].whitelist == APPROVED
  }

  predicate Revoked(agents: Agents, a: string) {
    a in agents && agents[a].status == REVOKED && agents[a].whitelist == WITHDRAWN
  }

  // ---------- the table over time ----------

  datatype Event =
    | Create(address: string, policy: Policy)
    | Review(address: string, action: string, remark: string)
    | UpdatePolicy(address: string, policy: Policy)

  /** What a review may do: approve or reject a registration, suspend and resume, revoke at any time. */
  ghost predicate Reviewed(s: Status, w: Whitelist, action: string, s': Status, w': Whitelist) {
    || (action == "approve" && s == REGISTERED && (w == PENDING || w == REJECTED) && s' == ACTIVE && w' == APPROVED)
    || (action == "reject" && s == REGISTERED && w == PENDING && s' == REGISTERED && w' == REJECTED)
    || (action == "suspend" && s == ACTIVE && w == APPROVED && s' == SUSPENDED && w' == APPROVED)
    || (action == "resume" && s == SUSPENDED && w == APPROVED && s' == ACTIVE && w' == APPROVED)
    || (action == "revoke" && s' == REVOKED && w' == WITHDRAWN)
  }

  lemma {:induction false} TransitionIff(a: Agent, action: string, s': Status, w': Whitelist)
    ensures Transition(a, action) == Ok((s', w')) <==> Reviewed(a.status, a.whitelist, action, s', w')
  {
  }

  predicate ValidPolicy(p: Policy) {
    p.perRequest >= 0 && p.daily >= 0 && p.monthly >= 0
  }

  /** One committed transaction on the identity tables; a refused one changes nothing. */
  function Step(agents: Agents, e: Event): Agents {
    match e
    case Create(a, p) =>
      if a in agents then agents else agents[a := Agent(REGISTERED, PENDING, p)]
    case Review(a, action, remark) =>
      if |remark| > MAX_REMARK || a !in agents then agents
      else (
        match Transition(agents[a], action)
        case Ok((status, whitelist)) => agents[a := Agent(status, whitelist, agents[a].policy)]
        case Err(_) => agents
      )
    case UpdatePolicy(a, p) =>
      if !ValidPolicy(p) || a !in agents then agents else agents[a := agents[a].(policy := p)]
  }

  function Run(agents: Agents, events: seq<Event>): Agents
    decreases |events|
  {
    if events == [] then agents else Run(Step(agents, events[0]), events[1..])
  }

  // ---------- the code ----------

  class Service {
    var agents: Agents

    constructor ()
      ensures agents == map[]
    {
      agents := map[];
    }

    method Create(a: string, p: Policy) returns (r: Result<Agent>)
      modifies this
      ensures agents == Step(old(agents), Event.Create(a, p))
      ensures r == if a in old(agents) then Err(Conflict(Other("AGENT_ALREADY_REGISTERED")))
                   else Ok(Agent(REGISTERED, PENDING, p))
      ensures agents == if a in old(agents) then old(agents) else old(agents)[a := Agent(REGISTERED, PENDING, p)]
    {
      if a in agents {
        return Err(Conflict(Other("AGENT_ALREADY_REGISTERED")));
      }
      agents := agents[a := Agent(REGISTERED, PENDING, p)];
      return Ok(agents[a]);
    }

    /** Reads the agent row `FOR UPDATE` and answers with its policy only when the agent may act. */
    method LockActive(a: string) returns (r: Result<Policy>)
      ensures r.Ok? <==> Active(agents, a)
      ensures r.Ok? <==> a in agents && agents[a].status == ACTIVE && agents[a].whitelist == APPROVED
      ensures r.Ok? ==> r.value == agents[a].policy
      ensures a !in agents ==> r == Err(Error(404, AGENT_NOT_FOUND))
      ensures Revoked(agents, a) ==> r == Err(Error(403, AGENT_REVOKED))
      ensures a in agents ==>
        && (r == Err(Error(403, AGENT_REVOKED)) <==> agents[a].status == REVOKED)
        && (r == Err(Error(403, AGENT_SUSPENDED)) <==> agents[a].status == SUSPENDED)
        && (r == Err(Error(403, AGENT_NOT_WHITELISTED)) <==>
              agents[a].status == REGISTERED || (agents[a].status == ACTIVE && agents[a].whitelist != APPROVED))
    {
      if a !in agents {
        return Err(Error(404, AGENT_NOT_FOUND));
      }
      var e := StatusError(agents[a]);
      if e.Some? {
        return Err(e.value);
      }
      return Ok(agents[a].policy);
    }

    method Review(a: string, action: string, remark: string) returns (r: Result<Agent>)
      modifies this
      ensures agents == Step(old(agents), Event.Review(a, action, remark))
      ensures r.Ok? ==> a in agents && r.value == agents[a]
      ensures r.Err? ==> agents == old(agents)
      ensures r.Ok? <==> |remark| <= MAX_REMARK && a in old(agents) && Transition(old(agents)[a], action).Ok?
      ensures r.Ok? ==> |remark| <= 1000 && a in old(agents)
      ensures r.Ok? ==>
        exists status, whitelist ::
          && Reviewed(old(agents)[a].status, old(agents)[a].whitelist, action, status, whitelist)
          && agents == old(agents)[a := Agent(status, whitelist, old(agents)[a].policy)]
      ensures r.Err? && |remark| <= 1000 && a in old(agents) ==>
        forall status, whitelist ::
          !Reviewed(old(agents)[a].status, old(agents)[a].whitelist, action, status, whitelist)
    {
      if |remark| > MAX_REMARK {
        return Err(Invalid());
      }
      if a !in agents {
        return Err(Error(404, AGENT_NOT_FOUND));
      }
      var t := Transition(agents[a], action);
      if t.Err? {
        forall status, whitelist
          ensures !Reviewed(agents[a].status, agents[a].whitelist, action, status, whitelist)
        {
          TransitionIff(agents[a], action, status, whitelist);
        }
        return Err(t.error);
      }
      var (status, whitelist) := t.value;
      TransitionIff(agents[a], action, status, whitelist);
      agents := agents[a := agents[a].(status := status)];
      agents := agents[a := agents[a].(whitelist := whitelist)];
      return Ok(agents[a]);
    }

    method UpdatePolicy(a: string, p: Policy) returns (r: Option<Error>)
      modifies this
      ensures agents == Step(old(agents), Event.UpdatePolicy(a, p))
      ensures r.None? <==> ValidPolicy(p) && a in old(agents)
      ensures r.None? <==> p.perRequest >= 0 && p.daily >= 0 && p.monthly >= 0 && a in old(agents)
      ensures agents == if r.None? then old(agents)[a := Agent(old(agents)[a].status, old(agents)[a].whitelist, p)]
                        else old(agents)
    {
      if p.perRequest < 0 || p.daily < 0 || p.monthly < 0 {
        return Some(Invalid());
      }
      if a !in agents {
        return Some(Error(404, AGENT_NOT_FOUND));
      }
      agents := agents[a := agents[a].(policy := p)];
      return None;
    }
  }

  // ---------- what review guarantees ----------

  lemma {:induction false} StatusErrorIff(agents: Agents, a: string)
    requires a in agents
    ensures StatusError(agents[a]).None? <==> Active(agents, a)
  {
  }

  ghost predicate FivePairs(status: Status, whitelist: Whitelist) {
    || (status == REGISTERED && whitelist == PENDING)
    || (status == REGISTERED && whitelist == REJECTED)
    || (status == ACTIVE && whitelist == APPROVED)
    || (status == SUSPENDED && whitelist == APPROVED)
    || (status == REVOKED && whitelist == WITHDRAWN)
  }

  lemma {:induction false} RunKeepsFivePairs(agents: Agents, events: seq<Event>, a: string)
    requires forall b :: b in agents ==> FivePairs(agents[b].status, agents[b].whitelist)
    requires a in Run(agents, events)
    ensures FivePairs(Run(agents, events)[a].status, Run(agents, events)[a].whitelist)
    decreases |events|
  {
    if events != [] {
      RunKeepsFivePairs(Step(agents, events[0]), events[1..], a);
    }
  }

  ghost predicate Reachable(a: string, status: Status, whitelist: Whitelist) {
    exists events: seq<Event> ::
      var agents := Run(map[], events);
      a in agents && agents[a].status == status && agents[a].whitelist == whitelist
  }

  /** Review and registration reach exactly five pairs of status and whitelist status. */
  lemma {:induction false} ReachablePairs(a: string, status: Status, whitelist: Whitelist)
    ensures Reachable(a, status, whitelist) <==> FivePairs(status, whitelist)
  {
    if Reachable(a, status, whitelist) {
      var events: seq<Event> :|
        var agents := Run(map[], events);
        a in agents && agents[a].status == status && agents[a].whitelist == whitelist;
      RunKeepsFivePairs(map[], events, a);
    }
    if FivePairs(status, whitelist) {
      var p := Policy(0, 0, 0);
      var create := Event.Create(a, p);
      var actions: seq<string> := match (status, whitelist)
        case (REGISTERED, PENDING) => []
        case (REGISTERED, _) => ["reject"]
        case (ACTIVE, _) => ["approve"]
        case (SUSPENDED, _) => ["approve", "suspend"]
        case (REVOKED, _) => ["revoke"];
      var reviews := seq(|actions|, i requires 0 <= i < |actions| => Event.Review(a, actions[i], ""));
      var events := [create] + reviews;
      var s1: Agents := map[a := Agent(REGISTERED, PENDING, p)];
      assert events[0] == create && events[1..] == reviews;
      assert Run(map[], events) == Run(s1, reviews);
      if |actions| >= 1 {
        assert reviews[0] == Event.Review(a, actions[0], "");
        var s2 := Step(s1, reviews[0]);
        assert Run(s1, reviews) == Run(s2, reviews[1..]);
        if |actions| == 2 {
          assert reviews[1..][0] == Event.Review(a, actions[1], "");
          assert reviews[1..][1..] == [];
          assert Run(s2, reviews[1..]) == Run(Step(s2, reviews[1]), []);
        } else {
          assert reviews[1..] == [];
        }
      }
    }
  }

  /** Revocation is final, whatever the administrators do afterwards. */
  lemma {:induction false} RevokedAbsorbs(agents: Agents, events: seq<Event>, a: string)
    requires Revoked(agents, a)
    ensures Revoked(Run(agents, events), a)
    decreases |events|
  {
    if events != [] {
      RevokedAbsorbs(Step(agents, events[0]), events[1..], a);
    }
  }
}
