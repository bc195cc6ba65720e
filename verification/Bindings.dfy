/** The table `agent_user_bindings`: which Kovar user an agent acts for. */
module Bindings {
  import opened Httpx
  import opened Identity

  datatype Binding = Binding(user: int64, session: string)

  type Table = map<string, Binding>

  predicate Bindable(agents: Agents, bindings: Table, a: string, user: int64) {
    Active(agents, a) && user > 0 && (a in bindings ==> bindings[a].user == user)
  }

  function Bound(agents: Agents, bindings: Table, a: string, b: Binding): Table {
    if Bindable(agents, bindings, a, b.user) then bindings[a := b] else bindings
  }

  class Service {
    var bindings: Table

    constructor ()
      ensures bindings == map[]
    {
      bindings := map[];
    }

    /** The transaction of `Bind`, after upstream has told the user of the credential. */
    method Bind(identity: Identity.Service, a: string, b: Binding) returns (r: Option<Error>)
      modifies this
      ensures bindings == Bound(identity.agents, old(bindings), a, b)
      ensures r.None? <==> Bindable(identity.agents, old(bindings), a, b.user)
      ensures r.None? <==>
        && a in identity.agents && identity.agents[a].status == ACTIVE && identity.agents[a].whitelist == APPROVED
        && b.user > 0 && (a in old(bindings) ==> old(bindings)[a].user == b.user)
      ensures bindings == if r.None? then old(bindings)[a := Binding(b.user, b.session)] else old(bindings)
      ensures Active(identity.agents, a) && a in old(bindings) && old(bindings)[a].user != b.user ==>
                r == Some(Conflict(KOVAR_USER_REBIND_FORBIDDEN))
    {
      var locked := identity.LockActive(a);
      if locked.Err? {
        return Some(locked.error);
      }
      if a in bindings && bindings[a].user != b.user {
        return Some(Conflict(KOVAR_USER_REBIND_FORBIDDEN));
      }
      if b.user <= 0 {
        return Some(Error(500, INTERNAL_ERROR));
      }
      bindings := bindings[a := if a in bindings then bindings[a].(session := b.session) else b];
      return None;
    }
  }
}
