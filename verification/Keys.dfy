/** An agent's row in `agent_kovar_tokens` and the transactions that move it. */
module Keys {
  import opened Httpx
  import opened Identity

  datatype KeyStatus = CREATING | LIVE | DELETE_PENDING | DELETED | UNKNOWN  // LIVE is stored as 'ACTIVE'

  /** The stored key stands for its ciphertext and fingerprint, which are set and cleared together. */
  datatype Row = Row(status: KeyStatus, tokenId: Option<int>, key: Option<string>)

  datatype KeyOptions = KeyOptions(remainQuota: int64, expiredTime: int64)

  /** The quota asked for, the monthly limit by default, must be positive and within that limit; an
      expiry, none by default, must lie in the future. */
  predicate ValidOptions(p: Policy, opt: KeyOptions, now: int64) {
    var quota := if opt.remainQuota == 0 then p.monthly else opt.remainQuota;
    var expiry := if opt.expiredTime == 0 then -1 else opt.expiredTime;
    1 <= quota <= p.monthly && (expiry == -1 || expiry > now)
  }

  // ---------- what each transaction does to the row ----------

  predicate Reservable(row: Option<Row>) {
    row.None? || row.value.status == DELETED
  }

  /** UPDATE ... WHERE status='CREATING' */
  function Finalized(row: Option<Row>, id: int, key: string, active: bool): Option<Row> {
    if row.Some? && row.value.status == CREATING
    then Some(Row(if active then LIVE else DELETE_PENDING, Some(id), Some(key))) else row
  }

  /** UPDATE ... SET status='UNKNOWN' WHERE status='CREATING' */
  function Failed(row: Option<Row>): Option<Row> {
    if row.Some? && row.value.status == CREATING then Some(row.value.(status := UNKNOWN)) else row
  }

  /** UPDATE ... SET status='DELETED', clearing the key, WHERE kovar_token_id=$2 */
  function Deleted(row: Option<Row>, id: int): Option<Row> {
    if row.Some? && row.value.tokenId == Some(id) then Some(Row(DELETED, Some(id), None)) else row
  }

  function Prefixed(key: string): string {
    if "sk-" <= key then key else "sk-" + key
  }

  /** What the locked read of `DeleteKey` decides. */
  datatype DeletePlan = Nothing | Unresolved | Delete(id: int)

  function PlanDelete(row: Option<Row>): DeletePlan {
    if row.None? || row.value.status == DELETED then Nothing
    else if row.value.tokenId.None? then Unresolved
    else Delete(row.value.tokenId.value)
  }

  class Service {
    var row: Option<Row>

    constructor ()
      ensures row == None
    {
      row := None;
    }

    /** The first transaction of `CreateKey`. */
    method Reserve(identity: Identity.Service, a: string, opt: KeyOptions, now: int64) returns (r: Option<Error>)
      modifies this
      ensures r.None? <==> && Active(identity.agents, a) && ValidOptions(identity.agents[a].policy, opt, now)
                           && Reservable(old(row))
      ensures row == if r.None? then Some(Row(CREATING, None, None)) else old(row)
      ensures r.None? <==>
        && a in identity.agents
        && identity.agents[a].status == ACTIVE && identity.agents[a].whitelist == APPROVED
        && 1 <= (if opt.remainQuota == 0 then identity.agents[a].policy.monthly else opt.remainQuota)
             <= identity.agents[a].policy.monthly
        && (opt.expiredTime == 0 || opt.expiredTime == -1 || opt.expiredTime > now)
        && (old(row).Some? ==> old(row).value.status == DELETED)
    {
      var locked := identity.LockActive(a);
      if locked.Err? {
        return Some(locked.error);
      }
      var p := locked.value;
      var quota, expiry := opt.remainQuota, opt.expiredTime;
      if quota == 0 {
        quota := p.monthly;
      }
      if quota < 1 || quota > p.monthly {
        return Some(Invalid());
      }
      if expiry == 0 {
        expiry := -1;
      }
      if expiry != -1 && expiry <= now {
        return Some(Invalid());
      }
      if row.Some? && row.value.status != DELETED {
        return Some(Conflict(KOVAR_TOKEN_ALREADY_BOUND));
      }
      row := Some(Row(CREATING, None, None));
      return None;
    }

    /** The last transaction of `CreateKey`. `taken` is a violated uniqueness constraint. */
    method Finalize(identity: Identity.Service, a: string, id: int, secret: string, taken: bool)
      returns (r: Option<Error>)
      modifies this
      ensures row == if a !in identity.agents || taken then old(row)
                     else Finalized(old(row), id, Prefixed(secret), Active(identity.agents, a))
      ensures r.None? ==> row.Some? && row.value == Row(LIVE, Some(id), Some(Prefixed(secret)))
      ensures r.None? ==> Active(identity.agents, a)
      ensures
        if a in identity.agents && !taken && old(row).Some? && old(row).value.status == CREATING then
          var key := if "sk-" <= secret then secret else "sk-" + secret;
          if identity.agents[a].status == ACTIVE && identity.agents[a].whitelist == APPROVED
          then r.None? && row == Some(Row(LIVE, Some(id), Some(key)))
          else r == Some(Error(403, AGENT_NOT_WHITELISTED)) && row == Some(Row(DELETE_PENDING, Some(id), Some(key)))
        else r.Some? && row == old(row)
    {
      var key := secret;
      if !("sk-" <= key) {
        key := "sk-" + key;
      }
      if a !in identity.agents {
        return Some(Error(404, AGENT_NOT_FOUND));
      }
      var state := LIVE;
      if StatusError(identity.agents[a]).Some? {
        state := DELETE_PENDING;
      }
      if taken {
        return Some(Conflict(KOVAR_KEY_ALREADY_BOUND));
      }
      if row.None? || row.value.status != CREATING {
        return Some(Conflict(KOVAR_TOKEN_RECONCILIATION_REQUIRED));
      }
      row := Some(Row(state, Some(id), Some(key)));
      if state != LIVE {
        return Some(Error(403, AGENT_NOT_WHITELISTED));
      }
      return None;
    }

    method RecordKeyFailure()
      modifies this
      ensures row == Failed(old(row))
      ensures row == if old(row).Some? && old(row).value.status == CREATING
                     then Some(Row(UNKNOWN, old(row).value.tokenId, old(row).value.key)) else old(row)
    {
      if row.Some? && row.value.status == CREATING {
        row := Some(row.value.(status := UNKNOWN));
      }
    }

    /** The read of the first transaction of `DeleteKey`, under the agent lock. */
    method ReadForDelete(identity: Identity.Service, a: string) returns (r: Result<Option<int>>)
      ensures a !in identity.agents <==> r == Err(Error(404, AGENT_NOT_FOUND))
      ensures a in identity.agents ==>
                match PlanDelete(row)
                case Nothing => r == Ok(None)
                case Unresolved => r == Err(Conflict(KOVAR_TOKEN_RECONCILIATION_REQUIRED))
                case Delete(id) => r == Ok(Some(id))
      ensures forall id :: r == Ok(Some(id)) <==>
                a in identity.agents && row.Some? && row.value.status != DELETED && row.value.tokenId == Some(id)
      ensures r == Ok(None) <==> a in identity.agents && (row.None? || row.value.status == DELETED)
      ensures r == Err(Conflict(KOVAR_TOKEN_RECONCILIATION_REQUIRED)) <==>
                a in identity.agents && row.Some? && row.value.status != DELETED && row.value.tokenId.None?
    {
      if a !in identity.agents {
        return Err(Error(404, AGENT_NOT_FOUND));
      }
      if row.None? {
        return Ok(None);
      }
      if row.value.status == DELETED {
        return Ok(None);
      }
      if row.value.tokenId.None? {
        return Err(Conflict(KOVAR_TOKEN_RECONCILIATION_REQUIRED));
      }
      return Ok(row.value.tokenId);
    }

    /** The write of that transaction. */
    method MarkDeletePending()
      modifies this
      ensures row == if old(row).Some? then Some(old(row).value.(status := DELETE_PENDING)) else None
    {
      if row.Some? {
        row := Some(row.value.(status := DELETE_PENDING));
      }
    }

    method MarkDeleted(id: int)
      modifies this
      ensures row == Deleted(old(row), id)
      ensures row == if old(row).Some? && old(row).value.tokenId == Some(id)
                     then Some(Row(DELETED, Some(id), None)) else old(row)
    {
      if row.Some? && row.value.tokenId == Some(id) {
        row := Some(Row(DELETED, row.value.tokenId, None));
      }
    }
  }
}
