/** How the management client identifies the token that a creation request produced. */
module Tokens {
  import opened Httpx
  import opened Strings

  /** The documented token fields; a field missing upstream is zero, empty or None. */
  datatype Token = Token(id: int, userId: int, name: string, key: string,
                         status: Option<int>, expiredTime: Option<int>, remainQuota: Option<int>)

  datatype SearchReply = List(all: seq<Token>) | Page(items: Option<seq<Token>>, total: Option<int>) | Garbage

  /** A page is trusted only when it says that it is complete. */
  function SearchItems(r: SearchReply): Result<seq<Token>> {
    match r
    case List(all) => Ok(all)
    case Page(items, total) =>
      if items.None? then Err(Error(502, KOVAR_CONTRACT_INCOMPLETE))
      else if total.None? || total.value != |items.value| then Err(Error(502, KOVAR_TOKEN_RECONCILIATION_REQUIRED))
      else Ok(items.value)
    case Garbage => Err(Error(502, KOVAR_CONTRACT_INCOMPLETE))
  }

  predicate NeedsSearch(t: Token) {
    t.id == 0 || t.key == "" || '*' in t.key
  }

  predicate Complete(t: Token, name: string, userId: int) {
    t.id > 0 && t.userId == userId && t.name == name
    && t.status.Some? && t.expiredTime.Some? && t.remainQuota.Some?
  }

  /** The listed tokens with exactly this name, in order. */
  function Named(list: seq<Token>, name: string): (r: seq<Token>)
    ensures forall t :: t in r <==> t in list && t.name == name
  {
    if list == [] then []
    else
      var front, last := list[..|list| - 1], list[|list| - 1];
      assert forall t :: t in list <==> t in front || t == last;
      Named(front, name) + if last.name == name then [last] else []
  }

  /** The token that the replies identify: the one answered when it is usable, otherwise the only one
      listed under the exact name, provided its fields are complete. */
  ghost predicate Identifies(t: Token, found: Result<seq<Token>>, name: string, userId: int, r: Token) {
    && (if NeedsSearch(t) then found.Ok? && Named(found.value, name) == [r] else r == t)
    && Complete(r, name, userId)
  }

  lemma {:induction false} NamedUnique(list: seq<Token>, name: string, i: nat)
    requires i < |list| && list[i].name == name
    requires forall j :: 0 <= j < |list| && list[j].name == name ==> j == i
    ensures Named(list, name) == [list[i]]
  {
    var n := |list| - 1;
    if i < n {
      NamedUnique(list[..n], name, i);
    } else {
      NamedNone(list[..n], name);
    }
  }

  lemma {:induction false} NamedNone(list: seq<Token>, name: string)
    requires forall j :: 0 <= j < |list| ==> list[j].name != name
    ensures Named(list, name) == []
  {
    if list != [] { NamedNone(list[..|list| - 1], name); }
  }

  lemma {:induction false} NamedOnce(list: seq<Token>, name: string, r: Token) returns (i: nat)
    requires Named(list, name) == [r]
    ensures i < |list| && list[i] == r && r.name == name
    ensures forall j :: 0 <= j < |list| && list[j].name == name ==> j == i
  {
    var n := |list| - 1;
    var front := list[..n];
    assert forall j | 0 <= j < n :: front[j] == list[j];
    if list[n].name == name {
      i := n;
      assert Named(front, name) == [];
      assert forall j | 0 <= j < n :: front[j] in front;
    } else {
      i := NamedOnce(front, name, r);
    }
  }

  /** A usable answer identifies its own token, whatever a search would say. */
  lemma {:induction false} AnsweredIsIdentified(t: Token, found: Result<seq<Token>>, name: string, userId: int,
                                                x: Token)
    requires t.id > 0 && t.key != "" && '*' !in t.key
    ensures Identifies(t, found, name, userId, x) <==>
      x == t && t.userId == userId && t.name == name
      && t.status.Some? && t.expiredTime.Some? && t.remainQuota.Some?
  {
  }

  /** Otherwise a complete listing with exactly one complete token of the name identifies that one. */
  lemma {:induction false} ListedIsIdentified(t: Token, reply: SearchReply, list: seq<Token>, i: nat, name: string,
                                              userId: int)
    requires t.id == 0 || t.key == "" || '*' in t.key
    requires reply == List(list) || reply == Page(Some(list), Some(|list|))
    requires i < |list| && forall j :: 0 <= j < |list| && list[j].name == name ==> j == i
    requires list[i].id > 0 && list[i].userId == userId && list[i].name == name
    requires list[i].status.Some? && list[i].expiredTime.Some? && list[i].remainQuota.Some?
    ensures Identifies(t, SearchItems(reply), name, userId, list[i])
    ensures forall x :: Identifies(t, SearchItems(reply), name, userId, x) ==> x == list[i]
  {
    NamedUnique(list, name, i);
    assert [list[i]][0] == list[i];
  }

  method Identify(t: Token, reply: SearchReply, name: string, userId: int) returns (r: Option<Token>)
    ensures r.Some? ==> Identifies(t, SearchItems(reply), name, userId, r.value)
    ensures r.None? ==> forall x :: !Identifies(t, SearchItems(reply), name, userId, x)
    ensures r.Some? ==>
      && r.value.id > 0 && r.value.userId == userId && r.value.name == name
      && r.value.status.Some? && r.value.expiredTime.Some? && r.value.remainQuota.Some?
    ensures r.Some? && t.id != 0 && t.key != "" && '*' !in t.key ==> r.value == t
    ensures r.Some? && (t.id == 0 || t.key == "" || '*' in t.key) ==>
      exists list: seq<Token>, i: nat ::
        && (reply == List(list) || reply == Page(Some(list), Some(|list|)))
        && i < |list| && list[i] == r.value && forall j :: 0 <= j < |list| && list[j].name == name ==> j == i
  {
    var created := t;
    if NeedsSearch(t) {
      var list := SearchItems(reply);
      if list.Err? {
        return None;
      }
      var matches: seq<Token> := [];
      for i := 0 to |list.value|
        invariant matches == Named(list.value[..i], name)
      {
        assert list.value[..i + 1][..i] == list.value[..i];
        if list.value[i].name == name {
          matches := matches + [list.value[i]];
        }
      }
      assert list.value[..|list.value|] == list.value;
      if |matches| != 1 {
        return None;
      }
      created := matches[0];
      assert matches == [created];
      ghost var i := NamedOnce(list.value, name, created);
      assert reply == List(list.value) || reply == Page(Some(list.value), Some(|list.value|));
    }
    if !Complete(created, name, userId) {
      return None;
    }
    return Some(created);
  }

  /** The key endpoint must answer with a full key. */
  predicate FullKey(key: string) {
    TrimSpace(key) != "" && forall c :: c in {'*', ' ', '\t', '\r', '\n'} ==> c !in key
  }

  /** Printable keys are full exactly when they are not empty and have neither an asterisk nor a space. */
  lemma {:induction false} PrintableKey(key: string)
    requires forall i :: 0 <= i < |key| ==> ' ' <= key[i] <= '~'
    ensures FullKey(key) <==> key != "" && '*' !in key && ' ' !in key
  {
    if key != "" && ' ' !in key {
      assert forall i | 0 <= i < |key| :: key[i] in key && !IsSpace(key[i]);
    }
  }
}
