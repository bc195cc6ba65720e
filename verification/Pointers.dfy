/** JSON pointers (RFC 6901) into the pricing document, which is first rewritten from an array of model
    entries into an object keyed by model name. */
module Pointers {
  import opened Httpx
  import opened Strings
  import opened Json

  // ---------- pointers ----------

  function Unescape(part: string): string {
    ReplaceAll(ReplaceAll(part, "~1", "/"), "~0", "~")
  }

  /** The reference tokens of a pointer. */
  function Parts(pointer: string): (parts: seq<string>)
    ensures |parts| >= 1
  {
    var raw := Split(if "/" <= pointer then pointer[1..] else pointer, '/');
    seq(|raw|, i requires 0 <= i < |raw| => Unescape(raw[i]))
  }

  /** The member or element that one token selects; nothing is null. */
  function Child(v: Json, part: string): Json {
    match v
    case Obj(fields) => if part in fields then fields[part] else Null
    case Arr(items) =>
      (match ParseInt(part)
       case Some(i) => if 0 <= i < |items| then items[i] else Null
       case None => Null)
    case _ => Null
  }

  function Lookup(v: Json, parts: seq<string>): Json
    decreases |parts|
  {
    if parts == [] then v else Lookup(Child(v, parts[0]), parts[1..])
  }

  method Resolve(doc: Json, pointer: string) returns (v: Json)
    ensures v == Lookup(doc, Parts(pointer))
  {
    v := doc;
    var raw := Split(if "/" <= pointer then pointer[1..] else pointer, '/');
    for i := 0 to |raw|
      invariant Lookup(v, Parts(pointer)[i..]) == Lookup(doc, Parts(pointer))
    {
      var part := ReplaceAll(ReplaceAll(raw[i], "~1", "/"), "~0", "~");
      assert Parts(pointer)[i] == Unescape(raw[i]) == part;
      assert Parts(pointer)[i..][0] == part && Parts(pointer)[i..][1..] == Parts(pointer)[i + 1..];
      match v {
        case Obj(fields) =>
          v := if part in fields then fields[part] else Null;
        case Arr(items) =>
          var index := ParseInt(part);
          if index.None? || index.value < 0 || index.value >= |items| {
            v := Null;
          } else {
            v := items[index.value];
          }
        case _ =>
          v := Null;
      }
    }
    assert Parts(pointer)[|raw|..] == [];
  }

  // ---------- escaping ----------

  /** Section 3 of RFC 6901: '~' is written "~0" and '/' is written "~1". */
  function Escape(token: string): string {
    if token == "" then ""
    else (if token[0] == '~' then "~0" else if token[0] == '/' then "~1" else [token[0]]) + Escape(token[1..])
  }

  function EscapeTildes(token: string): string {
    if token == "" then ""
    else (if token[0] == '~' then "~0" else [token[0]]) + EscapeTildes(token[1..])
  }

  function EscapeAll(tokens: seq<string>): seq<string> {
    seq(|tokens|, i requires 0 <= i < |tokens| => Escape(tokens[i]))
  }

  function Pointer(tokens: seq<string>): string
    requires |tokens| >= 1
  {
    "/" + Join(EscapeAll(tokens), '/')
  }

  lemma {:induction false} FirstPass(token: string)
    ensures ReplaceAll(Escape(token), "~1", "/") == EscapeTildes(token)
  {
    if token != "" {
      var rest := Escape(token[1..]);
      FirstPass(token[1..]);
      if token[0] == '~' {
        assert "~0" + rest == ['~'] + (['0'] + rest);
        assert (['~'] + (['0'] + rest))[1] == '0';
        ReplaceMiss('~', ['0'] + rest, "~1", "/");
        ReplaceOther('0', rest, "~1", "/");
        assert ['~'] + (['0'] + EscapeTildes(token[1..])) == "~0" + EscapeTildes(token[1..]);
      } else if token[0] == '/' {
        ReplaceHit("~1", rest, "/");
      } else {
        ReplaceOther(token[0], rest, "~1", "/");
      }
    }
  }

  lemma {:induction false} SecondPass(token: string)
    ensures ReplaceAll(EscapeTildes(token), "~0", "~") == token
  {
    if token != "" {
      var rest := EscapeTildes(token[1..]);
      SecondPass(token[1..]);
      assert token == [token[0]] + token[1..];
      if token[0] == '~' {
        ReplaceHit("~0", rest, "~");
      } else {
        ReplaceOther(token[0], rest, "~0", "~");
      }
    }
  }

  /** Section 4 of RFC 6901: replacing "~1" first and "~0" second undoes the escaping of any token. */
  lemma {:induction false} UnescapeEscape(token: string)
    ensures Unescape(Escape(token)) == token
  {
    FirstPass(token);
    SecondPass(token);
  }

  lemma {:induction false} EscapedHasNoSlash(token: string)
    ensures '/' !in Escape(token)
  {
    if token != "" { EscapedHasNoSlash(token[1..]); }
  }

  /** A pointer recovers exactly the tokens it was built from, whatever they contain. */
  lemma {:induction false} PointerParts(tokens: seq<string>)
    requires |tokens| >= 1
    ensures Parts(Pointer(tokens)) == tokens
  {
    var escaped := EscapeAll(tokens);
    forall i | 0 <= i < |tokens| ensures '/' !in escaped[i] && Unescape(escaped[i]) == tokens[i] {
      EscapedHasNoSlash(tokens[i]);
      UnescapeEscape(tokens[i]);
    }
    SplitJoin(escaped, '/');
    assert Pointer(tokens)[1..] == Join(escaped, '/');
  }

  // ---------- the pricing document ----------

  /** The name an entry is listed under; an entry without a non-empty one is skipped. */
  function EntryName(e: Json): Option<string> {
    if e.Obj? && "model_name" in e.fields && e.fields["model_name"].Str? && e.fields["model_name"].s != ""
    then Some(e.fields["model_name"].s) else None
  }

  predicate EntryList(pricing: Json) {
    pricing.Arr? && forall i :: 0 <= i < |pricing.items| ==> pricing.items[i].Obj? || pricing.items[i].Null?
  }

  ghost predicate IsLast(items: seq<Json>, name: string, i: nat) {
    && i < |items| && EntryName(items[i]) == Some(name)
    && forall j :: i < j < |items| ==> EntryName(items[j]) != Some(name)
  }

  function Names(items: seq<Json>): set<string> {
    set i | 0 <= i < |items| && EntryName(items[i]).Some? :: EntryName(items[i]).value
  }

  lemma {:induction false} NamedBefore(items: seq<Json>, name: string)
    requires name in Names(items) && EntryName(items[|items| - 1]) != Some(name)
    ensures name in Names(items[..|items| - 1])
  {
    var i :| 0 <= i < |items| && EntryName(items[i]) == Some(name);
    assert items[..|items| - 1][i] == items[i];
  }

  function LastNamed(items: seq<Json>, name: string): Json
    requires name in Names(items)
  {
    var n := |items| - 1;
    if EntryName(items[n]) == Some(name) then items[n]
    else
      NamedBefore(items, name);
      LastNamed(items[..n], name)
  }

  lemma {:induction false} LastNamedAt(items: seq<Json>, name: string) returns (i: nat)
    requires name in Names(items)
    ensures IsLast(items, name, i) && items[i] == LastNamed(items, name)
  {
    var n := |items| - 1;
    if EntryName(items[n]) == Some(name) {
      i := n;
    } else {
      NamedBefore(items, name);
      i := LastNamedAt(items[..n], name);
      assert forall j | i < j < n :: items[..n][j] == items[j];
    }
  }

  /** The document that the pointer is resolved in. */
  function Normalized(pricing: Json): Json {
    if !EntryList(pricing) || Names(pricing.items) == {} then pricing
    else Obj(map name | name in Names(pricing.items) :: LastNamed(pricing.items, name))
  }

  lemma {:induction false} LastIsUnique(items: seq<Json>, name: string, i: nat, j: nat)
    requires IsLast(items, name, i) && IsLast(items, name, j)
    ensures i == j
  {
  }

  lemma {:induction false} NamesExtended(items: seq<Json>, e: Json)
    ensures Names(items + [e]) == Names(items) + if EntryName(e).Some? then {EntryName(e).value} else {}
  {
    var all := items + [e];
    forall name | name in Names(items) ensures name in Names(all) {
      var i :| 0 <= i < |items| && EntryName(items[i]) == Some(name);
      assert all[i] == items[i];
    }
    assert EntryName(all[|items|]).Some? ==> EntryName(e).value in Names(all);
    forall name | name in Names(all) && EntryName(e) != Some(name) ensures name in Names(items) {
      var i :| 0 <= i < |all| && EntryName(all[i]) == Some(name);
      assert items[i] == all[i];
    }
  }

  method NormalizePricing(pricing: Json) returns (r: Json)
    ensures r == Normalized(pricing)
  {
    if !EntryList(pricing) {
      return pricing;
    }
    var byName: map<string, Json> := map[];
    for i := 0 to |pricing.items|
      invariant byName.Keys == Names(pricing.items[..i])
      invariant forall name | name in byName :: byName[name] == LastNamed(pricing.items[..i], name)
    {
      var e := pricing.items[i];
      assert pricing.items[..i + 1] == pricing.items[..i] + [e];
      assert pricing.items[..i + 1][..i] == pricing.items[..i];
      NamesExtended(pricing.items[..i], e);
      var name := EntryName(e);
      if name.Some? {
        byName := byName[name.value := e];
      }
    }
    assert pricing.items[..|pricing.items|] == pricing.items;
    if byName.Keys == {} {
      return pricing;
    }
    return Obj(byName);
  }

  // ---------- main results ----------

  /** The names listed are the non-empty strings that entries give as their model names. */
  lemma {:induction false} NamesIff(items: seq<Json>, name: string)
    ensures name in Names(items) <==>
      && name != ""
      && exists i :: 0 <= i < |items| && items[i].Obj? && "model_name" in items[i].fields
                     && items[i].fields["model_name"] == Str(name)
  {
    if name in Names(items) {
      var i :| 0 <= i < |items| && EntryName(items[i]) == Some(name);
    }
    if name != "" {
      if i :| 0 <= i < |items| && items[i].Obj? && "model_name" in items[i].fields
              && items[i].fields["model_name"] == Str(name) {
        assert EntryName(items[i]) == Some(name);
      }
    }
  }

  /** A document is rewritten exactly when it is a list of objects and nulls that lists a name; otherwise it
      is left as it is. */
  lemma {:induction false} RewrittenIff(pricing: Json)
    ensures
      if pricing.Arr? && (forall i :: 0 <= i < |pricing.items| ==> pricing.items[i].Obj? || pricing.items[i].Null?)
         && (exists name :: name in Names(pricing.items))
      then Normalized(pricing).Obj? && Normalized(pricing).fields.Keys == Names(pricing.items)
      else Normalized(pricing) == pricing
  {
  }

  /** For every model name, slashes and tildes included, the escaped pointer to a field of the model
      finds that field of the last entry under the name. */
  lemma {:induction false} PointerFindsModel(items: seq<Json>, name: string, field: string, i: nat)
    requires EntryList(Arr(items)) && IsLast(items, name, i)
    ensures Lookup(Normalized(Arr(items)), Parts(Pointer([name, field]))) == Child(items[i], field)
  {
    assert name in Names(items);
    var k := LastNamedAt(items, name);
    LastIsUnique(items, name, i, k);
    PointerParts([name, field]);
    var doc := Normalized(Arr(items));
    assert [name, field][1..] == [field] && [field][1..] == [];
    assert Child(doc, name) == items[i];
    assert Lookup(doc, [name, field]) == Lookup(items[i], [field]) == Lookup(Child(items[i], field), []);
  }

  /** So a field that the entry has is found, and one that it has not is null. */
  lemma {:induction false} PointerFindsField(items: seq<Json>, name: string, field: string, i: nat)
    requires EntryList(Arr(items)) && i < |items| && name != ""
    requires items[i].Obj? && "model_name" in items[i].fields && items[i].fields["model_name"] == Str(name)
    requires forall j :: i < j < |items| && items[j].Obj? && "model_name" in items[j].fields ==>
               items[j].fields["model_name"] != Str(name)
    ensures Lookup(Normalized(Arr(items)), Parts(Pointer([name, field])))
         == if field in items[i].fields then items[i].fields[field] else Null
  {
    assert IsLast(items, name, i);
    PointerFindsModel(items, name, field, i);
  }

  /** A document that is already keyed by model name is left alone and looked up as it is. */
  lemma {:induction false} PointerFindsMember(fields: Object, name: string, field: string)
    requires name in fields && fields[name].Obj?
    ensures Normalized(Obj(fields)) == Obj(fields)
    ensures Lookup(Obj(fields), Parts(Pointer([name, field])))
         == if field in fields[name].fields then fields[name].fields[field] else Null
  {
    PointerParts([name, field]);
    assert [name, field][1..] == [field] && [field][1..] == [];
    assert Lookup(Obj(fields), [name, field]) == Lookup(fields[name], [field])
        == Lookup(Child(fields[name], field), []);
  }

  /** A token selects the item of an array whose index it prints, and nothing outside the array. */
  lemma {:induction false} IndexSelects(items: seq<Json>, index: int)
    requires MIN_INT64 <= index <= MAX_INT64
    ensures Child(Arr(items), Itoa(index)) == if 0 <= index < |items| then items[index] else Null
    ensures forall v: Json, part :: !v.Obj? && !v.Arr? ==> Child(v, part) == Null
  {
    ParsePrinted(index);
  }

  /** A model that is not listed, where others are, has no price. */
  lemma {:induction false} PointerMissesModel(items: seq<Json>, name: string, field: string)
    requires EntryList(Arr(items)) && Names(items) != {} && name !in Names(items)
    ensures Lookup(Normalized(Arr(items)), Parts(Pointer([name, field]))) == Null
  {
    PointerParts([name, field]);
    var doc := Normalized(Arr(items));
    assert [name, field][1..] == [field] && [field][1..] == [];
    assert Lookup(doc, [name, field]) == Lookup(Null, [field]) == Lookup(Null, []);
  }

  ghost predicate DistinctNames(items: seq<Json>) {
    forall i, j | 0 <= i < j < |items| :: EntryName(items[i]).Some? ==> EntryName(items[i]) != EntryName(items[j])
  }

  /** With distinct names, an entry is the last of its name wherever it stands. */
  lemma {:induction false} DistinctIsLast(items: seq<Json>, name: string, e: Json)
    requires DistinctNames(items) && e in items && EntryName(e) == Some(name)
    ensures name in Names(items) && LastNamed(items, name) == e
  {
    var i: nat :| i < |items| && items[i] == e;
    var k := LastNamedAt(items, name);
  }

  lemma {:induction false} TwiceIn(items: seq<Json>, i: nat, j: nat)
    requires i < j < |items| && items[i] == items[j]
    ensures multiset(items)[items[i]] >= 2
  {
    assert items == items[..j] + [items[j]] + items[j + 1..];
    assert items[..j][i] == items[i];
    assert items[i] in multiset(items[..j]);
  }

  lemma {:induction false} TwiceTells(items: seq<Json>, e: Json)
    requires multiset(items)[e] >= 2
    ensures exists i, j :: 0 <= i < j < |items| && items[i] == e == items[j]
  {
    var j :| 0 <= j < |items| && items[j] == e;
    assert items == items[..j] + [items[j]] + items[j + 1..];
    assert e in multiset(items[..j]) || e in multiset(items[j + 1..]);
    if e in items[..j] {
      var i :| 0 <= i < j && items[..j][i] == e;
      assert items[i] == e;
    } else {
      var k :| 0 <= k < |items| - j - 1 && items[j + 1..][k] == e;
      assert items[j + 1 + k] == e;
    }
  }

  lemma {:induction false} ReorderedStaysDistinct(items: seq<Json>, items': seq<Json>)
    requires multiset(items) == multiset(items') && DistinctNames(items)
    ensures DistinctNames(items')
  {
    forall i, j | 0 <= i < j < |items'| && EntryName(items'[i]).Some?
      ensures EntryName(items'[i]) != EntryName(items'[j])
    {
      if items'[i] == items'[j] {
        TwiceIn(items', i, j);
        TwiceTells(items, items'[i]);
      } else {
        assert items'[i] in multiset(items) && items'[j] in multiset(items);
        var k :| 0 <= k < |items| && items[k] == items'[i];
        var l :| 0 <= l < |items| && items[l] == items'[j];
        assert k < l || l < k;
      }
    }
  }

  lemma {:induction false} ReorderedHolds(items: seq<Json>, items': seq<Json>, name: string)
    requires multiset(items) == multiset(items') && DistinctNames(items) && DistinctNames(items')
    requires name in Names(items)
    ensures name in Names(items') && LastNamed(items, name) == LastNamed(items', name)
  {
    var i :| 0 <= i < |items| && EntryName(items[i]) == Some(name);
    assert items[i] in multiset(items');
    DistinctIsLast(items, name, items[i]);
    DistinctIsLast(items', name, items[i]);
  }

  /** Reordering entries with distinct names changes nothing. */
  lemma {:induction false} ReorderingChangesNothing(items: seq<Json>, items': seq<Json>)
    requires multiset(items) == multiset(items') && DistinctNames(items)
    requires EntryList(Arr(items)) && Names(items) != {}
    ensures Normalized(Arr(items')) == Normalized(Arr(items))
  {
    ReorderedStaysDistinct(items, items');
    forall i | 0 <= i < |items'| ensures items'[i].Obj? || items'[i].Null? {
      assert items'[i] in multiset(items);
    }
    forall name | name in Names(items)
      ensures name in Names(items') && LastNamed(items, name) == LastNamed(items', name)
    {
      ReorderedHolds(items, items', name);
    }
    forall name | name in Names(items') ensures name in Names(items) { ReorderedHolds(items', items, name); }
    assert Names(items) == Names(items');
  }
}
