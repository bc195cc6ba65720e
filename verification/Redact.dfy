/** Removal of credentials from the JSON that upstream services return. */
module Redact {
  import opened Httpx
  import opened Strings
  import opened Json

  const TAG := "[REDACTED]"

  // ---------- what is removed ----------

  const EXACT_KEYS: set<string> :=
    {"key", "api_key", "access_token", "refresh_token", "authorization", "cookie", "session"}

  ghost predicate SensitiveKey(k: string) {
    var lower := Lower(ReplaceAll(k, "-", "_"));
    || Contains(lower, "password") || Contains(lower, "secret") || Contains(lower, "private_key")
    || lower in EXACT_KEYS
  }

  /** Replaces the secrets one after the other; an empty secret is skipped. */
  function Scrub(s: string, secrets: seq<string>): string
    decreases |secrets|
  {
    if secrets == [] then s
    else Scrub(if secrets[0] == "" then s else ReplaceAll(s, secrets[0], TAG), secrets[1..])
  }

  /** The sanitized form of a value: what `sanitize` must return for it. */
  ghost function Clean(v: Json, secrets: seq<string>): Json {
    match v
    case Str(s) => Str(Scrub(s, secrets))
    case Arr(items) => Arr(seq(|items|, i requires 0 <= i < |items| => Clean(items[i], secrets)))
    case Obj(fields) => Obj(map k | k in fields && !SensitiveKey(k) :: Clean(fields[k], secrets))
    case _ => v
  }

  // ---------- the code ----------

  method ContainsText(s: string, p: string) returns (found: bool)
    ensures found <==> Contains(s, p)
  {
    var i := 0;
    while i + |p| <= |s|
      invariant forall j: nat | j < i :: !OccursAt(s, p, j)
    {
      if s[i..i + |p|] == p {
        assert OccursAt(s, p, i);
        return true;
      }
      i := i + 1;
    }
    return false;
  }

  method IsSensitive(k: string) returns (sensitive: bool)
    ensures sensitive <==> SensitiveKey(k)
    ensures sensitive <==>
      var lower := Lower(ReplaceAll(k, "-", "_"));
      || Contains(lower, "password") || Contains(lower, "secret") || Contains(lower, "private_key")
      || lower == "key" || lower == "api_key" || lower == "access_token" || lower == "refresh_token"
      || lower == "authorization" || lower == "cookie" || lower == "session"
  {
    var lower := Lower(ReplaceAll(k, "-", "_"));
    var password := ContainsText(lower, "password");
    var secret := ContainsText(lower, "secret");
    var privateKey := ContainsText(lower, "private_key");
    return password || secret || privateKey || lower in EXACT_KEYS;
  }

  method ScrubText(text: string, secrets: seq<string>) returns (s: string)
    ensures s == Scrub(text, secrets)
  {
    s := text;
    for i := 0 to |secrets|
      invariant Scrub(s, secrets[i..]) == Scrub(text, secrets)
    {
      assert secrets[i..][1..] == secrets[i + 1..];
      if secrets[i] != "" {
        s := ReplaceAll(s, secrets[i], TAG);
      }
    }
    assert secrets[|secrets|..] == [];
  }

  /** Walks the entries of one object in an arbitrary order, deleting and overwriting them. */
  method RedactFields(fields: Object, secrets: seq<string>) returns (x: Object)
    ensures Obj(x) == Clean(Obj(fields), secrets)
    decreases Obj(fields), 0
  {
    x := fields;
    var todo := fields.Keys;
    while todo != {}
      invariant todo <= fields.Keys
      invariant forall k :: k in x <==> k in fields && (k in todo || !SensitiveKey(k))
      invariant forall k :: k in x ==> x[k] == if k in todo then fields[k] else Clean(fields[k], secrets)
      decreases todo
    {
      var k :| k in todo;
      todo := todo - {k};
      var sensitive := IsSensitive(k);
      if sensitive {
        x := x - {k};
      } else {
        assert fields[k] < Obj(fields);
        var value := RedactValue(fields[k], secrets);
        x := x[k := value];
      }
    }
  }

  method RedactItems(items: seq<Json>, secrets: seq<string>) returns (x: seq<Json>)
    ensures Arr(x) == Clean(Arr(items), secrets)
    decreases Arr(items), 0
  {
    x := items;
    for i := 0 to |items|
      invariant |x| == |items|
      invariant forall j :: 0 <= j < |x| ==> x[j] == if j < i then Clean(items[j], secrets) else items[j]
    {
      var value := RedactValue(items[i], secrets);
      x := x[i := value];
    }
  }

  method RedactValue(v: Json, secrets: seq<string>) returns (r: Json)
    ensures r == Clean(v, secrets)
    decreases v, 1
  {
    match v
    case Str(s) =>
      var text := ScrubText(s, secrets);
      r := Str(text);
    case Arr(items) =>
      var x := RedactItems(items, secrets);
      r := Arr(x);
    case Obj(fields) =>
      var x := RedactFields(fields, secrets);
      r := Obj(x);
    case _ =>
      r := v;
  }

  // ---------- replacing a secret by the tag ----------

  ghost predicate BracketFree(p: string) {
    '[' !in p && ']' !in p
  }

  /** A secret that the tag cannot reintroduce. */
  ghost predicate Scrubbable(p: string) {
    p != "" ==> BracketFree(p) && !Contains("REDACTED", p)
  }

  lemma {:induction false} PrefixKept(s: string, pattern: string, p: string)
    requires pattern != "" && BracketFree(p) && p <= ReplaceAll(s, pattern, TAG)
    ensures p <= s
    decreases |s|
  {
    if p != "" && s != "" {
      assert p[0] == ReplaceAll(s, pattern, TAG)[0];
      if pattern <= s {
        assert false;
      } else {
        var rest := ReplaceAll(s[1..], pattern, TAG);
        assert ([s[0]] + rest)[1..] == rest;
        PrefixKept(s[1..], pattern, p[1..]);
      }
    }
  }

  /** An occurrence that ends inside the tag or starts in it lies between its brackets. */
  lemma {:induction false} OccursAroundTag(rest: string, p: string, i: nat)
    requires p != "" && BracketFree(p) && OccursAt(TAG + rest, p, i)
    ensures Contains("REDACTED", p) || (i >= |TAG| && OccursAt(rest, p, i - |TAG|))
  {
    var t := TAG + rest;
    assert forall j | 0 <= j < |p| :: p[j] == t[i + j];
    if i < |TAG| {
      assert p[0] == t[i] && t[9] == ']';
      assert i != 0 && i != 9;
      assert forall j | 0 <= j < |p| :: p[j] != t[9] && i + j != 9;
      assert forall k | 0 <= k < 8 :: "REDACTED"[k] == t[k + 1];
      assert "REDACTED"[i - 1..i - 1 + |p|] == t[i..i + |p|];
      assert OccursAt("REDACTED", p, i - 1);
    } else {
      assert t[i..i + |p|] == rest[i - |TAG|..i - |TAG| + |p|];
    }
  }

  /** Replacing one secret never makes another one appear, and removes its own. */
  lemma {:induction false} ReplacedOccurrence(s: string, pattern: string, p: string, i: nat)
    requires pattern != "" && p != "" && Scrubbable(p)
    requires OccursAt(ReplaceAll(s, pattern, TAG), p, i)
    ensures p != pattern && Contains(s, p)
    decreases |s|
  {
    if s == "" {
      assert false;
    } else if pattern <= s {
      var tail := s[|pattern|..];
      OccursAroundTag(ReplaceAll(tail, pattern, TAG), p, i);
      ReplacedOccurrence(tail, pattern, p, i - |TAG|);
      ContainsInSuffix(s, p, |pattern|);
    } else if i == 0 {
      assert p <= ReplaceAll(s, pattern, TAG);
      PrefixKept(s, pattern, p);
      PrefixOccurs(s, p);
    } else {
      var rest := ReplaceAll(s[1..], pattern, TAG);
      assert ([s[0]] + rest)[i..i + |p|] == rest[i - 1..i - 1 + |p|];
      ReplacedOccurrence(s[1..], pattern, p, i - 1);
      ContainsInSuffix(s, p, 1);
    }
  }

  lemma {:induction false} ReplaceRemoves(s: string, pattern: string, p: string)
    requires pattern != "" && p != "" && Scrubbable(p)
    ensures !Contains(ReplaceAll(s, pattern, TAG), pattern) || !Scrubbable(pattern)
    ensures Contains(ReplaceAll(s, pattern, TAG), p) ==> Contains(s, p)
  {
    var r := ReplaceAll(s, pattern, TAG);
    if Contains(r, p) {
      var i: nat :| OccursAt(r, p, i);
      ReplacedOccurrence(s, pattern, p, i);
    }
    if Contains(r, pattern) && Scrubbable(pattern) {
      var i: nat :| OccursAt(r, pattern, i);
      ReplacedOccurrence(s, pattern, pattern, i);
    }
  }

  ghost predicate AlwaysRemoved(p: string)
    requires p != ""
  {
    forall s :: !Contains(ReplaceAll(s, p, TAG), p)
  }

  /** For a secret without brackets, replacement removes it from every text
      exactly when the secret is not part of the word inside the tag. */
  lemma {:induction false} ReplacementIsEffectiveIff(p: string)
    requires p != "" && BracketFree(p)
    ensures AlwaysRemoved(p) <==> !Contains("REDACTED", p)
  {
    if Contains("REDACTED", p) {
      var i: nat :| OccursAt("REDACTED", p, i);
      var r := ReplaceAll(p, p, TAG);
      assert p[|p|..] == "" && p <= p;
      assert r == TAG + ReplaceAll("", p, TAG);
      assert r == TAG;
      assert TAG[1..9] == "REDACTED";
      assert TAG[i + 1..i + 1 + |p|] == "REDACTED"[i..i + |p|];
      assert OccursAt(r, p, i + 1);
      assert !AlwaysRemoved(p) by { assert Contains(ReplaceAll(p, p, TAG), p); }
    } else {
      forall s ensures !Contains(ReplaceAll(s, p, TAG), p) { ReplaceRemoves(s, p, p); }
    }
  }

  lemma {:induction false} ScrubKeepsOut(s: string, secrets: seq<string>, p: string)
    requires p != "" && Scrubbable(p) && !Contains(s, p)
    ensures !Contains(Scrub(s, secrets), p)
    decreases |secrets|
  {
    if secrets != [] {
      if secrets[0] == "" {
        ScrubKeepsOut(s, secrets[1..], p);
      } else {
        ReplaceRemoves(s, secrets[0], p);
        ScrubKeepsOut(ReplaceAll(s, secrets[0], TAG), secrets[1..], p);
      }
    }
  }

  lemma {:induction false} ScrubRemoves(s: string, secrets: seq<string>, p: string)
    requires p in secrets && p != "" && Scrubbable(p)
    ensures !Contains(Scrub(s, secrets), p)
    decreases |secrets|
  {
    var first := secrets[0];
    var next := if first == "" then s else ReplaceAll(s, first, TAG);
    if first == p {
      ReplaceRemoves(s, p, p);
      ScrubKeepsOut(next, secrets[1..], p);
    } else {
      ScrubRemoves(next, secrets[1..], p);
    }
  }

  lemma {:induction false} ScrubAbsent(s: string, secrets: seq<string>)
    requires forall p :: p in secrets && p != "" ==> !Contains(s, p)
    ensures Scrub(s, secrets) == s
    decreases |secrets|
  {
    if secrets != [] {
      if secrets[0] != "" { ReplaceAllAbsent(s, secrets[0], TAG); }
      ScrubAbsent(s, secrets[1..]);
    }
  }

  // ---------- main results, stated at every depth of the document ----------

  datatype Step = Field(name: string) | Item(index: nat)

  /** The value at a path of a document. */
  function At(v: Json, path: seq<Step>): Option<Json>
    decreases |path|
  {
    if path == [] then Some(v)
    else match (path[0], v)
      case (Field(k), Obj(fields)) => if k in fields then At(fields[k], path[1..]) else None
      case (Item(i), Arr(items)) => if i < |items| then At(items[i], path[1..]) else None
      case _ => None
  }

  ghost predicate ThroughSensitive(path: seq<Step>) {
    exists i :: 0 <= i < |path| && path[i].Field? && SensitiveKey(path[i].name)
  }

  /** Nothing is left below a sensitive key; at every other path stands the sanitized form of what
      stood there, and a path that led nowhere still does. So scalars other than strings, array
      lengths and the other keys are kept. */
  lemma {:induction false} CleanAt(v: Json, secrets: seq<string>, path: seq<Step>)
    ensures At(Clean(v, secrets), path) ==
            if ThroughSensitive(path) then None
            else match At(v, path) case None => None case Some(x) => Some(Clean(x, secrets))
    decreases |path|
  {
    if path != [] {
      var rest := path[1..];
      assert forall i :: 0 <= i < |rest| ==> rest[i] == path[i + 1];
      assert ThroughSensitive(path) <==>
        (path[0].Field? && SensitiveKey(path[0].name)) || ThroughSensitive(rest) by {
        if ThroughSensitive(path) {
          var i :| 0 <= i < |path| && path[i].Field? && SensitiveKey(path[i].name);
          if i > 0 { assert rest[i - 1] == path[i]; }
        }
      }
      match (path[0], v)
      case (Field(k), Obj(fields)) =>
        if k in fields && !SensitiveKey(k) { CleanAt(fields[k], secrets, rest); }
      case (Item(i), Arr(items)) =>
        if i < |items| { CleanAt(items[i], secrets, rest); }
      case _ =>
    }
  }

  /** At every path outside sensitive keys: numbers, booleans and nulls are equal to what stood there, a
      string is what stood there with the secrets replaced one after the other, an array has as many
      items, and an object has exactly its keys that are not sensitive. Nothing else appears. */
  lemma {:induction false} StructureIsKept(v: Json, secrets: seq<string>, path: seq<Step>)
    requires forall i :: 0 <= i < |path| && path[i].Field? ==> !SensitiveKey(path[i].name)
    ensures var x, y := At(v, path), At(Clean(v, secrets), path);
      && (x.None? <==> y.None?)
      && (x.Some? ==>
            match x.value
            case Str(s) => y.value == Str(Scrub(s, secrets))
            case Arr(items) => y.value.Arr? && |y.value.items| == |items|
            case Obj(fields) =>
              y.value.Obj? && forall k :: k in y.value.fields <==> k in fields && !SensitiveKey(k)
            case _ => y == x)
  {
    CleanAt(v, secrets, path);
  }

  /** The first occurrence of a secret is replaced by the tag, what comes before it is kept, and the rest is
      scrubbed in the same way; a text without the secret is kept. */
  lemma {:induction false} FirstIsReplaced(s: string, p: string, i: nat)
    requires p != "" && OccursAt(s, p, i) && forall j: nat :: j < i ==> !OccursAt(s, p, j)
    ensures Scrub(s, [p]) == s[..i] + ("[REDACTED]" + Scrub(s[i + |p|..], [p]))
  {
    ReplaceFirst(s, p, "[REDACTED]", i);
    assert [p][1..] == [];
  }

  lemma {:induction false} SecretsInTurn(s: string, p: string, rest: seq<string>)
    ensures Scrub(s, [p] + rest) == Scrub(if p == "" then s else Scrub(s, [p]), rest)
    ensures (p != "" ==> !Contains(s, p)) ==> Scrub(s, [p]) == s
  {
    assert ([p] + rest)[1..] == rest && [p][1..] == [];
    if p != "" && !Contains(s, p) { ReplaceAllAbsent(s, p, TAG); }
  }

  /** No string at any depth contains a secret. */
  lemma {:induction false} NoSecretSurvives(v: Json, secrets: seq<string>, path: seq<Step>, text: string, p: string)
    requires p in secrets && p != "" && Scrubbable(p)
    requires At(Clean(v, secrets), path) == Some(Str(text))
    ensures !Contains(text, p)
  {
    CleanAt(v, secrets, path);
    ScrubRemoves(At(v, path).value.s, secrets, p);
  }

  /** No object at any depth has a sensitive key. */
  lemma {:induction false} NoSensitiveKeySurvives(v: Json, secrets: seq<string>, path: seq<Step>, fields: Object,
                                                  k: string)
    requires At(Clean(v, secrets), path) == Some(Obj(fields)) && k in fields
    ensures !SensitiveKey(k)
  {
    CleanAt(v, secrets, path);
  }

  /** Sanitizing twice is sanitizing once. */
  lemma {:induction false} CleanTwice(v: Json, secrets: seq<string>)
    requires forall p :: p in secrets ==> Scrubbable(p)
    ensures Clean(Clean(v, secrets), secrets) == Clean(v, secrets)
    decreases v
  {
    match v
    case Str(s) =>
      forall p | p in secrets && p != "" ensures !Contains(Scrub(s, secrets), p) {
        ScrubRemoves(s, secrets, p);
      }
      ScrubAbsent(Scrub(s, secrets), secrets);
    case Arr(items) =>
      forall i | 0 <= i < |items|
        ensures Clean(Clean(items[i], secrets), secrets) == Clean(items[i], secrets)
      {
        CleanTwice(items[i], secrets);
      }
    case Obj(fields) =>
      forall k | k in fields
        ensures Clean(Clean(fields[k], secrets), secrets) == Clean(fields[k], secrets)
      {
        CleanTwice(fields[k], secrets);
      }
    case _ =>
  }
}
