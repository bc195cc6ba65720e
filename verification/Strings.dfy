/** The string operations of the Go standard library that the gateway relies on. */
module Strings {
  import opened Httpx

  // ---------- substrings ----------

  predicate OccursAt(s: string, p: string, i: nat) {
    i + |p| <= |s| && s[i..i + |p|] == p
  }

  ghost predicate Contains(s: string, p: string) {
    exists i: nat :: OccursAt(s, p, i)
  }

  /** The left-to-right, non-overlapping replacement of every occurrence of a non-empty `pattern`. */
  function ReplaceAll(s: string, pattern: string, sub: string): (r: string)
    requires pattern != ""
    decreases |s|
  {
    if s == "" then ""
    else if pattern <= s then sub + ReplaceAll(s[|pattern|..], pattern, sub)
    else [s[0]] + ReplaceAll(s[1..], pattern, sub)
  }

  lemma {:induction false} PrefixOccurs(s: string, p: string)
    requires p <= s
    ensures Contains(s, p)
  {
    assert OccursAt(s, p, 0);
  }

  lemma {:induction false} ContainsInSuffix(s: string, p: string, k: nat)
    requires k <= |s| && Contains(s[k..], p)
    ensures Contains(s, p)
  {
    var i: nat :| OccursAt(s[k..], p, i);
    assert s[k..][i..i + |p|] == s[k + i..k + i + |p|];
    assert OccursAt(s, p, k + i);
  }

  lemma {:induction false} ReplaceAllAbsent(s: string, pattern: string, sub: string)
    requires pattern != "" && !Contains(s, pattern)
    ensures ReplaceAll(s, pattern, sub) == s
    decreases |s|
  {
    if s != "" {
      assert !(pattern <= s) by {
        if pattern <= s { PrefixOccurs(s, pattern); }
      }
      assert !Contains(s[1..], pattern) by {
        if Contains(s[1..], pattern) { ContainsInSuffix(s, pattern, 1); }
      }
      ReplaceAllAbsent(s[1..], pattern, sub);
      assert s == [s[0]] + s[1..];
    }
  }

  // ---------- lower case ----------

  /** strings.ToLower, where it matters: on the characters whose lower case is in ASCII. */
  function LowerChar(c: char): char {
    if 'A' <= c <= 'Z' then (c as int + 32) as char
    else if c == '\U{212A}' then 'k'
    else if c == '\U{0130}' then 'i'
    else c
  }

  function Lower(s: string): string {
    seq(|s|, i requires 0 <= i < |s| => LowerChar(s[i]))
  }

  lemma {:induction false} ReplaceHit(pattern: string, rest: string, sub: string)
    requires pattern != ""
    ensures ReplaceAll(pattern + rest, pattern, sub) == sub + ReplaceAll(rest, pattern, sub)
  {
    var s := pattern + rest;
    assert pattern <= s && s[|pattern|..] == rest;
  }

  lemma {:induction false} ReplaceMiss(c: char, rest: string, pattern: string, sub: string)
    requires pattern != "" && !(pattern <= [c] + rest)
    ensures ReplaceAll([c] + rest, pattern, sub) == [c] + ReplaceAll(rest, pattern, sub)
  {
    assert ([c] + rest)[1..] == rest;
  }

  lemma {:induction false} ReplaceOther(c: char, rest: string, pattern: string, sub: string)
    requires pattern != "" && c != pattern[0]
    ensures ReplaceAll([c] + rest, pattern, sub) == [c] + ReplaceAll(rest, pattern, sub)
  {
    assert ([c] + rest)[0] == c;
    ReplaceMiss(c, rest, pattern, sub);
  }

  lemma {:induction false} OccursInTail(s: string, p: string, j: nat)
    requires s != ""
    ensures OccursAt(s[1..], p, j) <==> OccursAt(s, p, j + 1)
  {
    if j + 1 + |p| <= |s| { assert s[1..][j..j + |p|] == s[j + 1..j + 1 + |p|]; }
  }

  lemma {:induction false} ReplaceLater(s: string, pattern: string, sub: string)
    requires pattern != "" && s != "" && !OccursAt(s, pattern, 0)
    ensures ReplaceAll(s, pattern, sub) == [s[0]] + ReplaceAll(s[1..], pattern, sub)
  {
    assert s == [s[0]] + s[1..];
    ReplaceMiss(s[0], s[1..], pattern, sub);
  }

  /** The first occurrence is replaced, what comes before it is kept, and replacing goes on after it. */
  lemma {:induction false} ReplaceFirst(s: string, pattern: string, sub: string, i: nat)
    requires pattern != "" && OccursAt(s, pattern, i) && forall j: nat :: j < i ==> !OccursAt(s, pattern, j)
    ensures ReplaceAll(s, pattern, sub) == s[..i] + (sub + ReplaceAll(s[i + |pattern|..], pattern, sub))
    decreases i
  {
    if i == 0 {
      assert s == pattern + s[|pattern|..];
      ReplaceHit(pattern, s[|pattern|..], sub);
    } else {
      var t := s[1..];
      OccursInTail(s, pattern, i - 1);
      forall j: nat | j < i - 1 ensures !OccursAt(t, pattern, j) { OccursInTail(s, pattern, j); }
      ReplaceFirst(t, pattern, sub, i - 1);
      ReplaceLater(s, pattern, sub);
      assert t[i - 1 + |pattern|..] == s[i + |pattern|..];
      assert s[..i] == [s[0]] + t[..i - 1];
    }
  }

  /** Texts that differ only in the case of ASCII letters have one lower-case form, which has none. */
  lemma {:induction false} LowerFolds(s: string, t: string)
    requires |s| == |t|
    requires forall i :: 0 <= i < |s| ==>
      s[i] == t[i] || ('A' <= s[i] <= 'Z' && t[i] as int == s[i] as int + 32)
                   || ('A' <= t[i] <= 'Z' && s[i] as int == t[i] as int + 32)
    ensures Lower(s) == Lower(t)
    ensures forall i :: 0 <= i < |s| ==> !('A' <= Lower(s)[i] <= 'Z')
    ensures (forall i :: 0 <= i < |s| ==> s[i] as int < 128 && !('A' <= s[i] <= 'Z')) ==> Lower(s) == s
  {
    forall i | 0 <= i < |s| ensures LowerChar(s[i]) == LowerChar(t[i]) && !('A' <= LowerChar(s[i]) <= 'Z') {}
  }

  // ---------- white space ----------

  /** unicode.IsSpace */
  predicate IsSpace(c: char) {
    || c in {' ', '\t', '\n', '\r', '\U{0B}', '\U{0C}', '\U{85}', '\U{A0}', '\U{1680}',
             '\U{2028}', '\U{2029}', '\U{202F}', '\U{205F}', '\U{3000}'}
    || '\U{2000}' <= c <= '\U{200A}'
  }

  /** strings.TrimSpace */
  function TrimSpace(s: string): string {
    if s == "" then ""
    else if IsSpace(s[0]) then TrimSpace(s[1..])
    else if IsSpace(s[|s| - 1]) then TrimSpace(s[..|s| - 1])
    else s
  }

  lemma {:induction false} TrimsFront(pad: string, s: string)
    requires forall i :: 0 <= i < |pad| ==> IsSpace(pad[i])
    ensures TrimSpace(pad + s) == TrimSpace(s)
  {
    if pad == "" {
      assert pad + s == s;
    } else {
      assert (pad + s)[1..] == pad[1..] + s;
      TrimsFront(pad[1..], s);
    }
  }

  lemma {:induction false} TrimsBack(s: string, pad: string)
    requires forall i :: 0 <= i < |pad| ==> IsSpace(pad[i])
    requires s != "" && !IsSpace(s[0]) && !IsSpace(s[|s| - 1])
    ensures TrimSpace(s + pad) == s
    decreases |pad|
  {
    var t := s + pad;
    if pad == "" {
      assert t == s;
    } else {
      assert t[0] == s[0] && t[|t| - 1] == pad[|pad| - 1];
      assert t[..|t| - 1] == s + pad[..|pad| - 1];
      TrimsBack(s, pad[..|pad| - 1]);
    }
  }

  /** Trimming removes the space around a text that neither starts nor ends with space, and only that. */
  lemma {:induction false} Trimmed(pad: string, s: string, after: string)
    requires forall i :: 0 <= i < |pad| ==> IsSpace(pad[i])
    requires forall i :: 0 <= i < |after| ==> IsSpace(after[i])
    requires s != "" ==> !IsSpace(s[0]) && !IsSpace(s[|s| - 1])
    ensures TrimSpace(pad + (s + after)) == s
  {
    TrimsFront(pad, s + after);
    if s == "" {
      assert s + after == after && after + "" == after;
      TrimsFront(after, "");
    } else {
      TrimsBack(s, after);
    }
  }

  // ---------- splitting ----------

  function Split(s: string, sep: char): (parts: seq<string>)
    ensures |parts| >= 1
  {
    if s == "" then [""]
    else
      var rest := Split(s[1..], sep);
      if s[0] == sep then [""] + rest else [[s[0]] + rest[0]] + rest[1..]
  }

  function Join(parts: seq<string>, sep: char): string
    requires |parts| >= 1
  {
    if |parts| == 1 then parts[0] else parts[0] + [sep] + Join(parts[1..], sep)
  }

  lemma {:induction false} SplitFree(s: string, sep: char)
    requires sep !in s
    ensures Split(s, sep) == [s]
  {
    if s != "" {
      SplitFree(s[1..], sep);
      assert [s[0]] + s[1..] == s;
    }
  }

  lemma {:induction false} SplitAfter(s: string, t: string, sep: char)
    requires sep !in s
    ensures Split(s + [sep] + t, sep) == [s] + Split(t, sep)
  {
    var u := s + [sep] + t;
    if s == "" {
      assert u[1..] == t;
    } else {
      assert u[1..] == s[1..] + [sep] + t;
      SplitAfter(s[1..], t, sep);
      assert [[s[0]] + s[1..]] + Split(t, sep) == [s] + Split(t, sep) by { assert [s[0]] + s[1..] == s; }
    }
  }

  /** Splitting recovers exactly the parts that were joined. */
  lemma {:induction false} SplitJoin(parts: seq<string>, sep: char)
    requires |parts| >= 1 && forall i :: 0 <= i < |parts| ==> sep !in parts[i]
    ensures Split(Join(parts, sep), sep) == parts
  {
    if |parts| == 1 {
      SplitFree(parts[0], sep);
      assert parts == [parts[0]];
    } else {
      SplitJoin(parts[1..], sep);
      SplitAfter(parts[0], Join(parts[1..], sep), sep);
      assert parts == [parts[0]] + parts[1..];
    }
  }

  // ---------- decimal numerals ----------

  predicate IsDigit(c: char) {
    '0' <= c <= '9'
  }

  predicate AllDigits(s: string) {
    forall i :: 0 <= i < |s| ==> IsDigit(s[i])
  }

  function DigitsValue(s: string): nat
    requires AllDigits(s)
  {
    if s == "" then 0 else 10 * DigitsValue(s[..|s| - 1]) + (s[|s| - 1] as int - '0' as int)
  }

  const MIN_INT64: int := -0x8000_0000_0000_0000
  const MAX_INT64: int := 0x7fff_ffff_ffff_ffff

  /** strconv.ParseInt in base ten for 64 bits: an optional sign, then at least one digit, in range. */
  function ParseInt(s: string): Option<int> {
    var digits := if s != "" && (s[0] == '-' || s[0] == '+') then s[1..] else s;
    if digits == "" || !AllDigits(digits) then None
    else
      var n: int := if s[0] == '-' then 0 - DigitsValue(digits) else DigitsValue(digits);
      if MIN_INT64 <= n <= MAX_INT64 then Some(n) else None
  }

  /** The decimal numeral of a natural number. */
  function Utoa(n: nat): (s: string)
    ensures s != "" && AllDigits(s) && DigitsValue(s) == n && (n == 0 <==> s[0] == '0')
  {
    var last := [(n % 10 + '0' as int) as char];
    if n < 10 then last
    else
      var s := Utoa(n / 10) + last;
      assert s[..|s| - 1] == Utoa(n / 10);
      s
  }

  /** strconv.Itoa */
  function Itoa(n: int): (s: string) {
    if n < 0 then "-" + Utoa(-n) else Utoa(n)
  }

  lemma {:induction false} ItoaInjective(m: int, n: int)
    requires Itoa(m) == Itoa(n)
    ensures m == n
  {
    assert (m < 0) == (Itoa(m)[0] == '-') by { assert IsDigit(Utoa(if m < 0 then -m else m)[0]); }
    assert (n < 0) == (Itoa(n)[0] == '-') by { assert IsDigit(Utoa(if n < 0 then -n else n)[0]); }
    if m < 0 {
      assert Itoa(m)[1..] == Utoa(-m) && Itoa(n)[1..] == Utoa(-n);
    }
  }

  /** Digits are read with or without a sign, as far as they fit 64 bits. */
  lemma {:induction false} ParseSigned(digits: string)
    requires digits != "" && AllDigits(digits)
    ensures var n := DigitsValue(digits);
      && ParseInt(digits) == ParseInt("+" + digits) == (if n <= MAX_INT64 then Some(n) else None)
      && ParseInt("-" + digits) == (if 0 - n >= MIN_INT64 then Some(0 - n) else None)
  {
    assert ("+" + digits)[1..] == digits && ("-" + digits)[1..] == digits;
    assert IsDigit(digits[0]);
  }

  lemma {:induction false} ParseRefuses(s: string)
    ensures ParseInt(s).Some? ==>
      && s != "" && (IsDigit(s[0]) || ((s[0] == '-' || s[0] == '+') && |s| > 1))
      && forall i :: 0 < i < |s| ==> IsDigit(s[i])
  {
  }

  /** A printed 64-bit integer is read back as itself. */
  lemma {:induction false} ParsePrinted(n: int)
    requires MIN_INT64 <= n <= MAX_INT64
    ensures ParseInt(Itoa(n)) == Some(n)
  {
    if n < 0 {
      assert Itoa(n)[1..] == Utoa(-n);
    } else {
      assert IsDigit(Utoa(n)[0]);
    }
  }
}
