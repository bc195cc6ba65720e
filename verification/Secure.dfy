/** The texts that agents sign. A string stands for its bytes, one character each; SHA-256 is
    a parameter of which only the shape of its output (64 hexadecimal digits) is used. */
module Secure {
  import opened Strings

  // ---------- the signed texts ----------

  function Registration(address: string, nonce: string, timestamp: int): string {
    REGISTER_PREFIX + address + "\nNonce: " + nonce + "\nTimestamp: " + Itoa(timestamp)
  }

  function Canonical(hash: string -> string, verb: string, target: string, timestamp: string,
                     nonce: string, idempotency: string, body: string): string
  {
    REQUEST_PREFIX + verb + "\n" + target + "\n" + timestamp + "\n"
    + nonce + "\n" + hash(body) + "\n" + idempotency
  }

  const PERSONAL_PREFIX := "\U{19}Ethereum Signed Message:\n"
  const REQUEST_PREFIX := "Kovar Agent Gateway\nAction: Request\n"
  const REGISTER_PREFIX := "Kovar Agent Gateway\n\nAction: Register\nAddress: "

  /** The EIP-191 version 0x45 text whose Keccak-256 hash is signed. */
  function PersonalMessage(message: string): string {
    PERSONAL_PREFIX + Itoa(|message|) + message
  }

  /** The texts as agents sign them. */
  lemma {:induction false} SignedTexts(hash: string -> string, a: string, b: string, c: string, d: string, e: string,
                                       body: string, n: int)
    ensures Registration(a, b, n) ==
      "Kovar Agent Gateway\n\nAction: Register\nAddress: " + a + "\nNonce: " + b + "\nTimestamp: " + Itoa(n)
    ensures Canonical(hash, a, b, c, d, e, body) ==
      "Kovar Agent Gateway\nAction: Request\n" + a + "\n" + b + "\n" + c + "\n" + d + "\n" + hash(body) + "\n" + e
    ensures PersonalMessage(a) == "\U{19}Ethereum Signed Message:\n" + Itoa(|a|) + a
  {
  }

  // ---------- the accepted fields ----------

  predicate HexDigit(c: char) {
    '0' <= c <= '9' || 'a' <= c <= 'f' || 'A' <= c <= 'F'
  }

  /** A request nonce or a hash: 32 bytes in hexadecimal. */
  predicate Hex32(s: string) {
    |s| == 64 && forall i :: 0 <= i < |s| ==> HexDigit(s[i])
  }

  predicate OneLine(s: string) {
    '\n' !in s
  }

  // ---------- injectivity ----------

  /** The separator after the first field tells where it ends. */
  lemma {:induction false} CutFirst(a: string, b: string, a': string, b': string)
    requires OneLine(a) && OneLine(a') && a + "\n" + b == a' + "\n" + b'
    ensures a == a' && b == b'
  {
    var s, t := a + "\n" + b, a' + "\n" + b';
    assert s[|a|] == '\n' && t[|a'|] == '\n';
    assert forall i | 0 <= i < |a| :: s[i] == a[i];
    assert forall i | 0 <= i < |a'| :: t[i] == a'[i];
    assert |a| == |a'|;
    assert a == s[..|a|] && a' == t[..|a'|];
    assert b == s[|a| + 1..] && b' == t[|a'| + 1..];
  }

  /** The separator before the last field tells where it begins. */
  lemma {:induction false} CutLast(a: string, sep: string, b: string, a': string, b': string)
    requires |sep| >= 1 && sep[0] == '\n' && (forall i | 0 < i < |sep| :: sep[i] != '\n')
    requires OneLine(b) && OneLine(b') && a + sep + b == a' + sep + b'
    ensures a == a' && b == b'
  {
    var s, t := a + sep + b, a' + sep + b';
    assert s[|a|] == '\n' && t[|a'|] == '\n';
    assert forall i | |a| < i < |s| :: s[i] != '\n' by {
      assert forall i | |a| < i < |s| ::
        s[i] == if i < |a| + |sep| then sep[i - |a|] else b[i - |a| - |sep|];
    }
    assert forall i | |a'| < i < |t| :: t[i] != '\n' by {
      assert forall i | |a'| < i < |t| ::
        t[i] == if i < |a'| + |sep| then sep[i - |a'|] else b'[i - |a'| - |sep|];
    }
    assert |a| == |a'|;
    assert a == s[..|a|] && a' == t[..|a'|];
    assert b == s[|a| + |sep|..] && b' == t[|a'| + |sep|..];
  }

  lemma {:induction false} DropPrefix(p: string, a: string, b: string)
    requires p + a == p + b
    ensures a == b
  {
    assert a == (p + a)[|p|..] && b == (p + b)[|p|..];
  }

  lemma {:induction false} NumeralIsOneLine(n: int)
    ensures OneLine(Itoa(n))
  {
    var digits := Utoa(if n < 0 then -n else n);
    assert forall c | c in digits :: IsDigit(c);
  }

  lemma {:induction false} UtoaLengthGrows(m: nat, n: nat)
    requires m <= n
    ensures |Utoa(m)| <= |Utoa(n)|
  {
    if m >= 10 { UtoaLengthGrows(m / 10, n / 10); }
  }

  /** A text behind its own decimal length: the length may run into the text, but their total length
      still determines it. */
  lemma {:induction false} LengthPrefixInjective(m: string, m': string)
    requires Utoa(|m|) + m == Utoa(|m'|) + m'
    ensures m == m'
  {
    var n, n' := Utoa(|m|), Utoa(|m'|);
    if |m| <= |m'| { UtoaLengthGrows(|m|, |m'|); } else { UtoaLengthGrows(|m'|, |m|); }
    assert |n + m| == |n' + m'|;
    assert m == (n + m)[|n|..] && m' == (n' + m')[|n'|..];
  }

  /** Two messages with one signing preimage are the same message. */
  lemma {:induction false} PersonalMessageInjective(m: string, m': string)
    requires PersonalMessage(m) == PersonalMessage(m')
    ensures m == m'
  {
    PersonalParts(m);
    PersonalParts(m');
    DropPrefix(PERSONAL_PREFIX, Utoa(|m|) + m, Utoa(|m'|) + m');
    LengthPrefixInjective(m, m');
  }

  lemma {:induction false} PersonalParts(m: string)
    ensures PersonalMessage(m) == PERSONAL_PREFIX + (Utoa(|m|) + m)
  {
  }

  /** The registration text determines the nonce, whatever it contains, and the other fields. */
  lemma {:induction false} RegistrationInjective(a: string, n: string, t: int, a': string, n': string, t': int)
    requires OneLine(a) && OneLine(a')
    requires Registration(a, n, t) == Registration(a', n', t')
    ensures a == a' && n == n' && t == t'
  {
    var prefix := REGISTER_PREFIX;
    var sep := "\nTimestamp: ";
    NumeralIsOneLine(t);
    NumeralIsOneLine(t');
    var front, front' := prefix + a + "\nNonce: " + n, prefix + a' + "\nNonce: " + n';
    assert Registration(a, n, t) == front + sep + Itoa(t);
    assert Registration(a', n', t') == front' + sep + Itoa(t');
    CutLast(front, sep, Itoa(t), front', Itoa(t'));
    ItoaInjective(t, t');
    assert front == prefix + (a + "\n" + ("Nonce: " + n));
    assert front' == prefix + (a' + "\n" + ("Nonce: " + n'));
    DropPrefix(prefix, a + "\n" + ("Nonce: " + n), a' + "\n" + ("Nonce: " + n'));
    CutFirst(a, "Nonce: " + n, a', "Nonce: " + n');
    DropPrefix("Nonce: ", n, n');
  }

  lemma {:induction false} HexIsOneLine(s: string)
    requires Hex32(s)
    ensures OneLine(s)
  {
  }

  lemma {:induction false} CanonicalParts(hash: string -> string, m: string, g: string, t: string, n: string,
                                          k: string, b: string)
    ensures Canonical(hash, m, g, t, n, k, b)
         == REQUEST_PREFIX + (m + "\n" + (g + "\n" + (t + "\n" + (n + "\n" + (hash(b) + "\n" + k)))))
  {
  }

  /** The request text determines its fields, the body up to its hash. The idempotency key comes
      last and may contain anything; the nonce and the hash are hexadecimal. */
  lemma {:induction false} CanonicalInjective(hash: string -> string,
                           m: string, g: string, t: string, n: string, k: string, b: string,
                           m': string, g': string, t': string, n': string, k': string, b': string)
    requires OneLine(m) && OneLine(g) && OneLine(t) && OneLine(m') && OneLine(g') && OneLine(t')
    requires Hex32(n) && Hex32(n') && Hex32(hash(b)) && Hex32(hash(b'))
    requires Canonical(hash, m, g, t, n, k, b) == Canonical(hash, m', g', t', n', k', b')
    ensures m == m' && g == g' && t == t' && n == n' && k == k' && hash(b) == hash(b')
  {
    var s4, s4' := hash(b) + "\n" + k, hash(b') + "\n" + k';
    var s3, s3' := n + "\n" + s4, n' + "\n" + s4';
    var s2, s2' := t + "\n" + s3, t' + "\n" + s3';
    var s1, s1' := g + "\n" + s2, g' + "\n" + s2';
    CanonicalParts(hash, m, g, t, n, k, b);
    CanonicalParts(hash, m', g', t', n', k', b');
    DropPrefix(REQUEST_PREFIX, m + "\n" + s1, m' + "\n" + s1');
    CutFirst(m, s1, m', s1');
    CutFirst(g, s2, g', s2');
    CutFirst(t, s3, t', s3');
    HexIsOneLine(n);
    HexIsOneLine(n');
    HexIsOneLine(hash(b));
    HexIsOneLine(hash(b'));
    CutFirst(n, s4, n', s4');
    CutFirst(hash(b), k, hash(b'), k');
  }

  lemma {:induction false} RegistrationStarts(a: string, n: string, t: int)
    ensures |Registration(a, n, t)| > 20 && Registration(a, n, t)[20] == REGISTER_PREFIX[20]
  {
  }

  /** No text is both a registration and a request, so neither signature can stand for the other. */
  lemma {:induction false} KindsNeverCollide(hash: string -> string, a: string, n: string, ts: int,
                          m: string, g: string, t: string, n': string, k: string, b: string)
    ensures PersonalMessage(Registration(a, n, ts)) != PersonalMessage(Canonical(hash, m, g, t, n', k, b))
  {
    var r, c := Registration(a, n, ts), Canonical(hash, m, g, t, n', k, b);
    RegistrationStarts(a, n, ts);
    CanonicalParts(hash, m, g, t, n', k, b);
    assert REGISTER_PREFIX[20] != REQUEST_PREFIX[20];
    if PersonalMessage(r) == PersonalMessage(c) { PersonalMessageInjective(r, c); }
  }
}
