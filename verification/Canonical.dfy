/** The strings a request is signed over (internal/signing/agent.go, hmac.go). The body
    appears only as the hex of its hash, which holds no newline. */
module Canonical {
  import opened Decimals
  import opened Strings

  const NL: char := '\n'

  datatype Request = Request(verb: string, path: string, query: string, bodyHash: string, ts: int)

  function ToUpper(s: string): (u: string)
    ensures |u| == |s|
  {
    seq(|s|, i requires 0 <= i < |s| => if 'a' <= s[i] <= 'z' then s[i] - 'a' + 'A' else s[i])
  }

  function IntText(n: int): string { if n < 0 then "-" + NatText(-n) else NatText(n) }

  function ReadInt(s: string): int {
    var neg := s != "" && s[0] == '-';
    var digits := if neg then s[1..] else s;
    if !AllDigits(digits) then 0 else if neg then -(DigitsValue(digits) as int) else DigitsValue(digits)
  }

  function AgentCanonical(r: Request, nonce: nat): string {
    ToUpper(r.verb) + [NL] + r.path + [NL] + r.query + [NL] + r.bodyHash + [NL] + IntText(r.ts) + [NL] + NatText(nonce)
  }

  function HmacCanonical(r: Request): string {
    IntText(r.ts) + [NL] + ToUpper(r.verb) + [NL] + r.path + [NL] + r.query + [NL] + r.bodyHash
  }

  predicate OneLine(s: string) { NL !in s }

  predicate Plain(r: Request) { OneLine(r.verb) && OneLine(r.path) && OneLine(r.query) && OneLine(r.bodyHash) }

  lemma UpperIsOneLine(s: string)
    requires OneLine(s)
    ensures OneLine(ToUpper(s))
  {
    forall i | 0 <= i < |s| ensures ToUpper(s)[i] != NL { assert s[i] in s; }
  }

  lemma IntTextReads(n: int)
    ensures OneLine(IntText(n)) && ReadInt(IntText(n)) == n
  {
    if n < 0 {
      NatTextValue(-n);
      DigitsAreOneLine(NatText(-n));
      assert IntText(n)[1..] == NatText(-n);
    } else {
      NatTextValue(n);
      DigitsAreOneLine(NatText(n));
    }
    hide DigitsValue, NatText, IsIntPart;
  }

  lemma DigitsAreOneLine(s: string)
    requires AllDigits(s)
    ensures OneLine(s) && '-' !in s
  {
  }

  // Joining with newlines, and splitting again.
  function Joined(fields: seq<string>): string
    requires fields != []
  {
    if |fields| == 1 then fields[0] else fields[0] + [NL] + Joined(fields[1..])
  }

  lemma {:induction false} SplitJoined(fields: seq<string>)
    requires fields != [] && forall f :: f in fields ==> OneLine(f)
    ensures Split(Joined(fields), NL) == fields
  {
    hide Split;
    assert OneLine(fields[0]);
    if |fields| == 1 {
      SplitWhole(fields[0], NL);
    } else {
      SplitFirst(fields[0], NL, Joined(fields[1..]));
      SplitJoined(fields[1..]);
    }
  }

  function AgentFields(r: Request, nonce: nat): seq<string> {
    [ToUpper(r.verb), r.path, r.query, r.bodyHash, IntText(r.ts), NatText(nonce)]
  }

  function HmacFields(r: Request): seq<string> {
    [IntText(r.ts), ToUpper(r.verb), r.path, r.query, r.bodyHash]
  }

  lemma Joined2(a: string, rest: seq<string>)
    requires rest != []
    ensures Joined([a] + rest) == a + [NL] + Joined(rest)
  {
    assert ([a] + rest)[1..] == rest;
  }

  lemma AgentIsJoined(r: Request, nonce: nat)
    ensures AgentCanonical(r, nonce) == Joined(AgentFields(r, nonce))
  {
    var v, p, q, b, t, n := ToUpper(r.verb), r.path, r.query, r.bodyHash, IntText(r.ts), NatText(nonce);
    JoinedSix(v, p, q, b, t, n);
  }

  lemma JoinedFive(a: string, b: string, c: string, d: string, e: string)
    ensures Joined([a, b, c, d, e]) == a + [NL] + b + [NL] + c + [NL] + d + [NL] + e
  {
    Joined2(d, [e]);
    Joined2(c, [d, e]);
    Joined2(b, [c, d, e]);
    Joined2(a, [b, c, d, e]);
    assert [a] + [b, c, d, e] == [a, b, c, d, e] && [b] + [c, d, e] == [b, c, d, e] && [c] + [d, e] == [c, d, e] && [d] + [e] == [d, e];
  }

  lemma JoinedSix(a: string, b: string, c: string, d: string, e: string, f: string)
    ensures Joined([a, b, c, d, e, f]) == a + [NL] + b + [NL] + c + [NL] + d + [NL] + e + [NL] + f
  {
    JoinedFive(b, c, d, e, f);
    Joined2(a, [b, c, d, e, f]);
    assert [a] + [b, c, d, e, f] == [a, b, c, d, e, f];
  }

  /** A newline splitter gives back every field of the agent's string, in order. */
  lemma AgentDecodes(r: Request, nonce: nat)
    requires Plain(r)
    ensures var f := Split(AgentCanonical(r, nonce), NL);
            && |f| == 6 && f[0] == ToUpper(r.verb) && f[1] == r.path && f[2] == r.query
            && f[3] == r.bodyHash && ReadInt(f[4]) == r.ts && ReadInt(f[5]) == nonce
  {
    UpperIsOneLine(r.verb);
    IntTextReads(r.ts);
    IntTextReads(nonce);
    AgentIsJoined(r, nonce);
    hide ToUpper, NatText, Split;
    SplitJoined(AgentFields(r, nonce));
  }

  /** And of the HMAC string, whose order is another. */
  lemma HmacDecodes(r: Request)
    requires Plain(r)
    ensures var f := Split(HmacCanonical(r), NL);
            && |f| == 5 && ReadInt(f[0]) == r.ts && f[1] == ToUpper(r.verb) && f[2] == r.path
            && f[3] == r.query && f[4] == r.bodyHash
  {
    UpperIsOneLine(r.verb);
    IntTextReads(r.ts);
    hide ToUpper, NatText, IntText, Split;
    JoinedFive(IntText(r.ts), ToUpper(r.verb), r.path, r.query, r.bodyHash);
    SplitJoined(HmacFields(r));
  }

  // The same request, but for the case its method was written in.
  predicate SameRequest(a: Request, b: Request) {
    ToUpper(a.verb) == ToUpper(b.verb) && a.path == b.path && a.query == b.query && a.bodyHash == b.bodyHash && a.ts == b.ts
  }

  /** Two requests have one canonical string only if they are one request. */
  lemma CanonicalsAreInjective(a: Request, n: nat, b: Request, m: nat)
    requires Plain(a) && Plain(b)
    ensures AgentCanonical(a, n) == AgentCanonical(b, m) <==> SameRequest(a, b) && n == m
    ensures HmacCanonical(a) == HmacCanonical(b) <==> SameRequest(a, b)
  {
    AgentDecodes(a, n);
    AgentDecodes(b, m);
    HmacDecodes(a);
    HmacDecodes(b);
  }

  /** No string is canonical for both schemes, so a signature of one is none of the other. */
  lemma SchemesNeverCollide(a: Request, n: nat, b: Request)
    requires Plain(a) && Plain(b)
    ensures AgentCanonical(a, n) != HmacCanonical(b)
  {
    AgentDecodes(a, n);
    HmacDecodes(b);
  }

  /** The newline is what keeps them apart: a path holding one can pass for a query. */
  lemma NewlineCollides(r: Request, a: string, b: string, c: string, n: nat)
    ensures AgentCanonical(r.(path := a + [NL] + b, query := c), n) == AgentCanonical(r.(path := a, query := b + [NL] + c), n)
  {
    var u, h, t, m := ToUpper(r.verb), r.bodyHash, IntText(r.ts), NatText(n);
    AgentIsJoined(r.(path := a + [NL] + b, query := c), n);
    AgentIsJoined(r.(path := a, query := b + [NL] + c), n);
    hide ToUpper, NatText, IntText, AgentCanonical, Joined;
    var rest := [h, t, m];
    assert [u, a + [NL] + b, c, h, t, m] == [u, a + [NL] + b] + ([c] + rest);
    assert [u, a, b + [NL] + c, h, t, m] == [u, a] + ([b + [NL] + c] + rest);
    JoinedTwo(u, a + [NL] + b, [c] + rest);
    JoinedTwo(u, a, [b + [NL] + c] + rest);
    Joined2(c, rest);
    Joined2(b + [NL] + c, rest);
    var tail := Joined(rest);
    assert (a + [NL] + b) + [NL] + (c + [NL] + tail) == a + [NL] + ((b + [NL] + c) + [NL] + tail);
    assert u + [NL] + ((a + [NL] + b) + [NL] + (c + [NL] + tail)) == u + [NL] + (a + [NL] + ((b + [NL] + c) + [NL] + tail));
  }

  lemma JoinedTwo(a: string, b: string, rest: seq<string>)
    requires rest != []
    ensures Joined([a, b] + rest) == a + [NL] + (b + [NL] + Joined(rest))
  {
    assert [a, b] + rest == [a] + ([b] + rest);
    hide Joined;
    Joined2(a, [b] + rest);
    Joined2(b, rest);
  }

  // The 26 letters, in order.
  const LOWER: string := "abcdefghijklmnopqrstuvwxyz"
  const UPPER: string := "ABCDEFGHIJKLMNOPQRSTUVWXYZ"

  /** The method is signed in capitals: every lower-case letter becomes its own capital, and nothing
      else changes. */
  lemma VerbIsCapital(s: string, i: nat, k: nat)
    requires i < |s| && k < 26
    ensures |ToUpper(s)| == |s|
    ensures s[i] == LOWER[k] ==> ToUpper(s)[i] == UPPER[k]
    ensures s[i] !in LOWER ==> ToUpper(s)[i] == s[i]
  {
    LetterAt(k);
    if 'a' <= s[i] <= 'z' {
      LetterAt(s[i] as int - 'a' as int);
    }
  }

  lemma LetterAt(k: nat)
    requires k < 26
    ensures LOWER[k] == 'a' + k as char && UPPER[k] == 'A' + k as char
  {
  }
}
