/** Identifier formatting (internal/ids/ids.go) and the two other strings the
    store composes: the agent lookup key and the upstream address.  Ids are real
    strings, so that no two issued ids coincide is proved, not assumed. */
module Ids {

  // ---- decimal numerals ----

  function Digit(d: nat): char
    requires d < 10
  {
    ['0', '1', '2', '3', '4', '5', '6', '7', '8', '9'][d]
  }

  /** The %d rendering of a natural number. */
  function Digits(n: nat): string {
    if n < 10 then [Digit(n)] else Digits(n / 10) + [Digit(n % 10)]
  }

  /** The %03d rendering of a natural number. */
  function Pad3(n: nat): string {
    var d := Digits(n);
    if |d| == 1 then "00" + d else if |d| == 2 then "0" + d else d
  }

  /** The %d rendering of any integer. */
  function Decimal(n: int): string {
    if n < 0 then "-" + Digits(-n) else Digits(n)
  }

  function DigitValue(c: char): nat {
    if '0' <= c <= '9' then c as nat - '0' as nat else 0
  }

  /** Reads a numeral back. */
  function Value(s: string): nat {
    if s == "" then 0 else 10 * Value(s[..|s| - 1]) + DigitValue(s[|s| - 1])
  }

  lemma {:induction false} DigitsOnly(n: nat)
    ensures |Digits(n)| >= 1 && forall i | 0 <= i < |Digits(n)| :: '0' <= Digits(n)[i] <= '9'
  {
    if n >= 10 {
      DigitsOnly(n / 10);
    }
  }

  lemma {:induction false} DigitsRoundTrip(n: nat)
    ensures Value(Digits(n)) == n
    ensures |Digits(n)| >= 1 && forall i | 0 <= i < |Digits(n)| :: '0' <= Digits(n)[i] <= '9'
  {
    DigitsOnly(n);
    if n < 10 {
      assert Digits(n)[..0] == "";
    } else {
      DigitsRoundTrip(n / 10);
      assert Digits(n)[..|Digits(n)| - 1] == Digits(n / 10);
    }
  }

  /** Leading zeros do not change the value. */
  lemma {:induction false} LeadingZero(s: string)
    ensures Value("0" + s) == Value(s)
  {
    if s == "" {
      assert ("0" + s)[..0] == "";
    } else {
      LeadingZero(s[..|s| - 1]);
      assert ("0" + s)[..|s|] == "0" + s[..|s| - 1];
    }
  }

  /** Zero padding is lossless for every natural number, past 999 as well, and
      produces digits only. */
  lemma Pad3RoundTrip(n: nat)
    ensures Value(Pad3(n)) == n
    ensures forall i | 0 <= i < |Pad3(n)| :: '0' <= Pad3(n)[i] <= '9'
  {
    hide Value, Digits;
    DigitsRoundTrip(n);
    var d := Digits(n);
    LeadingZero(d);
    LeadingZero("0" + d);
    assert "00" + d == "0" + ("0" + d);
  }

  lemma Pad3Injective(m: nat, n: nat)
    requires Pad3(m) == Pad3(n)
    ensures m == n
  {
    Pad3RoundTrip(m);
    Pad3RoundTrip(n);
  }

  function IntValue(s: string): int {
    if s != "" && s[0] == '-' then 0 - Value(s[1..]) else Value(s)
  }

  lemma DecimalRoundTrip(n: int)
    ensures IntValue(Decimal(n)) == n
    ensures Free(':', Decimal(n))
  {
    DigitsRoundTrip(if n < 0 then -n else n);
    if n < 0 {
      assert Decimal(n)[1..] == Digits(-n);
    }
  }

  /** A numeral of several digits does not begin with zero, and its length tells
      the size of its number. */
  lemma {:induction false} DigitsCanonical(n: nat)
    ensures |Digits(n)| > 1 ==> Digits(n)[0] != '0'
    ensures (n < 10 <==> |Digits(n)| == 1) && (n < 100 <==> |Digits(n)| <= 2)
    ensures n > 0 ==> Digits(n)[0] != '0'
  {
    if n >= 10 {
      DigitsCanonical(n / 10);
      DigitsOnly(n / 10);
      assert Digits(n)[0] == Digits(n / 10)[0];
    }
  }

  /** Three digits at least, and no more leading zeros than that takes. */
  lemma Pad3Format(n: nat)
    ensures |Pad3(n)| >= 3 && (|Pad3(n)| > 3 ==> Pad3(n)[0] != '0')
  {
    DigitsOnly(n);
    DigitsCanonical(n);
  }

  // ---- ids ----

  datatype Kind = CommandKind | DeploymentKind | RouteKind

  function Prefix(k: Kind): string {
    match k
    case CommandKind => "cmd-"
    case DeploymentKind => "dep-"
    case RouteKind => "route-"
  }

  function Id(k: Kind, n: nat): string { Prefix(k) + Pad3(n) }

  function Command(n: nat): string { Id(CommandKind, n) }

  function Deployment(n: nat): string { Id(DeploymentKind, n) }

  function Route(n: nat): string { Id(RouteKind, n) }

  /** agent-{env}-{role}-{n}; the part between is the per-role counter key. */
  function Agent(environment: string, role: string, n: nat): string {
    "agent-" + environment + "-" + role + "-" + Pad3(n)
  }

  function EnvRoleKey(environment: string, role: string): string {
    environment + "-" + role
  }

  /** The numeral s stands for n as %03d prints it. */
  predicate Padded(s: string, n: nat) {
    && |s| >= 3 && (|s| > 3 ==> s[0] != '0') && (forall i | 0 <= i < |s| :: '0' <= s[i] <= '9')
    && Value(s) == n
  }

  /** The id is the prefix and then the number n, as %03d prints it. */
  predicate Numbers(id: string, prefix: string, n: nat) {
    |prefix| <= |id| && id[..|prefix|] == prefix && Padded(id[|prefix|..], n)
  }

  /** What an id of each kind looks like. */
  lemma IdFormat(n: nat)
    ensures Numbers(Command(n), "cmd-", n) && Numbers(Deployment(n), "dep-", n) && Numbers(Route(n), "route-", n)
  {
    Pad3RoundTrip(n);
    Pad3Format(n);
    hide Pad3, Value;
    assert Command(n)[4..] == Pad3(n) && Deployment(n)[4..] == Pad3(n) && Route(n)[6..] == Pad3(n);
  }

  lemma AgentFormat(environment: string, role: string, n: nat)
    ensures Numbers(Agent(environment, role, n), "agent-" + environment + "-" + role + "-", n)
  {
    Pad3RoundTrip(n);
    Pad3Format(n);
    hide Pad3, Value;
    var p := "agent-" + environment + "-" + role + "-";
    assert Agent(environment, role, n) == p + Pad3(n);
  }

  /** Equal ids mean equal kinds and equal numbers. */
  lemma IdInjective(k: Kind, m: nat, l: Kind, n: nat)
    requires Id(k, m) == Id(l, n)
    ensures k == l && m == n
  {
    assert k == l by {
      assert Id(k, m)[0] == Prefix(k)[0] && Id(l, n)[0] == Prefix(l)[0];
    }
    assert Pad3(m) == Id(k, m)[|Prefix(k)|..] && Pad3(n) == Id(l, n)[|Prefix(l)|..];
    Pad3Injective(m, n);
  }

  /** The ids a counter that stands at n has issued. */
  ghost function Issued(k: Kind, n: nat): set<string> {
    if n == 0 then {} else Issued(k, n - 1) + {Id(k, n)}
  }

  ghost predicate IssuedAs(k: Kind, n: nat, id: string, m: nat) {
    1 <= m <= n && id == Id(k, m)
  }

  lemma {:induction false} IssuedNumber(k: Kind, n: nat, id: string) returns (m: nat)
    requires id in Issued(k, n)
    ensures IssuedAs(k, n, id, m)
  {
    if id == Id(k, n) {
      m := n;
    } else {
      m := IssuedNumber(k, n - 1, id);
    }
  }

  /** The next id is fresh. */
  lemma NextIsFresh(k: Kind, n: nat)
    ensures Id(k, n + 1) !in Issued(k, n)
  {
    if Id(k, n + 1) in Issued(k, n) {
      var m := IssuedNumber(k, n, Id(k, n + 1));
      IdInjective(k, n + 1, k, m);
    }
  }

  /** A counter at n has issued exactly n ids. */
  lemma {:induction false} IssuedCount(k: Kind, n: nat)
    ensures |Issued(k, n)| == n
  {
    if n > 0 {
      IssuedCount(k, n - 1);
      NextIsFresh(k, n - 1);
    }
  }

  lemma OneMoreDigit(n: nat, d: nat, s: string)
    requires n > 0 && d < 10 && Digits(n) == s
    ensures Digits(10 * n + d) == s + [Digit(d)]
  {
  }

  lemma ThousandPrinted(n: nat, s: string)
    requires 0 < n < 10 && Digits(n) == s
    ensures Digits(1000 * n) == s + "000"
  {
    hide Digits;
    OneMoreDigit(n, 0, s);
    OneMoreDigit(10 * n, 0, s + "0");
    OneMoreDigit(100 * n, 0, s + "00");
    assert s + "0" + [Digit(0)] == s + "00" && s + "00" + [Digit(0)] == s + "000";
  }

  lemma NumeralExamples()
    ensures Digits(1) == "1" && Digits(42) == "42" && Digits(999) == "999"
    ensures Digits(1000) == "1000" && Digits(3000) == "3000"
  {
    OneMoreDigit(4, 2, "4");
    OneMoreDigit(9, 9, "9");
    OneMoreDigit(99, 9, "99");
    ThousandPrinted(1, "1");
    ThousandPrinted(3, "3");
  }

  /** Ids and upstreams as they are printed. */
  lemma Examples()
    ensures Command(1) == "cmd-001" && Deployment(42) == "dep-042" && Route(999) == "route-999"
    ensures Command(1000) == "cmd-1000" && Agent("test", "runtime", 1) == "agent-test-runtime-001"
    ensures BuildUpstream("10.0.0.5", 3000) == "10.0.0.5:3000"
  {
    hide Digits;
    NumeralExamples();
  }

  // ---- splitting at the last separator ----

  predicate Free(c: char, s: string) { forall i | 0 <= i < |s| :: s[i] != c }

  /** The position of the last separator. */
  ghost predicate LastAt(s: string, i: nat, c: char) {
    i < |s| && s[i] == c && forall j | i < j < |s| :: s[j] != c
  }

  lemma TailFreeLastAt(a: string, b: string, c: char)
    requires Free(c, b)
    ensures LastAt(a + [c] + b, |a|, c)
  {
    var s := a + [c] + b;
    forall j | |a| < j < |s|
      ensures s[j] != c
    {
      assert s[j] == b[j - |a| - 1];
    }
  }

  /** A string whose tail holds no separator splits at its last separator in
      exactly one way. */
  lemma SplitAtLast(a: string, b: string, x: string, y: string, c: char)
    requires a + [c] + b == x + [c] + y
    requires Free(c, b) && Free(c, y)
    ensures a == x && b == y
  {
    var s := a + [c] + b;
    TailFreeLastAt(a, b, c);
    TailFreeLastAt(x, y, c);
    assert |a| == |x|;
    assert a == s[..|a|] && x == s[..|x|];
    assert b == s[|a| + 1..] && y == s[|x| + 1..];
  }

  /** An agent id determines its counter key and its number, whatever hyphens
      or digits environment and role contain. */
  lemma AgentInjective(e: string, r: string, m: nat, e': string, r': string, n: nat)
    ensures Agent(e, r, m) == Agent(e', r', n) <==> EnvRoleKey(e, r) == EnvRoleKey(e', r') && m == n
  {
    var k, k' := EnvRoleKey(e, r), EnvRoleKey(e', r');
    assert Agent(e, r, m) == ("agent-" + k) + ['-'] + Pad3(m);
    assert Agent(e', r', n) == ("agent-" + k') + ['-'] + Pad3(n);
    if Agent(e, r, m) == Agent(e', r', n) {
      Pad3RoundTrip(m);
      Pad3RoundTrip(n);
      SplitAtLast("agent-" + k, Pad3(m), "agent-" + k', Pad3(n), '-');
      assert k == ("agent-" + k)[6..] && k' == ("agent-" + k')[6..];
    }
  }

  // ---- upstream addresses (internal/store/store.go) ----

  function BuildUpstream(privateIP: string, hostPort: int): string {
    privateIP + ":" + Decimal(hostPort)
  }

  /** u is an address, a colon and a port: reading the parts back gives ip and port. */
  predicate Dials(u: string, ip: string, port: int) {
    && |u| > |ip| + 1 && u[..|ip|] == ip && u[|ip|] == ':'
    && IntValue(u[|ip| + 1..]) == port && Free(':', u[|ip| + 1..])
  }

  lemma UpstreamDials(ip: string, port: int)
    ensures Dials(BuildUpstream(ip, port), ip, port)
  {
    DecimalRoundTrip(port);
    DigitsOnly(if port < 0 then -port else port);
    assert |Decimal(port)| >= 1;
    hide Decimal, IntValue, Free;
    var u := BuildUpstream(ip, port);
    assert u[|ip| + 1..] == Decimal(port);
  }

  /** The upstream a gateway dials names one address and one port. */
  lemma UpstreamInjective(ip: string, port: int, ip': string, port': int)
    ensures BuildUpstream(ip, port) == BuildUpstream(ip', port') <==> ip == ip' && port == port'
  {
    if BuildUpstream(ip, port) == BuildUpstream(ip', port') {
      DecimalRoundTrip(port);
      DecimalRoundTrip(port');
      SplitAtLast(ip, Decimal(port), ip', Decimal(port'), ':');
    }
  }

  // ---- agent lookup keys (internal/store/agents.go) ----

  datatype Identity = Identity(instanceId: string, mode: string, environment: string, role: string)

  function AgentKey(t: Identity): string {
    t.instanceId + ":" + t.mode + ":" + t.environment + ":" + t.role
  }

  predicate ColonFree(t: Identity) {
    Free(':', t.instanceId) && Free(':', t.mode) && Free(':', t.environment) && Free(':', t.role)
  }

  function Count(c: char, s: string): nat {
    if s == "" then 0 else Count(c, s[..|s| - 1]) + if s[|s| - 1] == c then 1 else 0
  }

  lemma {:induction false} CountConcat(c: char, a: string, b: string)
    ensures Count(c, a + b) == Count(c, a) + Count(c, b)
  {
    if b == "" {
      assert a + b == a;
    } else {
      CountConcat(c, a, b[..|b| - 1]);
      assert (a + b)[..|a + b| - 1] == a + b[..|b| - 1];
    }
  }

  lemma {:induction false} CountZeroIffFree(c: char, s: string)
    ensures Count(c, s) == 0 <==> Free(c, s)
  {
    if s != "" {
      CountZeroIffFree(c, s[..|s| - 1]);
      assert forall i | 0 <= i < |s| - 1 :: s[i] == s[..|s| - 1][i];
    }
  }

  /** A key has three separators plus the colons inside the four parts. */
  lemma KeyColons(t: Identity)
    ensures Count(':', AgentKey(t)) == 3 + Count(':', t.instanceId) + Count(':', t.mode)
                                         + Count(':', t.environment) + Count(':', t.role)
    ensures ColonFree(t) <==> Count(':', AgentKey(t)) == 3
  {
    var c := ':';
    CountConcat(c, t.instanceId, ":");
    CountConcat(c, t.instanceId + ":", t.mode);
    CountConcat(c, t.instanceId + ":" + t.mode, ":");
    CountConcat(c, t.instanceId + ":" + t.mode + ":", t.environment);
    CountConcat(c, t.instanceId + ":" + t.mode + ":" + t.environment, ":");
    CountConcat(c, t.instanceId + ":" + t.mode + ":" + t.environment + ":", t.role);
    assert ":"[..0] == "";
    assert Count(c, ":") == 1;
    CountZeroIffFree(c, t.instanceId);
    CountZeroIffFree(c, t.mode);
    CountZeroIffFree(c, t.environment);
    CountZeroIffFree(c, t.role);
  }

  lemma ColonFreeKeyInjective(t: Identity, u: Identity)
    requires ColonFree(t) && AgentKey(t) == AgentKey(u)
    ensures u == t
  {
    KeyColons(t);
    KeyColons(u);
    var t2, u2 := t.instanceId + ":" + t.mode, u.instanceId + ":" + u.mode;
    SplitAtLast(t2 + ":" + t.environment, t.role, u2 + ":" + u.environment, u.role, ':');
    SplitAtLast(t2, t.environment, u2, u.environment, ':');
    SplitAtLast(t.instanceId, t.mode, u.instanceId, u.mode, ':');
  }

  lemma Regroup(p: string, a: string, b: string)
    ensures p + (a + ":" + b) == p + a + ":" + b
  {
  }

  lemma SplitColon(s: string) returns (a: string, b: string)
    requires !Free(':', s)
    ensures s == a + ":" + b && |a| < |s| && |b| < |s|
  {
    var i :| 0 <= i < |s| && s[i] == ':';
    a, b := s[..i], s[i + 1..];
  }

  /** A colon inside a part lets the separators shift: the split halves of that
      part join its neighbours without changing the key. */
  lemma Rival(t: Identity) returns (u: Identity)
    requires !ColonFree(t)
    ensures u != t && AgentKey(u) == AgentKey(t)
  {
    var i, m, e, r := t.instanceId, t.mode, t.environment, t.role;
    if !Free(':', i) {
      var a, b := SplitColon(i);
      Regroup(i + ":", m, e);
      u := Identity(a, b, m + ":" + e, r);
    } else if !Free(':', m) {
      var a, b := SplitColon(m);
      Regroup(i + ":", a, b);
      u := Identity(i + ":" + a, b, e, r);
    } else if !Free(':', e) {
      var a, b := SplitColon(e);
      Regroup(i + ":", m, a);
      Regroup(i + ":" + m + ":", a, b);
      u := Identity(i, m + ":" + a, b, r);
    } else {
      var a, b := SplitColon(r);
      Regroup(i + ":" + m + ":", e, a);
      Regroup(i + ":" + m + ":" + e + ":", a, b);
      u := Identity(i, m, e + ":" + a, b);
    }
  }

  /** Different agents can share a lookup key: exactly when a part of the
      identity contains the separator itself. */
  lemma KeyUniqueIffColonFree(t: Identity)
    ensures (forall u: Identity :: AgentKey(u) == AgentKey(t) ==> u == t) <==> ColonFree(t)
  {
    if ColonFree(t) {
      forall u: Identity | AgentKey(u) == AgentKey(t)
        ensures u == t
      {
        ColonFreeKeyInjective(t, u);
      }
    } else {
      var u := Rival(t);
    }
  }
}
