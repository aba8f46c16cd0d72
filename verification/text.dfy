/** The string work of the controller: decimal indices, lower-cased replica types,
    comma-separated host lists and dash-separated service keys. */
module Text {

  /** What `fmt.Sprintf("%d", n)` prints for n >= 0. */
  function Decimal(n: nat): (s: string)
    ensures |s| > 0
    ensures forall i | 0 <= i < |s| :: '0' <= s[i] <= '9'
  {
    if n < 10 then [Digit(n)] else Decimal(n / 10) + [Digit(n % 10)]
  }

  function Digit(d: nat): (c: char)
    requires d < 10
    ensures '0' <= c <= '9'
  {
    '0' + d as char
  }

  /** Reads a decimal numeral back. */
  function Value(s: string): nat
    requires forall i | 0 <= i < |s| :: '0' <= s[i] <= '9'
  {
    if s == [] then 0 else 10 * Value(s[..|s| - 1]) + (s[|s| - 1] as int - '0' as int)
  }

  lemma {:induction false} ValueOfDecimal(n: nat)
    ensures Value(Decimal(n)) == n
  {
    if n < 10 {
      assert Decimal(n)[..0] == [];
    } else {
      ValueOfDecimal(n / 10);
      assert Decimal(n)[..|Decimal(n)| - 1] == Decimal(n / 10);
    }
  }

  lemma DecimalInjective(a: nat, b: nat)
    requires Decimal(a) == Decimal(b)
    ensures a == b
  {
    ValueOfDecimal(a);
    ValueOfDecimal(b);
  }

  /** `strings.ToLower` on ASCII text. */
  function ToLower(s: string): (r: string)
    ensures |r| == |s|
  {
    seq(|s|, i requires 0 <= i < |s| => LowerChar(s[i]))
  }

  function LowerChar(c: char): char {
    if 'A' <= c <= 'Z' then c + 32 as char else c
  }

  // ---- Comma-separated lists -------------------------------------------------

  /** `hosts[0] + "," + hosts[1] + "," + ...`, every element followed by a comma. */
  function Terminated(hosts: seq<string>): string {
    if hosts == [] then "" else Terminated(hosts[..|hosts| - 1]) + hosts[|hosts| - 1] + ","
  }

  /** The elements of `hosts` with a comma between neighbours. */
  function Join(hosts: seq<string>): string
    requires hosts != []
  {
    if |hosts| == 1 then hosts[0] else hosts[0] + "," + Join(hosts[1..])
  }

  /** Python's `s.split(",")`. */
  function Split(s: string): (r: seq<string>)
    ensures r != []
  {
    if s == "" then [""]
    else
      var rest := Split(s[1..]);
      if s[0] == ',' then [""] + rest else [[s[0]] + rest[0]] + rest[1..]
  }

  ghost predicate CommaFree(s: string) {
    ',' !in s
  }

  lemma {:induction false} SplitFirst(host: string, rest: string)
    requires CommaFree(host)
    ensures Split(host + "," + rest) == [host] + Split(rest)
  {
    if host == "" {
      assert (host + "," + rest)[1..] == rest;
    } else {
      SplitFirst(host[1..], rest);
      assert host[0] in host && [host[0]] + host[1..] == host;
      assert (host + "," + rest)[1..] == host[1..] + "," + rest;
    }
  }

  lemma {:induction false} SplitOne(host: string)
    requires CommaFree(host)
    ensures Split(host) == [host]
  {
    if host != "" {
      assert host[0] in host && [host[0]] + host[1..] == host;
      SplitOne(host[1..]);
    }
  }

  /** Joining and splitting is the identity on comma-free lists. */
  lemma {:induction false} SplitJoin(hosts: seq<string>)
    requires hosts != []
    requires forall h | h in hosts :: CommaFree(h)
    ensures Split(Join(hosts)) == hosts
  {
    if |hosts| == 1 {
      SplitOne(hosts[0]);
    } else {
      SplitFirst(hosts[0], Join(hosts[1..]));
      SplitJoin(hosts[1..]);
    }
  }

  lemma {:induction false} TerminatedIsJoin(hosts: seq<string>)
    requires hosts != []
    ensures Terminated(hosts) == Join(hosts) + ","
  {
    if |hosts| == 1 {
      assert hosts[..0] == [];
    } else {
      TerminatedCons(hosts);
      TerminatedIsJoin(hosts[1..]);
    }
  }

  lemma {:induction false} TerminatedCons(hosts: seq<string>)
    requires hosts != []
    ensures Terminated(hosts) == hosts[0] + "," + Terminated(hosts[1..])
  {
    if |hosts| == 1 {
      assert hosts[..0] == [] && hosts[1..] == [];
    } else {
      var front := hosts[..|hosts| - 1];
      var rest := hosts[1..];
      TerminatedCons(front);
      assert rest[..|rest| - 1] == front[1..] && rest[|rest| - 1] == hosts[|hosts| - 1];
      assert Terminated(hosts) == (hosts[0] + "," + Terminated(front[1..])) + hosts[|hosts| - 1] + ",";
      assert Terminated(rest) == Terminated(front[1..]) + hosts[|hosts| - 1] + ",";
    }
  }

  // ---- Dash-separated keys ---------------------------------------------------

  /** The part after the last dash of a string is determined by the string. */
  lemma LastDash(a: string, b: string, c: string, d: string)
    requires a + "-" + b == c + "-" + d
    requires '-' !in b && '-' !in d
    ensures a == c && b == d
  {
    var s, t := a + "-" + b, c + "-" + d;
    assert s[|a|] == '-' && t[|c|] == '-';
    assert forall i | |a| < i < |s| :: s[i] in b;
    assert forall i | |c| < i < |t| :: t[i] in d;
    assert a == s[..|a|] == t[..|c|] == c;
    assert b == s[|a| + 1..] == t[|c| + 1..] == d;
  }
}
