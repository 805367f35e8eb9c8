/** Names printed in Go with %s and %d, and taken apart again by the shell script's ${POD_NAME##*-}. */
module Naming {

  function Digit(d: nat): (c: char)
    requires d < 10
    ensures '0' <= c <= '9'
  {
    '0' + d as char
  }

  /** %d for a non-negative number. */
  function Decimal(n: nat): (s: string)
    ensures s != []
    ensures forall c :: c in s ==> '0' <= c <= '9'
  {
    if n < 10 then [Digit(n)] else Decimal(n / 10) + [Digit(n % 10)]
  }

  /** The number a digit string stands for. */
  function Value(s: string): int {
    if s == [] then 0 else 10 * Value(s[..|s| - 1]) + (s[|s| - 1] as int - '0' as int)
  }

  lemma {:induction false} DecimalRoundTrip(n: nat)
    ensures Value(Decimal(n)) == n
  {
    if n >= 10 {
      DecimalRoundTrip(n / 10);
      assert Decimal(n)[..|Decimal(n)| - 1] == Decimal(n / 10);
    } else {
      assert Decimal(n)[..0] == [];
    }
  }

  lemma DecimalInjective(a: nat, b: nat)
    requires Decimal(a) == Decimal(b)
    ensures a == b
  {
    DecimalRoundTrip(a);
    DecimalRoundTrip(b);
  }

  /** ${s##*-}: what is left after the longest prefix that ends in '-'. */
  function AfterLastDash(s: string): string {
    if '-' !in s then s else AfterLastDash(s[1..])
  }

  lemma {:induction false} AfterLastDashCuts(prefix: string, tail: string)
    requires '-' !in tail
    ensures AfterLastDash(prefix + ['-'] + tail) == tail
  {
    var s := prefix + ['-'] + tail;
    assert s[|prefix|] == '-';
    if prefix == [] {
      assert s[1..] == tail;
    } else {
      AfterLastDashCuts(prefix[1..], tail);
      assert s[1..] == prefix[1..] + ['-'] + tail;
    }
  }

  function WorkloadName(cluster: string): string { cluster + "-keydb" }

  function PodName(cluster: string, ordinal: nat): string {
    WorkloadName(cluster) + ['-'] + Decimal(ordinal)
  }

  function HeadlessServiceName(cluster: string): string { cluster + "-keydb-headless" }

  function ClientServiceName(cluster: string): string { cluster + "-keydb" }

  /** The index the script extracts from its own host name is the ordinal that Go printed,
      whatever dashes the cluster name holds. */
  lemma PodIndexRoundTrip(cluster: string, ordinal: nat)
    ensures AfterLastDash(PodName(cluster, ordinal)) == Decimal(ordinal)
    ensures Value(AfterLastDash(PodName(cluster, ordinal))) == ordinal
  {
    AfterLastDashCuts(WorkloadName(cluster), Decimal(ordinal));
    DecimalRoundTrip(ordinal);
  }

  lemma PodNameInjective(c1: string, i1: nat, c2: string, i2: nat)
    requires PodName(c1, i1) == PodName(c2, i2)
    ensures c1 == c2 && i1 == i2
  {
    PodIndexRoundTrip(c1, i1);
    PodIndexRoundTrip(c2, i2);
    var s := PodName(c1, i1);
    assert c1 == s[..|c1|];
    assert c2 == s[..|c2|];
  }

  /** No client Service is ever taken for another cluster's headless Service, and within a kind
      the name determines the cluster. */
  lemma ServiceNamesApart(c1: string, c2: string)
    ensures HeadlessServiceName(c1) != ClientServiceName(c2)
    ensures HeadlessServiceName(c1) == HeadlessServiceName(c2) ==> c1 == c2
    ensures ClientServiceName(c1) == ClientServiceName(c2) ==> c1 == c2
  {
    var h, k := HeadlessServiceName(c1), ClientServiceName(c2);
    assert h[|h| - 1] == 's' && k[|k| - 1] == 'b';
    assert c1 == h[..|c1|] == ClientServiceName(c1)[..|c1|];
    assert c2 == k[..|c2|] == HeadlessServiceName(c2)[..|c2|];
  }
}
