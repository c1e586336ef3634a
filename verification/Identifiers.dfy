/** The zero-padded identifiers of a run, and why no two of them collide.
    Everything the processor deduplicates on is one of these strings. */
module Identifiers {
  import opened Wrappers

  const MAX_INT64: int := 0x7FFF_FFFF_FFFF_FFFF
  const MIN_INT64: int := -0x8000_0000_0000_0000

  predicate IsDigit(c: char) {
    '0' <= c <= '9'
  }

  predicate AllDigits(s: string) {
    forall i | 0 <= i < |s| :: IsDigit(s[i])
  }

  function Digit(d: nat): char
    requires d < 10
  {
    ('0' as int + d) as char
  }

  /** Decimal digits of `n`, most significant first. */
  function Decimal(n: nat): string {
    if n < 10 then [Digit(n)] else Decimal(n / 10) + [Digit(n % 10)]
  }

  /** The number a digit string denotes, leading zeros allowed. */
  function Value(s: string): nat
    requires AllDigits(s)
  {
    if s == [] then 0 else 10 * Value(s[..|s| - 1]) + (s[|s| - 1] as int - '0' as int)
  }

  function Zeros(k: nat): string {
    if k == 0 then "" else Zeros(k - 1) + "0"
  }

  /** The `%0<width>d` verb for a non-negative argument. */
  function ZeroPad(n: nat, width: nat): string {
    var d := Decimal(n);
    if |d| >= width then d else Zeros(width - |d|) + d
  }

  /** The `%d` verb. */
  function FormatInt(n: int): string {
    if n < 0 then "-" + Decimal(-n) else Decimal(n)
  }

  function OrganismID(i: nat): string {
    "org-" + ZeroPad(i, 3)
  }

  function EventID(runID: string, sequence: nat): string {
    runID + "-" + ZeroPad(sequence, 8)
  }

  function ControlEventID(runID: string, sequence: nat): string {
    runID + "-ctl-" + ZeroPad(sequence, 8)
  }

  function RevisionKey(runID: string, typeName: string, revision: int): string {
    runID + ":" + typeName + ":" + FormatInt(revision)
  }

  /** strings.TrimPrefix */
  function TrimPrefix(s: string, prefix: string): string {
    if prefix <= s then s[|prefix|..] else s
  }

  /** strconv.Atoi: an optional sign, then one or more digits, within 64 bits. */
  function Atoi(s: string): Option<int> {
    var signed := s != "" && (s[0] == '-' || s[0] == '+');
    var body := if signed then s[1..] else s;
    if body == "" || !AllDigits(body) then
      None
    else
      var magnitude: int := Value(body);
      var v := if s[0] == '-' then -magnitude else magnitude;
      if MIN_INT64 <= v <= MAX_INT64 then Some(v) else None
  }

  /** The position an identifier names in a garden of `n` organisms. */
  function Position(n: nat, id: string): Option<nat> {
    if "org-" <= id && AllDigits(id[4..]) then
      var k := Value(id[4..]);
      if k < n && OrganismID(k) == id then Some(k) else None
    else
      None
  }

  lemma {:induction false} DecimalValue(n: nat)
    ensures AllDigits(Decimal(n)) && Decimal(n) != ""
    ensures Value(Decimal(n)) == n
  {
    if n < 10 {
      assert Decimal(n)[..0] == "";
    } else {
      DecimalValue(n / 10);
      assert Decimal(n)[..|Decimal(n)| - 1] == Decimal(n / 10);
    }
  }

  lemma {:induction false} ZerosVanish(k: nat, s: string)
    requires AllDigits(s)
    ensures AllDigits(Zeros(k)) && AllDigits(Zeros(k) + s)
    ensures Value(Zeros(k) + s) == Value(s)
    decreases |s|, k
  {
    if s != "" {
      ZerosVanish(k, s[..|s| - 1]);
      assert (Zeros(k) + s)[..|Zeros(k) + s| - 1] == Zeros(k) + s[..|s| - 1];
    } else if k > 0 {
      ZerosVanish(k - 1, "");
      assert Zeros(k) + s == Zeros(k - 1) + "" + "0";
      assert (Zeros(k) + s)[..k - 1] == Zeros(k - 1) + "" by { ZerosLength(k); ZerosLength(k - 1); }
    }
  }

  lemma {:induction false} ZerosLength(k: nat)
    ensures |Zeros(k)| == k
  {
    if k > 0 { ZerosLength(k - 1); }
  }

  /** Padding loses nothing: the padded digits still denote `n`. */
  lemma ZeroPadValue(n: nat, width: nat)
    ensures AllDigits(ZeroPad(n, width)) && ZeroPad(n, width) != ""
    ensures Value(ZeroPad(n, width)) == n
  {
    DecimalValue(n);
    if |Decimal(n)| < width { ZerosVanish(width - |Decimal(n)|, Decimal(n)); }
  }

  lemma ZeroPadInjective(a: nat, b: nat, width: nat)
    requires ZeroPad(a, width) == ZeroPad(b, width)
    ensures a == b
  {
    ZeroPadValue(a, width);
    ZeroPadValue(b, width);
  }

  /** Within one run, an organism event's identifier determines its sequence number. */
  lemma EventIDInjective(runID: string, a: nat, b: nat)
    requires EventID(runID, a) == EventID(runID, b)
    ensures a == b
  {
    assert EventID(runID, a)[|runID| + 1..] == ZeroPad(a, 8);
    assert EventID(runID, b)[|runID| + 1..] == ZeroPad(b, 8);
    ZeroPadInjective(a, b, 8);
  }

  lemma FormatIntSign(n: int)
    ensures FormatInt(n) != "" && (FormatInt(n)[0] == '-' <==> n < 0)
  {
    DecimalValue(if n < 0 then -n else n);
  }

  lemma FormatIntInjective(a: int, b: int)
    requires FormatInt(a) == FormatInt(b)
    ensures a == b
  {
    FormatIntSign(a);
    FormatIntSign(b);
    DecimalValue(if a < 0 then -a else a);
    DecimalValue(if b < 0 then -b else b);
    if a < 0 {
      assert FormatInt(a)[1..] == Decimal(-a) && FormatInt(b)[1..] == Decimal(-b);
    }
  }

  lemma RevisionKeyInjective(runID: string, typeName: string, a: int, b: int)
    requires RevisionKey(runID, typeName, a) == RevisionKey(runID, typeName, b)
    ensures a == b
  {
    var k := |runID| + 1 + |typeName| + 1;
    assert RevisionKey(runID, typeName, a)[k..] == FormatInt(a);
    assert RevisionKey(runID, typeName, b)[k..] == FormatInt(b);
    FormatIntInjective(a, b);
  }

  /** Organism keys and revision keys of one run never collide. */
  lemma KeyFamiliesDisjoint(runID: string, sequence: nat, typeName: string, revision: int)
    ensures EventID(runID, sequence) != RevisionKey(runID, typeName, revision)
  {
    assert EventID(runID, sequence)[|runID|] == '-';
    assert RevisionKey(runID, typeName, revision)[|runID|] == ':';
  }

  /** Each organism is found at its own position, and nowhere else. */
  lemma PositionOfOrganismID(n: nat, i: nat)
    ensures Position(n, OrganismID(i)) == if i < n then Some(i) else None
  {
    ZeroPadValue(i, 3);
    assert OrganismID(i)[4..] == ZeroPad(i, 3);
  }

  /** The round trip the organism count of a history rests on. */
  lemma AtoiOfOrganismID(i: nat)
    requires i <= MAX_INT64
    ensures Atoi(TrimPrefix(OrganismID(i), "org-")) == Some(i)
  {
    ZeroPadValue(i, 3);
    assert OrganismID(i)[4..] == ZeroPad(i, 3);
  }
}
