/** How identifiers and keys are written: what stands where, and how many digits. */
module Formats {
  import opened Identifiers
  import opened Events
  import opened Wrappers

  function PowerOfTen(k: nat): nat {
    if k == 0 then 1 else 10 * PowerOfTen(k - 1)
  }

  lemma {:induction false} DecimalLength(n: nat, width: nat)
    requires width >= 1
    ensures n < PowerOfTen(width) ==> |Decimal(n)| <= width
    ensures |Decimal(n)| >= 1 && (n > 0 ==> Decimal(n)[0] != '0')
  {
    if n >= 10 {
      DecimalLength(n / 10, if width > 1 then width - 1 else 1);
    }
  }

  /** At least `width` digits denoting `n`: exactly that many if they suffice, and otherwise no zero in front. */
  predicate Padded(s: string, n: nat, width: nat) {
    && AllDigits(s) && Value(s) == n && |s| >= width
    && (n < PowerOfTen(width) ==> |s| == width) && (|s| > width && n > 0 ==> s[0] != '0')
  }

  lemma PaddedExactly(n: nat, width: nat)
    requires width >= 1
    ensures Padded(ZeroPad(n, width), n, width)
  {
    ZeroPadValue(n, width);
    DecimalLength(n, width);
    ZerosLength(if |Decimal(n)| < width then width - |Decimal(n)| else 0);
    hide PowerOfTen, Decimal, Value;
  }

  /** Identifiers are written run-00000042, run-ctl-00000042 and org-007. */
  lemma IdentifiersAreWritten(runID: string, n: nat)
    ensures exists s :: EventID(runID, n) == runID + "-" + s && Padded(s, n, 8)
    ensures exists s :: ControlEventID(runID, n) == runID + "-ctl-" + s && Padded(s, n, 8)
    ensures exists s :: OrganismID(n) == "org-" + s && Padded(s, n, 3)
  {
    PaddedExactly(n, 8);
    PaddedExactly(n, 3);
    hide Padded, ZeroPad;
    assert EventID(runID, n) == runID + "-" + ZeroPad(n, 8);
    assert ControlEventID(runID, n) == runID + "-ctl-" + ZeroPad(n, 8);
    assert OrganismID(n) == "org-" + ZeroPad(n, 3);
  }

  /** A decimal number with its sign and no zero in front. */
  predicate Written(s: string, n: int) {
    && s != ""
    && if n < 0 then s[0] == '-' && Padded(s[1..], -n, 1) else Padded(s, n, 1)
  }

  lemma WrittenExactly(n: int)
    ensures Written(FormatInt(n), n)
  {
    var m := if n < 0 then -n else n;
    DecimalValue(m);
    DecimalLength(m, 1);
    if n < 0 { assert FormatInt(n)[1..] == Decimal(m); }
    hide Decimal, Value;
  }

  /** Control and run-state events are deduplicated on run, type and revision, every other event on its identifier. */
  lemma KeysAreWritten(e: Event)
    ensures e.typ.ControlChanged? ==> exists s :: Key(e) == e.runID + ":control_changed:" + s && Written(s, e.revision)
    ensures e.typ.RunStateChanged? ==>
              exists s :: Key(e) == e.runID + ":run_state_changed:" + s && Written(s, e.revision)
    ensures !e.typ.ControlChanged? && !e.typ.RunStateChanged? ==> Key(e) == e.eventID
  {
    WrittenExactly(e.revision);
    hide Written, FormatInt;
    var s := FormatInt(e.revision);
    assert e.runID + ":" + "control_changed" + ":" + s == e.runID + ":control_changed:" + s;
    assert e.runID + ":" + "run_state_changed" + ":" + s == e.runID + ":run_state_changed:" + s;
  }

  /** A sign or none, and then digits, denoting `v`. */
  predicate Denotes(s: string, sign: string, v: int) {
    && sign in ["", "+", "-"] && sign < s && AllDigits(s[|sign|..])
    && var magnitude: int := Value(s[|sign|..]);
       v == if sign == "-" then -magnitude else magnitude
  }

  /** A number is read from a string exactly when it is the one the string denotes and fits 64 bits. */
  lemma AtoiLaw(s: string, v: int)
    ensures Atoi(s) == Some(v) <==>
              -9223372036854775808 <= v <= 9223372036854775807 && exists sign :: Denotes(s, sign, v)
  {
    hide Value;
    if s != "" {
      var sign := if s[0] == '-' then "-" else if s[0] == '+' then "+" else "";
      assert s[0..] == s;
      assert Atoi(s) == Some(v) ==> Denotes(s, sign, v);
      forall other | Denotes(s, other, v) ensures other == sign {
        assert s[|other|..][0] == s[|other|];
      }
    }
  }
}
