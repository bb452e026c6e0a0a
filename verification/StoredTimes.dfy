/** How Redis keeps an instant: as decimal milliseconds, with "0" for the zero time. */
module StoredTimes {
  import opened Sessions
  import opened Fingerprint

  /** Go's zero time, or nanoseconds since the epoch. */
  datatype Instant = Zero | At(nanos: int)

  const MILLI := 1_000_000

  /** Instants whose milliseconds fit a 64-bit integer. */
  predicate InRange(t: Instant) {
    t.At? ==> -0x8000_0000_0000_0000 <= t.nanos / MILLI < 0x8000_0000_0000_0000
  }

  function Millis(t: Instant): string {
    if t.Zero? then "0" else Decimal(t.nanos / MILLI)
  }

  predicate AllDigits(s: string) {
    forall i :: 0 <= i < |s| ==> '0' <= s[i] <= '9'
  }

  function Clamped(n: int): int64 {
    if n < -0x8000_0000_0000_0000 then -0x8000_0000_0000_0000
    else if n >= 0x8000_0000_0000_0000 then 0x7fff_ffff_ffff_ffff
    else n
  }

  /** strconv.ParseInt in base ten with its error dropped: 0 for what is no number, the nearest
      bound for what does not fit. */
  function ParseInt(raw: string): int64 {
    var signed := raw != "" && (raw[0] == '-' || raw[0] == '+');
    var digits := if signed then raw[1..] else raw;
    if digits == "" || !AllDigits(digits) then 0
    else
      var n: int := ParseNat(digits);
      Clamped(if signed && raw[0] == '-' then -n else n)
  }

  function ParseMillis(raw: string): Instant {
    var value := ParseInt(raw);
    if value == 0 then Zero else At(value * MILLI)
  }

  lemma {:induction false} ParseUndoesDecimal(n: int64)
    ensures ParseInt(Decimal(n)) == n
  {
    var m: int := n;
    DecimalSign(m);
    DecimalNatParses(if m < 0 then -m else m);
  }

  /** An instant comes back cut to its millisecond, or as the zero time if that is millisecond 0;
      it survives unchanged exactly when it is zero or a whole millisecond other than the epoch. */
  lemma {:induction false} StoredInstant(t: Instant)
    requires InRange(t)
    ensures ParseMillis(Millis(t)) ==
            if t.Zero? || t.nanos / MILLI == 0 then Zero else At(t.nanos - t.nanos % MILLI)
    ensures ParseMillis(Millis(t)) == t <==> t.Zero? || (t.nanos % MILLI == 0 && t.nanos != 0)
  {
    ParseUndoesDecimal(if t.Zero? then 0 else t.nanos / MILLI);
    assert Decimal(0) == "0";
    assert t.At? ==> t.nanos == t.nanos / MILLI * MILLI + t.nanos % MILLI;
  }
}
