/**
 * Python's `datetime.isoformat()` and `datetime.fromisoformat()`, the pair the
 * notification codec uses for `send_after`.
 *
 * A datetime is modelled by its fields and an optional UTC offset in whole
 * minutes. `IsoFormat` emits what Python emits with the default `timespec`:
 * `YYYY-MM-DDTHH:MM:SS`, then `.ffffff` only when the microsecond is not zero,
 * then `+HH:MM`/`-HH:MM` only when the datetime is aware.
 * `FromIsoFormat` accepts exactly the strings `IsoFormat` can emit.
 */
module IsoDateTime {
  import opened Wrappers

  datatype DateTimeFields = DateTimeFields(
    year: int, month: int, day: int,
    hour: int, minute: int, second: int, microsecond: int,
    utcOffset: Option<int>)

  predicate IsLeapYear(y: int) {
    y % 4 == 0 && (y % 100 != 0 || y % 400 == 0)
  }

  function DaysInMonth(y: int, m: int): (n: int)
    ensures 28 <= n <= 31
  {
    if m == 2 then (if IsLeapYear(y) then 29 else 28)
    else if m == 4 || m == 6 || m == 9 || m == 11 then 30
    else 31
  }

  /** The largest offset magnitude Python allows: strictly less than one day. */
  const MaxOffsetMinutes: int := 24 * 60 - 1

  /** The ranges Python's `datetime` constructor enforces. */
  predicate WellFormed(d: DateTimeFields) {
    && 1 <= d.year <= 9999
    && 1 <= d.month <= 12
    && 1 <= d.day <= DaysInMonth(d.year, d.month)
    && 0 <= d.hour < 24
    && 0 <= d.minute < 60
    && 0 <= d.second < 60
    && 0 <= d.microsecond < 1000000
    && (d.utcOffset.Some? ==> -MaxOffsetMinutes <= d.utcOffset.value <= MaxOffsetMinutes)
  }

  /** A Python `datetime` value: every one that exists is well formed. */
  type DateTime = d: DateTimeFields | WellFormed(d)
    witness DateTimeFields(1, 1, 1, 0, 0, 0, 0, None)

  // ---------------------------------------------------------------------------
  // Zero-padded decimal fields

  function Pow10(w: nat): (p: nat)
    ensures p > 0
  {
    if w == 0 then 1 else 10 * Pow10(w - 1)
  }

  predicate IsDigit(c: char) {
    '0' <= c <= '9'
  }

  predicate AllDigits(t: string) {
    forall i :: 0 <= i < |t| ==> IsDigit(t[i])
  }

  function DigitChar(k: nat): (c: char)
    requires k < 10
    ensures IsDigit(c)
  {
    ('0' as int + k) as char
  }

  /** The last `w` decimal digits of `n`, zero-padded to width `w` (Python's `%0wd`). */
  function Padded(n: nat, w: nat): (t: string)
    ensures |t| == w
    ensures AllDigits(t)
  {
    if w == 0 then [] else Padded(n / 10, w - 1) + [DigitChar(n % 10)]
  }

  /** The number a string of decimal digits denotes. */
  function DigitsValue(t: string): nat
    requires AllDigits(t)
  {
    if t == [] then 0
    else 10 * DigitsValue(t[..|t| - 1]) + (t[|t| - 1] as int - '0' as int)
  }

  lemma {:induction false} PaddedValue(n: nat, w: nat)
    requires n < Pow10(w)
    ensures DigitsValue(Padded(n, w)) == n
  {
    if w > 0 {
      var t := Padded(n, w);
      assert t[..w - 1] == Padded(n / 10, w - 1);
      assert n / 10 < Pow10(w - 1);
      PaddedValue(n / 10, w - 1);
      assert t[w - 1] as int - '0' as int == n % 10;
      assert n == 10 * (n / 10) + n % 10;
    }
  }

  lemma {:induction false} ValuePadded(t: string)
    requires AllDigits(t)
    ensures DigitsValue(t) < Pow10(|t|)
    ensures Padded(DigitsValue(t), |t|) == t
  {
    if t != [] {
      var w := |t|;
      var init := t[..w - 1];
      ValuePadded(init);
      var c := t[w - 1] as int - '0' as int;
      var v := DigitsValue(t);
      assert v == 10 * DigitsValue(init) + c;
      assert v / 10 == DigitsValue(init) && v % 10 == c;
      assert DigitChar(c) == t[w - 1];
      assert t == init + [t[w - 1]];
    }
  }

  /** The number written with exactly `w` digits at position `i` of `s`, if there is one. */
  function NumberAt(s: string, i: nat, w: nat): Option<nat>
  {
    if i + w <= |s| && AllDigits(s[i..i + w]) then Some(DigitsValue(s[i..i + w])) else None
  }

  // ---------------------------------------------------------------------------
  // Formatting

  function DatePart(d: DateTime): (t: string)
    ensures |t| == 10
  {
    Padded(d.year, 4) + "-" + Padded(d.month, 2) + "-" + Padded(d.day, 2)
  }

  function TimePart(d: DateTime): (t: string)
    ensures |t| == 8
  {
    Padded(d.hour, 2) + ":" + Padded(d.minute, 2) + ":" + Padded(d.second, 2)
  }

  function FractionPart(us: nat): string {
    if us == 0 then "" else "." + Padded(us, 6)
  }

  function Abs(x: int): nat {
    if x < 0 then -x else x
  }

  function OffsetPart(offset: Option<int>): string {
    match offset
    case None => ""
    case Some(m) =>
      [if m < 0 then '-' else '+'] + Padded(Abs(m) / 60, 2) + ":" + Padded(Abs(m) % 60, 2)
  }

  /** `datetime.isoformat()` with the default `timespec="auto"` and separator `T`. */
  function IsoFormat(d: DateTime): (s: string)
    ensures 19 <= |s| <= 32
  {
    DatePart(d) + "T" + TimePart(d) + FractionPart(d.microsecond) + OffsetPart(d.utcOffset)
  }

  // ---------------------------------------------------------------------------
  // Parsing

  /** The optional `+HH:MM`/`-HH:MM` suffix; `Some(None)` for a naive datetime. */
  function ParseOffset(t: string): Option<Option<int>>
  {
    if t == [] then Some(None)
    else if |t| != 6 || (t[0] != '+' && t[0] != '-') || t[3] != ':' then None
    else
      match (NumberAt(t, 1, 2), NumberAt(t, 4, 2))
      case (Some(hh), Some(mm)) =>
        if 24 <= hh || 60 <= mm || (t[0] == '-' && hh == 0 && mm == 0) then None
        else
          var magnitude: int := hh * 60 + mm;
          Some(Some(if t[0] == '-' then -magnitude else magnitude))
      case _ => None
  }

  /** Everything after the seconds: an optional non-zero `.ffffff`, then the offset. */
  function ParseTail(t: string): Option<(nat, Option<int>)>
  {
    if t != [] && t[0] == '.' then
      match (NumberAt(t, 1, 6), if |t| >= 7 then ParseOffset(t[7..]) else None)
      case (Some(us), Some(off)) => if us == 0 then None else Some((us, off))
      case _ => None
    else
      match ParseOffset(t)
      case Some(off) => Some((0, off))
      case None => None
  }

  /** `YYYY-MM-DD` */
  function ParseDate(t: string): Option<(nat, nat, nat)>
  {
    if |t| != 10 || t[4] != '-' || t[7] != '-' then None
    else
      match (NumberAt(t, 0, 4), NumberAt(t, 5, 2), NumberAt(t, 8, 2))
      case (Some(y), Some(mo), Some(dd)) => Some((y, mo, dd))
      case _ => None
  }

  /** `HH:MM:SS` */
  function ParseTime(t: string): Option<(nat, nat, nat)>
  {
    if |t| != 8 || t[2] != ':' || t[5] != ':' then None
    else
      match (NumberAt(t, 0, 2), NumberAt(t, 3, 2), NumberAt(t, 6, 2))
      case (Some(h), Some(mi), Some(se)) => Some((h, mi, se))
      case _ => None
  }

  /** `datetime.fromisoformat(s)`; `None` where Python raises `ValueError`. */
  function FromIsoFormat(s: string): Option<DateTime>
  {
    if |s| < 19 || s[10] != 'T' then None
    else
      var date, time, tail := ParseDate(s[..10]), ParseTime(s[11..19]), ParseTail(s[19..]);
      if date.None? || time.None? || tail.None? then None
      else
        var d := DateTimeFields(date.value.0, date.value.1, date.value.2,
                                time.value.0, time.value.1, time.value.2,
                                tail.value.0, tail.value.1);
        if WellFormed(d) then Some(d) else None
  }

  // ---------------------------------------------------------------------------
  // The two directions of the round trip

  lemma NumberAtPadded(s: string, i: nat, n: nat, w: nat)
    requires i + w <= |s| && s[i..i + w] == Padded(n, w) && n < Pow10(w)
    ensures NumberAt(s, i, w) == Some(n)
  {
    PaddedValue(n, w);
  }

  lemma {:induction false} OffsetRoundTrip(offset: Option<int>)
    requires offset.Some? ==> -MaxOffsetMinutes <= offset.value <= MaxOffsetMinutes
    ensures ParseOffset(OffsetPart(offset)) == Some(offset)
  {
    if offset.Some? {
      var m := offset.value;
      var t := OffsetPart(offset);
      NumberAtPadded(t, 1, Abs(m) / 60, 2);
      NumberAtPadded(t, 4, Abs(m) % 60, 2);
    }
  }

  lemma {:induction false} TailRoundTrip(us: nat, offset: Option<int>)
    requires us < 1000000
    requires offset.Some? ==> -MaxOffsetMinutes <= offset.value <= MaxOffsetMinutes
    ensures ParseTail(FractionPart(us) + OffsetPart(offset)) == Some((us, offset))
  {
    var t := FractionPart(us) + OffsetPart(offset);
    OffsetRoundTrip(offset);
    if us == 0 {
      assert t == OffsetPart(offset);
      if offset.Some? { assert t[0] != '.'; }
    } else {
      NumberAtPadded(t, 1, us, 6);
      assert t[7..] == OffsetPart(offset);
    }
  }

  lemma DateRoundTrip(d: DateTime)
    ensures ParseDate(DatePart(d)) == Some((d.year as nat, d.month as nat, d.day as nat))
  {
    var t := DatePart(d);
    NumberAtPadded(t, 0, d.year, 4);
    NumberAtPadded(t, 5, d.month, 2);
    NumberAtPadded(t, 8, d.day, 2);
  }

  lemma TimeRoundTrip(d: DateTime)
    ensures ParseTime(TimePart(d)) == Some((d.hour as nat, d.minute as nat, d.second as nat))
  {
    var t := TimePart(d);
    NumberAtPadded(t, 0, d.hour, 2);
    NumberAtPadded(t, 3, d.minute, 2);
    NumberAtPadded(t, 6, d.second, 2);
  }

  /** Parsing what `isoformat()` emits gives back the same datetime. */
  lemma {:induction false} IsoRoundTrip(d: DateTime)
    ensures FromIsoFormat(IsoFormat(d)) == Some(d)
  {
    var s := IsoFormat(d);
    var date, time, tail := DatePart(d), TimePart(d), FractionPart(d.microsecond) + OffsetPart(d.utcOffset);
    assert s == date + "T" + time + tail;
    assert s[..10] == date && s[11..19] == time && s[19..] == tail;
    DateRoundTrip(d);
    TimeRoundTrip(d);
    TailRoundTrip(d.microsecond, d.utcOffset);
  }

  lemma NumberAtCanonical(s: string, i: nat, w: nat, n: nat)
    requires NumberAt(s, i, w) == Some(n)
    ensures s[i..i + w] == Padded(n, w)
  {
    ValuePadded(s[i..i + w]);
  }

  lemma DateCanonical(t: string, y: nat, mo: nat, dd: nat)
    requires ParseDate(t) == Some((y, mo, dd))
    ensures t == Padded(y, 4) + "-" + Padded(mo, 2) + "-" + Padded(dd, 2)
  {
    NumberAtCanonical(t, 0, 4, y);
    NumberAtCanonical(t, 5, 2, mo);
    NumberAtCanonical(t, 8, 2, dd);
    assert t == t[0..4] + [t[4]] + t[5..7] + [t[7]] + t[8..10];
  }

  lemma TimeCanonical(t: string, h: nat, mi: nat, se: nat)
    requires ParseTime(t) == Some((h, mi, se))
    ensures t == Padded(h, 2) + ":" + Padded(mi, 2) + ":" + Padded(se, 2)
  {
    NumberAtCanonical(t, 0, 2, h);
    NumberAtCanonical(t, 3, 2, mi);
    NumberAtCanonical(t, 6, 2, se);
    assert t == t[0..2] + [t[2]] + t[3..5] + [t[5]] + t[6..8];
  }

  lemma OffsetCanonical(t: string, offset: Option<int>)
    requires ParseOffset(t) == Some(offset)
    ensures OffsetPart(offset) == t
  {
    if t != [] {
      var hh :| NumberAt(t, 1, 2) == Some(hh);
      var mm :| NumberAt(t, 4, 2) == Some(mm);
      NumberAtCanonical(t, 1, 2, hh);
      NumberAtCanonical(t, 4, 2, mm);
      assert Abs(offset.value) / 60 == hh && Abs(offset.value) % 60 == mm;
      assert t == [t[0]] + t[1..3] + [t[3]] + t[4..6];
    }
  }

  lemma TailCanonical(t: string, us: nat, offset: Option<int>)
    requires ParseTail(t) == Some((us, offset))
    ensures FractionPart(us) + OffsetPart(offset) == t
  {
    if t != [] && t[0] == '.' {
      NumberAtCanonical(t, 1, 6, us);
      OffsetCanonical(t[7..], offset);
      assert t == [t[0]] + t[1..7] + t[7..];
    } else {
      OffsetCanonical(t, offset);
    }
  }

  lemma ParsedParts(s: string, d: DateTime)
    requires FromIsoFormat(s) == Some(d)
    ensures |s| >= 19 && s[10] == 'T'
    ensures ParseDate(s[..10]) == Some((d.year as nat, d.month as nat, d.day as nat))
    ensures ParseTime(s[11..19]) == Some((d.hour as nat, d.minute as nat, d.second as nat))
    ensures ParseTail(s[19..]) == Some((d.microsecond as nat, d.utcOffset))
  {
  }

  lemma CanonicalFromParts(s: string, d: DateTime)
    requires |s| >= 19 && s[10] == 'T'
    requires ParseDate(s[..10]) == Some((d.year as nat, d.month as nat, d.day as nat))
    requires ParseTime(s[11..19]) == Some((d.hour as nat, d.minute as nat, d.second as nat))
    requires ParseTail(s[19..]) == Some((d.microsecond as nat, d.utcOffset))
    ensures IsoFormat(d) == s
  {
    var date, time, tail := s[..10], s[11..19], s[19..];
    assert DatePart(d) == date by { DateCanonical(date, d.year, d.month, d.day); }
    assert TimePart(d) == time by { TimeCanonical(time, d.hour, d.minute, d.second); }
    assert FractionPart(d.microsecond) + OffsetPart(d.utcOffset) == tail by {
      TailCanonical(tail, d.microsecond, d.utcOffset);
    }
    assert s == date + [s[10]] + time + tail by {
      assert s[11..] == time + tail;
      assert s[10..] == [s[10]] + s[11..];
    }
  }

  /** `fromisoformat` accepts a string only when it is exactly what `isoformat()` emits for the result. */
  lemma {:induction false} IsoCanonical(s: string, d: DateTime)
    requires FromIsoFormat(s) == Some(d)
    ensures IsoFormat(d) == s
  {
    ParsedParts(s, d);
    CanonicalFromParts(s, d);
  }

  /** Both directions: the strings `fromisoformat` maps to `d` are exactly the one `isoformat()` gives. */
  lemma IsoInverse(s: string, d: DateTime)
    ensures FromIsoFormat(s) == Some(d) <==> s == IsoFormat(d)
  {
    if FromIsoFormat(s) == Some(d) { IsoCanonical(s, d); }
    if s == IsoFormat(d) { IsoRoundTrip(d); }
  }
}
