// The MBC3 real-time clock register file (core/src/rtc.rs).
// The host's wall clock is an input: `now` is the current time in whole
// seconds since the Unix epoch, as `SystemTime::now()` would report it.
module Rtc {

  const DAY_CARRY_BIT: bv8 := 0x01
  const HALT_BIT: bv8 := 0x40
  const DAY_OVERFLOW_BIT: bv8 := 0x80

  /** Seconds in one full period of the 9-bit day counter. */
  const PERIOD: nat := 512 * 86400

  /** A `u8` counter register taking part in arithmetic. */
  type Byte = x: int | 0 <= x < 256

  /** The value of an `RtcRegisters`. The counters are numbers; DH, which
      holds flag bits, is a bit-vector. */
  datatype RtcValue = RtcValue(
    seconds: Byte, minutes: Byte, hours: Byte, dl: Byte, dh: bv8,
    lastUpdatedSecs: nat)

  /** `RtcRegisters::default()`. */
  function Zero(): RtcValue
  {
    RtcValue(0, 0, 0, 0, 0, 0)
  }

  /** `RtcRegisters::new()`: all counters zero, last update at `now`. */
  function Fresh(now: nat): (r: RtcValue)
    ensures r == Zero().(lastUpdatedSecs := now)
  {
    RtcValue(0, 0, 0, 0, 0, now)
  }

  /** The 9-bit day counter: DL plus bit 0 of DH as bit 8. */
  function Days(r: RtcValue): (d: nat)
    ensures d < 512
  {
    r.dl + (if r.dh & DAY_CARRY_BIT != 0 then 256 else 0)
  }

  /** The time the counters show, in seconds. */
  function Count(r: RtcValue): nat
  {
    Days(r) * 86400 + r.hours * 3600 + r.minutes * 60 + r.seconds
  }

  predicate Halted(r: RtcValue)
  {
    r.dh & HALT_BIT != 0
  }

  /** The counters are in their clock ranges. */
  predicate InRange(r: RtcValue)
  {
    r.seconds < 60 && r.minutes < 60 && r.hours < 24
  }

  /** `read`: the register selected by 0x08..0x0C, 0xFF for any other selector. */
  function ReadValue(r: RtcValue, sel: bv8): bv8
  {
    match sel
    case 0x08 => r.seconds as bv8
    case 0x09 => r.minutes as bv8
    case 0x0A => r.hours as bv8
    case 0x0B => r.dl as bv8
    case 0x0C => r.dh
    case _ => 0xFF
  }

  /** `value.min(bound)` */
  function Min(v: bv8, bound: Byte): (m: Byte)
    ensures m <= bound && (m == bound || m == v as int)
  {
    if (v as int) < bound then v as int else bound
  }

  /** The DH byte `write` stores: the carry and halt bits from the value,
      the overflow bit kept, bits 1-5 clear. */
  function WriteDh(dh: bv8, v: bv8): (d: bv8)
    ensures d & 0xBE == dh & 0x80
  {
    (v & (DAY_CARRY_BIT | HALT_BIT)) | (dh & DAY_OVERFLOW_BIT)
  }

  /** `write`: clamped counters, full DL, and DH taking bits 0 and 6 from the
      value while keeping its own bit 7. The clock reference is untouched. */
  function WriteValue(r: RtcValue, sel: bv8, v: bv8): (w: RtcValue)
    ensures w.lastUpdatedSecs == r.lastUpdatedSecs
    ensures InRange(r) ==> InRange(w)
    ensures sel == 0x0C ==> w.dh & 0xBE == r.dh & 0x80
    ensures !(0x08 <= sel <= 0x0C) ==> w == r
  {
    match sel
    case 0x08 => r.(seconds := Min(v, 59))
    case 0x09 => r.(minutes := Min(v, 59))
    case 0x0A => r.(hours := Min(v, 23))
    case 0x0B => r.(dl := v as int)
    case 0x0C => r.(dh := WriteDh(r.dh, v))
    case _ => r
  }

  /** Reading back a register just written gives the stored form of the
      value: clamped for the counters, whole for DL, masked for DH. Every
      other register keeps its value. */
  lemma ReadAfterWrite(r: RtcValue, sel: bv8, v: bv8, other: bv8)
    requires 0x08 <= sel <= 0x0C && other != sel
    ensures ReadValue(WriteValue(r, sel, v), sel) ==
      match sel
      case 0x08 => if v < 59 then v else 59
      case 0x09 => if v < 59 then v else 59
      case 0x0A => if v < 23 then v else 23
      case 0x0B => v
      case _ => (v & 0x41) | (r.dh & 0x80)
    ensures ReadValue(WriteValue(r, sel, v), other) == ReadValue(r, other)
  {
    assert DAY_CARRY_BIT | HALT_BIT == 0x41;
  }

  /** `now.saturating_sub(last)`. */
  function Elapsed(r: RtcValue, now: nat): nat
  {
    if now >= r.lastUpdatedSecs then now - r.lastUpdatedSecs else 0
  }

  /** The day counter written back as DL and bit 0 of DH; the halt and
      overflow bits of DH are kept and bits 1-5 cleared. */
  function WithDays(r: RtcValue, days: nat): (u: RtcValue)
    requires days < 512
    ensures Days(u) == days
    ensures u.dh & (HALT_BIT | DAY_OVERFLOW_BIT) == r.dh & (HALT_BIT | DAY_OVERFLOW_BIT)
    ensures u.dh & 0x3E == 0
    ensures u == r.(dl := u.dl, dh := u.dh)
  {
    var carry: bv8 := if days / 256 == 1 then 1 else 0;
    r.(dl := days % 256,
       dh := (r.dh & HALT_BIT) | (carry & DAY_CARRY_BIT) | (r.dh & DAY_OVERFLOW_BIT))
  }

  /** The carries of the cascade: seconds, then minutes, then hours, then days. */
  function TotalSeconds(r: RtcValue, now: nat): nat { r.seconds + Elapsed(r, now) }
  function TotalMinutes(r: RtcValue, now: nat): nat { r.minutes + TotalSeconds(r, now) / 60 }
  function TotalHours(r: RtcValue, now: nat): nat { r.hours + TotalMinutes(r, now) / 60 }
  function TotalDays(r: RtcValue, now: nat): nat { Days(r) + TotalHours(r, now) / 24 }

  /** The seconds, minutes and hours registers after the cascade. */
  function Counted(r: RtcValue, now: nat): (c: RtcValue)
    ensures InRange(c) && c.lastUpdatedSecs == now && c.dl == r.dl && c.dh == r.dh
  {
    r.(seconds := TotalSeconds(r, now) % 60,
       minutes := TotalMinutes(r, now) % 60,
       hours := TotalHours(r, now) % 24,
       lastUpdatedSecs := now)
  }

  /** `update`: run the counters forward by the seconds elapsed since the
      last update, carrying seconds into minutes, minutes into hours and
      hours into the 9-bit day counter; a day counter reaching 512 wraps and
      sets the sticky overflow bit 7 of DH. */
  function UpdateValue(r: RtcValue, now: nat): (u: RtcValue)
    ensures Halted(r) ==> u == r.(lastUpdatedSecs := now)
    ensures !Halted(r) && Elapsed(r, now) == 0 ==> u == r
    ensures !Halted(r) && Elapsed(r, now) > 0 ==> InRange(u) && u.lastUpdatedSecs == now
  {
    if Halted(r) then r.(lastUpdatedSecs := now)
    else if Elapsed(r, now) == 0 then r
    else if TotalDays(r, now) >= 512 then
      WithDays(Counted(r, now).(dh := r.dh | DAY_OVERFLOW_BIT), TotalDays(r, now) % 512)
    else
      WithDays(Counted(r, now), TotalDays(r, now))
  }

  /** An update keeps the halt bit 6 of DH, and the overflow bit 7, once
      set, stays set. */
  lemma UpdateKeepsFlags(r: RtcValue, now: nat)
    ensures UpdateValue(r, now).dh & HALT_BIT == r.dh & HALT_BIT
    ensures r.dh & DAY_OVERFLOW_BIT != 0 ==> UpdateValue(r, now).dh & DAY_OVERFLOW_BIT != 0
  {
    if !Halted(r) && Elapsed(r, now) > 0 {
      var u := UpdateValue(r, now);
      assert u.dh & (HALT_BIT | DAY_OVERFLOW_BIT) & HALT_BIT == u.dh & HALT_BIT;
      if TotalDays(r, now) >= 512 {
        assert u.dh & (HALT_BIT | DAY_OVERFLOW_BIT) == (r.dh | DAY_OVERFLOW_BIT) & (HALT_BIT | DAY_OVERFLOW_BIT);
      } else {
        assert u.dh & (HALT_BIT | DAY_OVERFLOW_BIT) == r.dh & (HALT_BIT | DAY_OVERFLOW_BIT);
      }
    }
  }

  /** Splitting a quantity into a quotient and a remainder below `k`. */
  lemma CarryStep(low: nat, k: nat)
    requires k > 0
    ensures low == (low / k) * k + low % k && low % k < k
  {
  }

  /** Reducing the day part of a count modulo 512 days. */
  lemma WrapDays(q: nat, rest: nat)
    requires rest < 86400
    ensures (q * 86400 + rest) % PERIOD == (q % 512) * 86400 + rest
  {
    var t := q * 86400 + rest;
    var a := q / 512;
    var b := q % 512;
    assert q == a * 512 + b;
    assert t == a * PERIOD + (b * 86400 + rest);
    assert 0 <= b * 86400 + rest < PERIOD;
  }

  /** The counter cascade is clock arithmetic: after an update that is not
      halted, the counters show the old time plus the elapsed seconds,
      modulo 512 days; the overflow bit is set exactly when it was already
      set or the day counter passed 511. */
  lemma UpdateAdvancesCount(r: RtcValue, now: nat)
    requires !Halted(r)
    ensures Count(UpdateValue(r, now)) ==
      if Elapsed(r, now) == 0 then Count(r) else (Count(r) + Elapsed(r, now)) % PERIOD
    ensures Elapsed(r, now) > 0 ==>
      (UpdateValue(r, now).dh & DAY_OVERFLOW_BIT != 0 <==>
        r.dh & DAY_OVERFLOW_BIT != 0 || Count(r) + Elapsed(r, now) >= PERIOD)
  {
    var e := Elapsed(r, now);
    if e > 0 {
      var u := UpdateValue(r, now);
      var ts, tm, th, d0 := TotalSeconds(r, now), TotalMinutes(r, now), TotalHours(r, now), TotalDays(r, now);
      var c := Counted(r, now);
      assert u.seconds == c.seconds && u.minutes == c.minutes && u.hours == c.hours;
      assert Days(u) == d0 % 512;
      CarryStep(ts, 60);
      CarryStep(tm, 60);
      CarryStep(th, 24);
      var rest := (th % 24) * 3600 + (tm % 60) * 60 + ts % 60;
      assert d0 * 86400 + rest == Count(r) + e;
      WrapDays(d0, rest);
      assert Count(u) == (d0 % 512) * 86400 + rest;
      assert d0 >= 512 <==> Count(r) + e >= PERIOD;
      assert u.dh & DAY_OVERFLOW_BIT == (u.dh & (HALT_BIT | DAY_OVERFLOW_BIT)) & DAY_OVERFLOW_BIT;
    }
  }

  /** The register file of core/src/rtc.rs, updated in place. */
  class RtcRegisters {
    var seconds: Byte
    var minutes: Byte
    var hours: Byte
    var dl: Byte
    var dh: bv8
    var lastUpdatedSecs: nat

    function Value(): RtcValue
      reads this
    {
      RtcValue(seconds, minutes, hours, dl, dh, lastUpdatedSecs)
    }

    /** `RtcRegisters::new()`, with the clock reading passed in. */
    constructor (now: nat)
      ensures Value() == Fresh(now)
    {
      seconds, minutes, hours, dl, dh := 0, 0, 0, 0, 0;
      lastUpdatedSecs := now;
    }

    /** `RtcRegisters::default()`. */
    constructor Default()
      ensures Value() == Zero()
    {
      seconds, minutes, hours, dl, dh := 0, 0, 0, 0, 0;
      lastUpdatedSecs := 0;
    }

    method Read(sel: bv8) returns (v: bv8)
      ensures v == ReadValue(Value(), sel)
      ensures 0x08 <= sel <= 0x0C || v == 0xFF
    {
      match sel {
        case 0x08 => v := seconds as bv8;
        case 0x09 => v := minutes as bv8;
        case 0x0A => v := hours as bv8;
        case 0x0B => v := dl as bv8;
        case 0x0C => v := dh;
        case _ => v := 0xFF;
      }
    }

    method Write(sel: bv8, value: bv8)
      modifies this
      ensures Value() == WriteValue(old(Value()), sel, value)
    {
      match sel {
        case 0x08 => seconds := if value < 59 then value as int else 59;
        case 0x09 => minutes := if value < 59 then value as int else 59;
        case 0x0A => hours := if value < 23 then value as int else 23;
        case 0x0B => dl := value as int;
        case 0x0C => dh := (value & (DAY_CARRY_BIT | HALT_BIT)) | (dh & DAY_OVERFLOW_BIT);
        case _ =>
      }
    }

    method Update(now: nat)
      modifies this
      ensures Value() == UpdateValue(old(Value()), now)
    {
      ghost var r := Value();
      if dh & HALT_BIT != 0 {
        lastUpdatedSecs := now;
        return;
      }
      var elapsed := if now >= lastUpdatedSecs then now - lastUpdatedSecs else 0;
      if elapsed == 0 {
        return;
      }
      lastUpdatedSecs := now;

      var totalSeconds := seconds + elapsed;
      seconds := totalSeconds % 60;
      var totalMinutes := minutes + totalSeconds / 60;
      minutes := totalMinutes % 60;
      var totalHours := hours + totalMinutes / 60;
      hours := totalHours % 24;
      assert Value() == Counted(r, now);

      var days := dl + (if dh & DAY_CARRY_BIT != 0 then 256 else 0);
      days := days + totalHours / 24;
      assert days == TotalDays(r, now);
      if days >= 512 {
        days := days % 512;
        dh := dh | DAY_OVERFLOW_BIT;
      }
      StoreDays(days);
    }

    /** The last two assignments of `update`: DL and the carry bit of DH. */
    method StoreDays(days: nat)
      requires days < 512
      modifies this
      ensures Value() == WithDays(old(Value()), days)
    {
      dl := days % 256;
      var carry: bv8 := if days / 256 == 1 then 1 else 0;
      dh := (dh & HALT_BIT) | (carry & DAY_CARRY_BIT) | (dh & DAY_OVERFLOW_BIT);
    }

    /** `self.rtc_latched = self.rtc.clone()`, done field by field. */
    method CopyFrom(other: RtcRegisters)
      modifies this
      ensures Value() == old(other.Value())
    {
      seconds, minutes, hours, dl, dh := other.seconds, other.minutes, other.hours, other.dl, other.dh;
      lastUpdatedSecs := other.lastUpdatedSecs;
    }
  }
}
