/**
 * The static catalog of src/constants.ts: the two grounds, the eight daily
 * slots and the three periods, with the well-formedness facts the views and
 * the ledger rely on.
 */
module Constants {

  import opened Types
  import opened Text

  const MAIN_TURF := Turf(
    "main", "Main Stadium Ground", "Full Pitch", 1200,
    "https://images.unsplash.com/photo-1531415074968-036ba1b575da?auto=format&fit=crop&q=80&w=1000")

  const NETS_TURF := Turf(
    "nets", "Pro Practice Nets", "Nets", 400,
    "https://images.unsplash.com/photo-1593341646271-ec60d00552b9?auto=format&fit=crop&q=80&w=1000")

  /** `TURFS: Record<string, Turf>`. */
  const TURFS: map<string, Turf> := map["main" := MAIN_TURF, "nets" := NETS_TURF]

  /** `Object.values(TURFS)`: the records in the insertion order of their keys. */
  const TURF_VALUES: seq<Turf> := [MAIN_TURF, NETS_TURF]

  // The eight daily slots, one constant each so that each can be checked on its own.
  const SLOT_06_07 := BookingSlot("06-07", "06:00 AM - 07:00 AM", Morning)
  const SLOT_07_08 := BookingSlot("07-08", "07:00 AM - 08:00 AM", Morning)
  const SLOT_08_09 := BookingSlot("08-09", "08:00 AM - 09:00 AM", Morning)
  const SLOT_16_17 := BookingSlot("16-17", "04:00 PM - 05:00 PM", Evening)
  const SLOT_17_18 := BookingSlot("17-18", "05:00 PM - 06:00 PM", Evening)
  const SLOT_18_19 := BookingSlot("18-19", "06:00 PM - 07:00 PM", Night)
  const SLOT_19_20 := BookingSlot("19-20", "07:00 PM - 08:00 PM", Night)
  const SLOT_20_21 := BookingSlot("20-21", "08:00 PM - 09:00 PM", Night)

  const SLOTS: seq<BookingSlot> := [
    SLOT_06_07, SLOT_07_08, SLOT_08_09, SLOT_16_17,
    SLOT_17_18, SLOT_18_19, SLOT_19_20, SLOT_20_21
  ]

  const PERIODS: seq<Period> := [Morning, Evening, Night]

  /** The number two decimal digits spell, or -1 when they are not digits. */
  function TwoDigits(a: char, b: char): int
  {
    if IsDigit(a) && IsDigit(b) then DigitValue(a) * 10 + DigitValue(b) else -1
  }

  /** The 24-hour hour of a 12-hour reading: 12 AM is 0, 12 PM is 12. */
  function Hour24(h12: int, pm: bool): int
  {
    if h12 == 12 then (if pm then 12 else 0) else if pm then h12 + 12 else h12
  }

  /** `t[k..k+8]` reads `hh:00 AM` or `hh:00 PM` and names the 24-hour hour `hour`. */
  predicate ClockAt(t: string, k: nat, hour: int)
    requires k + 8 <= |t|
  {
    && t[k + 2] == ':' && t[k + 3] == '0' && t[k + 4] == '0' && t[k + 5] == ' '
    && (t[k + 6] == 'A' || t[k + 6] == 'P') && t[k + 7] == 'M'
    && 1 <= TwoDigits(t[k], t[k + 1]) <= 12
    && Hour24(TwoDigits(t[k], t[k + 1]), t[k + 6] == 'P') == hour
  }

  /** The start hour a slot id `hh-hh` encodes. */
  function StartHour(s: BookingSlot): int
  {
    if |s.id| >= 2 then TwoDigits(s.id[0], s.id[1]) else -1
  }

  /** The end hour a slot id `hh-hh` encodes. */
  function EndHour(s: BookingSlot): int
  {
    if |s.id| >= 5 then TwoDigits(s.id[3], s.id[4]) else -1
  }

  /** A slot id `hh-hh` names a one-hour window, and its label `hh:00 AM - hh:00 PM`
      reads the same start and end hours on the 12-hour clock. */
  predicate WellFormedSlot(s: BookingSlot)
  {
    && |s.id| == 5 && s.id[2] == '-'
    && |s.timeLabel| == 19 && s.timeLabel[8] == ' ' && s.timeLabel[9] == '-' && s.timeLabel[10] == ' '
    && var start, end := TwoDigits(s.id[0], s.id[1]), TwoDigits(s.id[3], s.id[4]);
       0 <= start && end == start + 1 && ClockAt(s.timeLabel, 0, start) && ClockAt(s.timeLabel, 11, end)
  }
}
