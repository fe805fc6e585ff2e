/**
 * Well-formedness of the catalog in src/constants.ts: the facts about the
 * grounds, slots and periods that the views and the ledger rely on.
 */
module CatalogFacts {

  import opened Types
  import opened Constants

  lemma TurfKeysMatchIds()
    ensures forall k :: k in TURFS ==> TURFS[k].id == k
  {
  }

  /** `Object.values(TURFS)` lists every record of the catalog once, under its own id. */
  lemma TurfValuesListedOnce()
    ensures |TURF_VALUES| == |TURFS|
    ensures forall i :: 0 <= i < |TURF_VALUES| ==> TURF_VALUES[i].id in TURFS && TURFS[TURF_VALUES[i].id] == TURF_VALUES[i]
    ensures forall k :: k in TURFS ==> TURFS[k] in TURF_VALUES
    ensures forall i, j :: 0 <= i < j < |TURF_VALUES| ==> TURF_VALUES[i].id != TURF_VALUES[j].id
  {
    assert TURFS.Keys == {"main", "nets"};
  }

  lemma TurfPricesPositive()
    ensures forall k :: k in TURFS ==> TURFS[k].price > 0
    ensures TURFS["main"].price == 1200 && TURFS["nets"].price == 400
  {
  }

  lemma SlotIdsDistinct()
    ensures forall i, j :: 0 <= i < j < |SLOTS| ==> SLOTS[i].id != SLOTS[j].id
  {
  }

  lemma PeriodsCoverSlots()
    ensures forall i, j :: 0 <= i < j < |PERIODS| ==> PERIODS[i] != PERIODS[j]
    ensures forall p: Period :: p in PERIODS
    ensures forall s :: s in SLOTS ==> s.period in PERIODS
  {
    forall p: Period ensures p in PERIODS {
      match p
      case Morning => assert PERIODS[0] == p;
      case Evening => assert PERIODS[1] == p;
      case Night => assert PERIODS[2] == p;
    }
  }

  lemma Slot0607WellFormed()
    ensures WellFormedSlot(SLOT_06_07)
  {
    assert WellFormedSlot(SLOT_06_07);
  }

  lemma Slot0708WellFormed()
    ensures WellFormedSlot(SLOT_07_08)
  {
    assert WellFormedSlot(SLOT_07_08);
  }

  lemma Slot0809WellFormed()
    ensures WellFormedSlot(SLOT_08_09)
  {
    assert WellFormedSlot(SLOT_08_09);
  }

  lemma Slot1617WellFormed()
    ensures WellFormedSlot(SLOT_16_17)
  {
    assert WellFormedSlot(SLOT_16_17);
  }

  lemma Slot1718WellFormed()
    ensures WellFormedSlot(SLOT_17_18)
  {
    assert WellFormedSlot(SLOT_17_18);
  }

  lemma Slot1819WellFormed()
    ensures WellFormedSlot(SLOT_18_19)
  {
    assert WellFormedSlot(SLOT_18_19);
  }

  lemma Slot1920WellFormed()
    ensures WellFormedSlot(SLOT_19_20)
  {
    assert WellFormedSlot(SLOT_19_20);
  }

  lemma Slot2021WellFormed()
    ensures WellFormedSlot(SLOT_20_21)
  {
    assert WellFormedSlot(SLOT_20_21);
  }

  /** Every slot id names the 24-hour start and end of its one-hour 12-hour label. */
  lemma SlotIdsMatchLabels()
    ensures forall s :: s in SLOTS ==> WellFormedSlot(s)
  {
    forall s | s in SLOTS ensures WellFormedSlot(s) {
      if s == SLOT_06_07 { Slot0607WellFormed(); }
      else if s == SLOT_07_08 { Slot0708WellFormed(); }
      else if s == SLOT_08_09 { Slot0809WellFormed(); }
      else if s == SLOT_16_17 { Slot1617WellFormed(); }
      else if s == SLOT_17_18 { Slot1718WellFormed(); }
      else if s == SLOT_18_19 { Slot1819WellFormed(); }
      else if s == SLOT_19_20 { Slot1920WellFormed(); }
      else { Slot2021WellFormed(); }
    }
  }

  /** The slots are listed by increasing start hour. */
  lemma SlotsInHourOrder()
    ensures forall i, j :: 0 <= i < j < |SLOTS| ==> StartHour(SLOTS[i]) < StartHour(SLOTS[j])
  {
    assert forall i :: 0 <= i < |SLOTS| ==> StartHour(SLOTS[i]) == [6, 7, 8, 16, 17, 18, 19, 20][i];
  }
}
