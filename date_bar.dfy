/**
 * The date bar (`DateBarView`): stepping the selected date by whole days and
 * picking a date, both kept within 1900-01-01 … 2100-12-31.
 */
module DateBar {
  import opened Dates
  import opened AppStores

  /** 1900-01-01 and 2100-12-31 as day numbers counted from 1970-01-01. */
  const MinDate: Date := -25567
  const MaxDate: Date := 47846

  /** `clamped(_:)`: `min(max(date, minDate), maxDate)`. */
  function Clamped(date: Date): (r: Date)
    ensures MinDate <= r <= MaxDate
    ensures MinDate <= date <= MaxDate ==> r == date
    ensures date < MinDate ==> r == MinDate
    ensures date > MaxDate ==> r == MaxDate
  {
    var atLeastMin := if date < MinDate then MinDate else date;
    if atLeastMin > MaxDate then MaxDate else atLeastMin
  }

  /** Clamping twice is clamping once. */
  lemma ClampedIdempotent(date: Date)
    ensures Clamped(Clamped(date)) == Clamped(date)
  {
  }

  /** Clamping keeps the order of dates. */
  lemma ClampedMonotone(a: Date, b: Date)
    requires a <= b
    ensures Clamped(a) <= Clamped(b)
  {
  }

  /** The picker's getter: the stored date, clamped. */
  function PickerDate(store: AppStore): (r: Date)
    reads store
    ensures MinDate <= r <= MaxDate
    ensures MinDate <= store.selectedDate <= MaxDate ==> r == store.selectedDate
  {
    Clamped(store.selectedDate)
  }

  /** The picker's setter: stores the picked date, clamped. */
  method SetPickerDate(store: AppStore, picked: Date)
    modifies store`selectedDate
    ensures store.selectedDate == Clamped(picked)
    ensures MinDate <= store.selectedDate <= MaxDate
  {
    store.selectedDate := Clamped(picked);
  }

  /**
   * `moveDate(by:)`: clamp the stored date, add `days`, clamp again, store.
   * The result is in range even when the stored date was not.
   */
  method MoveDate(store: AppStore, days: int)
    modifies store`selectedDate
    ensures store.selectedDate == Clamped(Clamped(old(store.selectedDate)) + days)
    ensures MinDate <= store.selectedDate <= MaxDate
    ensures MinDate <= old(store.selectedDate) <= MaxDate && MinDate <= old(store.selectedDate) + days <= MaxDate
            ==> store.selectedDate == old(store.selectedDate) + days
    ensures old(store.selectedDate) >= MaxDate && days >= 0 ==> store.selectedDate == MaxDate
    ensures old(store.selectedDate) <= MinDate && days <= 0 ==> store.selectedDate == MinDate
  {
    var baseDate := Clamped(store.selectedDate);
    var moved := baseDate + days;
    store.selectedDate := Clamped(moved);
  }
}
