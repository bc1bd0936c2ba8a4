/** Totals over the values of a dictionary. */
module Sums {

  ghost function SumBy<T>(entries: map<string, T>, weight: T -> int): int
  {
    if entries == map[] then 0
    else
      var key :| key in entries;
      weight(entries[key]) + SumBy(entries - {key}, weight)
  }

  lemma SumByEmpty<T>(weight: T -> int)
    ensures SumBy<T>(map[], weight) == 0
  {}

  /** The total does not depend on which entry is taken first. */
  lemma {:induction false} SumByRemove<T>(entries: map<string, T>, weight: T -> int, key: string)
    requires key in entries
    ensures SumBy(entries, weight) == weight(entries[key]) + SumBy(entries - {key}, weight)
    decreases |entries|
  {
    var picked :| picked in entries
        && SumBy(entries, weight) == weight(entries[picked]) + SumBy(entries - {picked}, weight);
    if picked != key {
      SumByRemove(entries - {picked}, weight, key);
      SumByRemove(entries - {key}, weight, picked);
      assert entries - {picked} - {key} == entries - {key} - {picked};
    }
  }

  lemma SumByInsert<T>(entries: map<string, T>, weight: T -> int, key: string, value: T)
    requires key !in entries
    ensures SumBy(entries[key := value], weight) == weight(value) + SumBy(entries, weight)
  {
    var grown := entries[key := value];
    SumByRemove(grown, weight, key);
    assert grown - {key} == entries;
  }
}
