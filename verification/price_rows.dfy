/** Turning the JSON array of one price response into rows
    `[time_start, SEK_per_kWh, zone]`. */
module PriceRows {
  import opened Wrappers
  import opened Calendar
  import opened PriceSchedule

  /** A `time_start` value as `pd.to_datetime` reads it: the local date and
      time written in the text and the UTC offset (in minutes) written after
      it. */
  datatype Timestamp = Timestamp(local: DateTime, utcOffset: int)

  /** One element of the JSON array. A field is `None` when its key is
      missing, where `item['time_start']` or `item['SEK_per_kWh']` raises;
      `timeStart` is also `None` when its text is not a date-time, where
      `pd.to_datetime` raises. */
  datatype Item = Item(timeStart: Option<Timestamp>, price: Option<real>)

  /** A row of the data frame: the local timestamp, price in SEK per kWh, zone. */
  datatype PriceRow = PriceRow(timestamp: DateTime, price: real, zone: Zone)

  predicate HasKeys(item: Item)
  {
    item.timeStart.Some? && item.price.Some?
  }

  /** All timestamps carry the same UTC offset. Only then does
      `pd.to_datetime` give a column with a time zone, on which `.dt.date`
      works; with mixed offsets (the days clocks change) it gives plain
      objects and `.dt` raises. */
  predicate UniformOffset(items: seq<Item>)
  {
    forall i, j :: 0 <= i < |items| && 0 <= j < |items| && items[i].timeStart.Some? && items[j].timeStart.Some? ==>
      items[i].timeStart.value.utcOffset == items[j].timeStart.value.utcOffset
  }

  /** The rows of a response for `zone`, one per item and in item order;
      `None` when some item lacks a key, in which case the exception is
      caught and nothing of the response is kept. */
  function Rows(items: seq<Item>, zone: Zone): (r: Option<seq<PriceRow>>)
    ensures r.Some? <==> forall i :: 0 <= i < |items| ==> HasKeys(items[i])
    ensures r.Some? ==> |r.value| == |items|
    ensures r.Some? ==> forall i :: 0 <= i < |items| ==>
      r.value[i] == PriceRow(items[i].timeStart.value.local, items[i].price.value, zone)
  {
    if items == [] then Some([])
    else
      var last := items[|items| - 1];
      match Rows(items[..|items| - 1], zone)
      case None => None
      case Some(init) =>
        if HasKeys(last) then Some(init + [PriceRow(last.timeStart.value.local, last.price.value, zone)])
        else None
  }

  /** The `for item in data` loop that appends one row per item. */
  method ExtractRows(items: seq<Item>, zone: Zone) returns (rows: Option<seq<PriceRow>>)
    ensures rows == Rows(items, zone)
  {
    var filtered: seq<PriceRow> := [];
    var i := 0;
    while i < |items|
      invariant 0 <= i <= |items|
      invariant Rows(items[..i], zone) == Some(filtered)
    {
      var item := items[i];
      if !HasKeys(item) {
        assert !HasKeys(items[i]);
        return None;
      }
      filtered := filtered + [PriceRow(item.timeStart.value.local, item.price.value, zone)];
      assert items[..i + 1][..i] == items[..i];
      i := i + 1;
    }
    assert items[..i] == items;
    rows := Some(filtered);
  }

  /** An item without its keys spoils every longer response too. */
  lemma NoneExtends(a: seq<Item>, b: seq<Item>, zone: Zone)
    requires Rows(a, zone).None?
    ensures Rows(a + b, zone).None?
  {
    var i :| 0 <= i < |a| && !HasKeys(a[i]);
    assert (a + b)[i] == a[i];
  }
}
