/** `fetch_data` of `fillup.py`: walk the days from 2024-01-01 up to and
    including "now", request every zone of each day with retries, and hand
    the daily averages of each successful response to the loader. The
    network is a `Server` parameter and "now" a `DateTime` parameter; what
    the run does is recorded as the URLs it GETs and the batches it saves. */
module PriceFetch {
  import opened Wrappers
  import opened Calendar
  import opened PriceSchedule
  import opened PriceRows
  import opened DailyAverage
  import opened PriceRetry

  const FirstFetchDay := Date(2024, 1, 1)

  /** The observable effect of a run: the URLs requested, in order, and the
      frames passed to `save_to_bigquery`, in order. */
  datatype Effect = Effect(gets: seq<string>, saves: seq<seq<AvgRow>>)

  function Then(a: Effect, b: Effect): Effect
  {
    Effect(a.gets + b.gets, a.saves + b.saves)
  }

  /** What is saved from a 200 response for `zone`: nothing when the body
      is not an array of items, when an item lacks a key or has an
      unreadable timestamp, or when the timestamps carry different UTC
      offsets (each time the exception is caught), or when there are no
      items; otherwise the daily averages. */
  function SavedBatch(body: Body, zone: Zone): Option<seq<AvgRow>>
  {
    match body
    case NotJsonArray => None
    case JsonArray(items) =>
      match Rows(items, zone)
      case None => None
      case Some(rows) =>
        if rows == [] || !UniformOffset(items) then None else Some(Transform(rows))
  }

  /** A batch is saved exactly when the body is a non-empty array of
      complete items whose timestamps share one UTC offset. */
  lemma SavedBatchSaves(body: Body, zone: Zone)
    ensures SavedBatch(body, zone).Some? <==>
      body.JsonArray? && |body.items| > 0
      && (forall i :: 0 <= i < |body.items| ==> HasKeys(body.items[i]))
      && UniformOffset(body.items)
  {
  }

  /** On a day the clocks change, the hours before and after the change
      carry different offsets, and nothing of the response is saved. */
  lemma ClockChangeSavesNothing(t1: Timestamp, p1: real, t2: Timestamp, p2: real, zone: Zone)
    requires t1.utcOffset != t2.utcOffset
    ensures SavedBatch(JsonArray([Item(Some(t1), Some(p1)), Item(Some(t2), Some(p2))]), zone) == None
  {
    var items := [Item(Some(t1), Some(p1)), Item(Some(t2), Some(p2))];
    assert items[0].timeStart.value.utcOffset != items[1].timeStart.value.utcOffset;
  }

  /** Every saved batch is non-empty, belongs to the requested zone, and
      has one row per date, in increasing date order. */
  lemma SavedBatchShape(body: Body, zone: Zone)
    requires SavedBatch(body, zone).Some?
    ensures var batch := SavedBatch(body, zone).value;
      |batch| > 0
      && (forall j :: 0 <= j < |batch| ==> batch[j].zone == zone)
      && (forall j1, j2 :: 0 <= j1 < j2 < |batch| ==> Before(batch[j1].date, batch[j2].date))
  {
    var rows := Rows(body.items, zone).value;
    TransformGroups(rows);
    TransformZones(rows, zone);
    assert KeyOf(rows[0]) in GroupKeys(rows);
  }

  /** A one-item response for `zone` saves one row: the item's local date,
      `zone` and the item's price. */
  lemma SingleItemBatch(t: Timestamp, price: real, zone: Zone)
    ensures SavedBatch(JsonArray([Item(Some(t), Some(price))]), zone) == Some([AvgRow(t.local.date, zone, price)])
  {
    var rows := [PriceRow(t.local, price, zone)];
    var k := KeyOf(rows[0]);
    var items := [Item(Some(t), Some(price))];
    assert HasKeys(items[0]);
    var r := Rows(items, zone);
    assert r.Some? && r.value[0] == rows[0];
    assert r.value == rows;
    GroupKeysOfOneGroup(rows, k);
    assert rows[..0] == [];
    assert PricesOf(rows, k) == [price];
    assert [price][..0] == [];
    assert Sum([price]) == price;
    var out := Transform(rows);
    assert |out| == 1 && out[0] == AvgRow(t.local.date, zone, price);
    assert out == [AvgRow(t.local.date, zone, price)];
  }

  /** What `fetch_data` does with a 200 response: build the rows, convert
      the timestamps, compute the daily averages and hand them to the
      loader, or save nothing where that raises or there are no rows. */
  method ProcessBody(body: Body, zone: Zone) returns (batch: Option<seq<AvgRow>>)
    ensures batch == SavedBatch(body, zone)
  {
    if body.NotJsonArray? {
      return None;
    }
    var rows := ExtractRows(body.items, zone);
    if rows.None? || rows.value == [] {
      return None;
    }
    if !UniformOffset(body.items) {
      // `pd.to_datetime` leaves plain objects and `.dt.date` raises.
      return None;
    }
    batch := Some(Transform(rows.value));
  }

  /** One (day, zone) request: its GETs, and the batch saved from it. */
  function RequestEffect(server: Server, req: Request): Effect
  {
    var f := Retry(server, req.url, 0);
    var saved :=
      if f.body.None? then []
      else match SavedBatch(f.body.value, req.zone)
        case None => []
        case Some(batch) => [batch];
    Effect(seq(f.attempts, _ => req.url), saved)
  }

  /** Runs `step` on each request, one after the other. */
  function RunAll(step: Request -> Effect, reqs: seq<Request>): Effect
  {
    if reqs == [] then Effect([], [])
    else Then(RunAll(step, reqs[..|reqs| - 1]), step(reqs[|reqs| - 1]))
  }

  /** The requests one after the other, against `server`. */
  function RunEffect(server: Server, reqs: seq<Request>): Effect
  {
    RunAll(req => RequestEffect(server, req), reqs)
  }

  lemma RunAllAppend(step: Request -> Effect, reqs: seq<Request>, r: Request)
    ensures RunAll(step, reqs + [r]) == Then(RunAll(step, reqs), step(r))
  {
    assert (reqs + [r])[..|reqs|] == reqs;
  }

  lemma {:induction false} RunAllConcat(step: Request -> Effect, a: seq<Request>, b: seq<Request>)
    ensures RunAll(step, a + b) == Then(RunAll(step, a), RunAll(step, b))
    decreases |b|
  {
    if b != [] {
      var init := b[..|b| - 1];
      RunAllConcat(step, a, init);
      assert (a + b)[..|a + b| - 1] == a + init;
    } else {
      assert a + b == a;
    }
  }

  /** One request with its retries and the processing of its response. */
  method FetchOne(server: Server, d: Date, zone: Zone) returns (urls: seq<string>, saved: seq<seq<AvgRow>>)
    requires Valid(d)
    ensures Effect(urls, saved) == RequestEffect(server, RequestFor(d, zone))
  {
    var url := Url(d, zone);
    var attempts, body := GetWithRetries(server, url);
    urls, saved := seq(attempts, _ => url), [];
    if body.Some? {
      var batch := ProcessBody(body.value, zone);
      if batch.Some? {
        saved := [batch.value];
      }
    }
  }

  /** The `for zone in zones` loop of one day. */
  method FetchDay(server: Server, d: Date) returns (urls: seq<string>, saved: seq<seq<AvgRow>>)
    requires Valid(d)
    ensures Effect(urls, saved) == RunEffect(server, DayRequests(d))
  {
    urls, saved := [], [];
    ghost var today := DayRequests(d);
    for z := 0 to |Zones|
      invariant Effect(urls, saved) == RunEffect(server, today[..z])
    {
      var zoneUrls, zoneSaved := FetchOne(server, d, Zones[z]);
      urls, saved := urls + zoneUrls, saved + zoneSaved;
      assert today[..z + 1] == today[..z] + [today[z]];
      RunAllAppend(req => RequestEffect(server, req), today[..z], today[z]);
    }
    assert today[..|Zones|] == today;
  }

  /** Every request is sent at least once and at most three times, and it
      saves at most one batch. */
  /** One request makes one to three GETs and saves at most one batch. */
  lemma RequestEffectBounds(server: Server, req: Request)
    ensures 1 <= |RequestEffect(server, req).gets| <= MaxAttempts
    ensures |RequestEffect(server, req).saves| <= 1
  {
  }

  lemma {:induction false} RunEffectBounds(server: Server, reqs: seq<Request>)
    ensures forall i :: 0 <= i < |reqs| ==>
      1 <= |RequestEffect(server, reqs[i]).gets| <= MaxAttempts && |RequestEffect(server, reqs[i]).saves| <= 1
    ensures |reqs| <= |RunEffect(server, reqs).gets| <= MaxAttempts * |reqs|
    ensures |RunEffect(server, reqs).saves| <= |reqs|
  {
    forall i | 0 <= i < |reqs|
      ensures 1 <= |RequestEffect(server, reqs[i]).gets| <= MaxAttempts && |RequestEffect(server, reqs[i]).saves| <= 1
    {
      RequestEffectBounds(server, reqs[i]);
    }
    if reqs != [] {
      RunEffectBounds(server, reqs[..|reqs| - 1]);
    }
  }

  /** Every URL requested is the URL of one of the requests. */
  lemma {:induction false} RunEffectUrls(server: Server, reqs: seq<Request>)
    ensures forall g :: g in RunEffect(server, reqs).gets ==> exists i :: 0 <= i < |reqs| && reqs[i].url == g
  {
    if reqs != [] {
      var init := reqs[..|reqs| - 1];
      RunEffectUrls(server, init);
      forall g | g in RunEffect(server, reqs).gets
        ensures exists i :: 0 <= i < |reqs| && reqs[i].url == g
      {
        if g in RunEffect(server, init).gets {
          var i :| 0 <= i < |init| && init[i].url == g;
          assert reqs[i] == init[i];
        } else {
          assert reqs[|reqs| - 1].url == g;
        }
      }
    }
  }

  lemma EffectStep(server: Server, visited: seq<Date>, d: Date)
    requires AllValid(visited) && Valid(d)
    ensures AllValid(visited + [d])
    ensures RunEffect(server, Schedule(visited + [d])) == Then(RunEffect(server, Schedule(visited)), RunEffect(server, DayRequests(d)))
  {
    ScheduleAppend(visited, d);
    RunAllConcat(req => RequestEffect(server, req), Schedule(visited), DayRequests(d));
  }

  /** One step of the day loop keeps `visited + DaysFrom(current, end)` equal
      to all the days and brings `current` closer to `end`. */
  lemma WalkStep(first: Date, end: Date, visited: seq<Date>, current: Date)
    requires Valid(first) && Valid(end) && Valid(current) && AllValid(visited)
    requires !Before(end, current)
    requires DaysFrom(first, end) == visited + DaysFrom(current, end)
    ensures DaysFrom(first, end) == (visited + [current]) + DaysFrom(NextDay(current), end)
    ensures Ordinal(current) <= Ordinal(end) && Ordinal(current) < Ordinal(NextDay(current))
  {
    DaysFromStep(current, end);
    var rest := DaysFrom(NextDay(current), end);
    assert visited + ([current] + rest) == (visited + [current]) + rest;
    OrdinalSteps(current, end);
  }

  lemma OrdinalSteps(current: Date, end: Date)
    requires Valid(current) && Valid(end) && !Before(end, current)
    ensures Ordinal(current) <= Ordinal(end) && Ordinal(current) < Ordinal(NextDay(current))
  {
    BeforeOrdinal(current, NextDay(current));
    BeforeOrdinal(current, end);
  }

  lemma WalkDone(first: Date, end: Date, visited: seq<Date>, current: Date)
    requires Valid(first) && Valid(end) && Valid(current)
    requires Before(end, current)
    requires DaysFrom(first, end) == visited + DaysFrom(current, end)
    ensures visited == DaysFrom(first, end)
  {
    DaysFromStep(current, end);
    assert visited + [] == visited;
  }

  /** The whole fetch loop: `while start_date <= end_date`, then
      `for zone in zones`, then the retries, then the processing. */
  method FetchData(server: Server, now: DateTime) returns (gets: seq<string>, saves: seq<seq<AvgRow>>)
    requires ValidDateTime(now)
    ensures Effect(gets, saves) == RunEffect(server, Schedule(DaysFrom(FirstFetchDay, now.date)))
  {
    gets, saves := [], [];
    var current := FirstFetchDay;
    ghost var visited: seq<Date> := [];
    while NotAfter(Midnight(current), now)
      invariant Valid(current) && AllValid(visited)
      invariant DaysFrom(FirstFetchDay, now.date) == visited + DaysFrom(current, now.date)
      invariant Effect(gets, saves) == RunEffect(server, Schedule(visited))
      decreases Ordinal(now.date) - Ordinal(current)
    {
      MidnightNotAfter(current, now);
      var urls, saved := FetchDay(server, current);
      gets, saves := gets + urls, saves + saved;
      EffectStep(server, visited, current);
      ScheduleAppend(visited, current);
      WalkStep(FirstFetchDay, now.date, visited, current);
      visited := visited + [current];
      current := NextDay(current);
    }
    MidnightNotAfter(current, now);
    WalkDone(FirstFetchDay, now.date, visited, current);
  }

  /** What `FetchData` requests: four per day, date-major with the zones in
      order SE1, SE2, SE3, SE4, for every day from 2024-01-01 up to and
      including the date of "now", each day once and in increasing order. */
  lemma FetchSchedule(now: DateTime)
    requires ValidDateTime(now)
    ensures var days := DaysFrom(FirstFetchDay, now.date);
      var reqs := Schedule(days);
      |reqs| == 4 * |days|
      && (forall i :: 0 <= i < |reqs| ==> reqs[i] == RequestFor(days[i / 4], Zones[i % 4]))
      && (forall i, j :: 0 <= i < j < |days| ==> Before(days[i], days[j]))
      && (forall e :: Valid(e) && !Before(e, FirstFetchDay) && !Before(now.date, e) ==> e in days)
      && (forall i :: 0 <= i < |days| ==> !Before(days[i], FirstFetchDay) && !Before(now.date, days[i]))
  {
    var days := DaysFrom(FirstFetchDay, now.date);
    DaysFromSteps(FirstFetchDay, now.date);
    ScheduleAt(days);
    DaysFromIncreasing(FirstFetchDay, now.date);
    forall e | Valid(e) && !Before(e, FirstFetchDay) && !Before(now.date, e)
      ensures e in days
    {
      DaysFromComplete(FirstFetchDay, now.date, e);
    }
  }
}
