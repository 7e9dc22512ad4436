# Energi-Data-ETL in Dafny

A model of the two extraction scripts of Energi-Data-ETL, with proofs about
what they request, what they compute and when they save.

- **`fillup.py`, the backfill of Swedish spot prices.** It walks every day
  from 2024-01-01 up to and including today (UTC). For each day it visits the
  zones SE1, SE2, SE3 and SE4 in that order and GETs
  `https://www.elprisetjustnu.se/api/v1/prices/{year}/{MM}-{DD}_{zone}.json`.
  Each GET is tried at most three times, and the first status 200 ends the
  attempts. From a 200 response it builds one row per item, from
  `time_start` and `SEK_per_kWh`. `transform_data` then reduces the rows to
  the mean price per (date, zone), and that frame goes to the loader.
- **`energy_etl.py`, realised total load of SE1 over the last 24 hours.** It
  makes one ENTSO-E request: document type A65, process type A16, domain
  `10YSE-1--------K`. The window runs from `now - 1 day` to `now`, both
  written `yyyyMMddHH00`. Nothing is saved in these cases:
  - the request raises;
  - the status is not 200;
  - the text contains `Acknowledgement_MarketDocument`;
  - the XML cannot be walked.

  Otherwise every Point of every Period of every TimeSeries becomes a row
  `(zone, period start, position, quantity)`. The rows are saved if there
  is at least one.

How the model represents the outside world:
- The network is a function parameter. `PriceRetry.Server` maps a URL and an
  attempt number to an outcome; `LoadFetch.LoadServer` maps a request to a
  response.
- "Now" is a `DateTime` parameter.
- A run of `fetch_data` is described by the URLs it requests, in order, and
  the batches it hands to `save_to_bigquery`, in order.
- An exception that the scripts catch is an `Option` that is `None`; in that
  case nothing is saved.

Modules:
- `Wrappers`: `Option`.
- `Text`: decimal formatting, `int(text)` and the substring test.
- `Calendar`: proleptic Gregorian dates, the next and previous day, day
  ranges and date-time comparison.
- `PriceSchedule`: zones, price URLs and their parser, the request schedule.
- `PriceRows`: JSON items to rows.
- `DailyAverage`: `transform_data`.
- `PriceRetry`: the three-attempt loop.
- `PriceFetch`: `fetch_data` of `fillup.py`.
- `LoadWindow`: the query window.
- `LoadDocument`: the load document and its flattening.
- `LoadFetch`: `fetch_data` of `energy_etl.py`.

## Model

| member | source | states |
|---|---|---|
| Text.DecimalDigits | scripts/fillup.py:19 | `{}` of a non-negative year gives at least one decimal digit, with no leading zero except for 0 |
| Text.ParseDecimalDigits | scripts/fillup.py:19 | reading the digits back gives the number (formatting is injective) |
| Text.DecimalDigitsOfYear | scripts/energy_etl.py:29-30 | `%Y` of a year from 1000 to 9999 is exactly four characters |
| Text.Pad2 | scripts/fillup.py:19 | `{:02d}` gives only digits, at least two of them, and exactly two below 100 |
| Text.ParsePad2 | scripts/fillup.py:19 | the zero-padded text reads back as the number |
| Text.IntText | scripts/energy_etl.py:121 | the reference text `str(n)`, never empty, with which `ParseIntText` states that `int()` reads every integer back |
| Text.ParseInt | scripts/energy_etl.py:121 | `int(text)` succeeds only on non-empty text |
| Text.ParseIntText | scripts/energy_etl.py:121 | `int(str(n)) == n` for every integer, negative ones included |
| Text.Contains | scripts/energy_etl.py:94 | `pattern in text`; specified by `ContainsIff` |
| Text.ContainsIff | scripts/energy_etl.py:94 | the recursive substring test holds exactly when the pattern occurs at some index |
| Calendar.DaysInMonth | scripts/fillup.py:48 | a month has 28 to 31 days, and 29 exactly for February of a leap year |
| Calendar.BeforeOrdinal | scripts/fillup.py:50 | date order is the order of day ordinals, both ways |
| Calendar.NextDay | scripts/fillup.py:111 | adding one day gives a valid, strictly later date |
| Calendar.PrevDay | scripts/energy_etl.py:29 | subtracting one day gives a valid date whose next day is the original |
| Calendar.PrevDayOfNextDay | scripts/energy_etl.py:29 | subtracting a day undoes adding one |
| Calendar.NoDayBetween | scripts/fillup.py:111 | no date lies strictly between a date and its next day |
| Calendar.DaysFrom | scripts/fillup.py:45-50 | the days from `a` to `b` are all valid dates |
| Calendar.DaysFromSteps | scripts/fillup.py:45-50 | empty exactly when `b` is before `a`; starts at `a`, ends at `b`, stays in range and steps one day at a time |
| Calendar.DaysFromIncreasing | scripts/fillup.py:48-50 | the visited dates strictly increase, so no day is visited twice |
| Calendar.DaysFromComplete | scripts/fillup.py:45-50 | every valid date from `a` to `b` is visited |
| Calendar.MidnightNotAfter | scripts/fillup.py:50 | the day's midnight is at or before `now` exactly when the day is not after the date of `now` |
| PriceSchedule.ZoneName | scripts/fillup.py:22-27 | each zone name is three characters |
| PriceSchedule.ZoneFromName | scripts/fillup.py:22-27 | a recognised name is the name of the zone it maps to |
| PriceSchedule.Url | scripts/fillup.py:19 | `url.format(year, month, day, zone)`; specified by `UrlRoundTrip` and `UrlInjective` against a separate parser |
| PriceSchedule.ParseFileNameOf | scripts/fillup.py:19 | the `MM-DD_zone.json` part reads back as its date and zone |
| PriceSchedule.ParseDatePathOf | scripts/fillup.py:19 | `year/MM-DD_zone.json` reads back as its date and zone |
| PriceSchedule.UrlRoundTrip | scripts/fillup.py:54 | parsing a formatted price URL gives back its date and zone |
| PriceSchedule.UrlInjective | scripts/fillup.py:54 | distinct (date, zone) pairs get distinct URLs |
| PriceSchedule.DayRequests | scripts/fillup.py:52-54 | one request per zone, in the order SE1, SE2, SE3, SE4 |
| PriceSchedule.Schedule | scripts/fillup.py:50-54 | the requests of the day loop, day by day; specified by `ScheduleAt` |
| PriceSchedule.ScheduleAt | scripts/fillup.py:50-54 | four requests per day; request `i` is for day `i / 4` and zone `i % 4` |
| PriceRows.Rows | scripts/fillup.py:69-74 | rows exist exactly when every item has both keys; then there is one row per item, in order, with the item's local time, price and the zone |
| PriceRows.ExtractRows | scripts/fillup.py:69-74 | the item loop computes `Rows`, stopping at the first item that lacks a key |
| PriceRows.NoneExtends | scripts/fillup.py:71-73 | a failing prefix makes any longer item list fail |
| DailyAverage.Insert | scripts/fillup.py:35 | inserting a group key keeps the keys strictly sorted and adds exactly that key |
| DailyAverage.GroupKeys | scripts/fillup.py:35 | the group keys are strictly sorted by (date, zone) and are exactly the keys that occur in the rows |
| DailyAverage.PricesOf | scripts/fillup.py:35-36 | a group has prices exactly when its key occurs |
| DailyAverage.KeyOf | scripts/fillup.py:32 | the group key of a row: the date part of its timestamp and its zone; used by `TransformGroups` |
| DailyAverage.Transform | scripts/fillup.py:35-37 | `transform_data`; specified by `TransformGroups`, `TransformMean` and `TransformWithinBounds` |
| DailyAverage.TransformGroups | scripts/fillup.py:35-37 | one output row per (date, zone) that occurs, sorted by (date, zone) with no duplicates, and every input key present |
| DailyAverage.PricesOfSums | scripts/fillup.py:35-36 | a group's prices have the group's count and total, computed independently over the rows |
| DailyAverage.GroupMean | scripts/fillup.py:36 | a present group is non-empty and its mean is its total divided by its count |
| DailyAverage.TransformMean | scripts/fillup.py:35-37 | every `avg_price` is its group's total over its group's count |
| DailyAverage.SumBounds | scripts/fillup.py:36 | a sum of values in `[lo, hi]` lies between `n*lo` and `n*hi` |
| DailyAverage.MeanBounds | scripts/fillup.py:36 | the mean of values in `[lo, hi]` is in `[lo, hi]` |
| DailyAverage.PricesOfFrom | scripts/fillup.py:35-36 | every price in a group comes from an input row with that key |
| DailyAverage.TransformWithinBounds | scripts/fillup.py:35-37 | if all prices are in `[lo, hi]` then so is every daily average |
| DailyAverage.GroupKeysOfOneGroup | scripts/fillup.py:35 | rows that share one key form exactly one group |
| DailyAverage.TransformSingleGroup | scripts/fillup.py:35-37 | rows of one date and zone give exactly one output row, with that key |
| DailyAverage.TransformZones | scripts/fillup.py:35-37 | a frame of one zone gives rows of that zone only |
| PriceRetry.Retry | scripts/fillup.py:59-105 | at most three attempts; every attempt before the last failed; a body exactly when the last attempt got status 200, and it is that response's body; no body means three failed attempts |
| PriceRetry.GetWithRetries | scripts/fillup.py:59-105 | the retry loop computes `Retry` from attempt 0 |
| PriceFetch.SavedBatch | scripts/fillup.py:66-94 | what one 200 response saves; specified by `SavedBatchSaves`, `SavedBatchShape` and `ClockChangeSavesNothing` |
| PriceFetch.SavedBatchSaves | scripts/fillup.py:66-94 | a batch is saved exactly when the body is a non-empty array of complete items whose timestamps share one UTC offset |
| PriceFetch.ClockChangeSavesNothing | scripts/fillup.py:76-94 | timestamps with different UTC offsets, as on a day the clocks change, save nothing |
| PriceFetch.SavedBatchShape | scripts/fillup.py:66-89 | a saved batch is non-empty, of the requested zone, with one row per date in increasing date order |
| PriceFetch.SingleItemBatch | scripts/fillup.py:66-89 | a one-item response saves one row: the item's date, the zone and the item's price |
| PriceFetch.ProcessBody | scripts/fillup.py:66-94 | processing a 200 body gives `SavedBatch`: nothing when a key is missing, a timestamp is unreadable, the offsets differ or there are no items; the daily averages otherwise |
| PriceFetch.RequestEffect | scripts/fillup.py:54-108 | one request's GETs and save; specified by `FetchOne`, `RunEffectBounds` and `RunEffectUrls` |
| PriceFetch.RunAllConcat | scripts/fillup.py:50-52 | running two request lists one after the other concatenates their effects |
| PriceFetch.FetchOne | scripts/fillup.py:54-108 | one (day, zone) request GETs its URL once per attempt and saves at most the batch of its 200 response |
| PriceFetch.FetchDay | scripts/fillup.py:52-108 | a day's zone loop has the effect of its four requests in zone order |
| PriceFetch.RequestEffectBounds | scripts/fillup.py:59-95 | one request makes between one and three GETs and saves at most one batch |
| PriceFetch.RunEffectBounds | scripts/fillup.py:59-62 | between one and three GETs per request and at most one save per request; in total between n and 3n GETs and at most n saves for n requests |
| PriceFetch.RunEffectUrls | scripts/fillup.py:54-62 | every GET is to the URL of a scheduled request |
| PriceFetch.EffectStep | scripts/fillup.py:50-52 | fetching one more day appends that day's effect |
| PriceFetch.WalkStep | scripts/fillup.py:50-111 | stepping the loop date keeps the visited days plus the remaining range equal to the whole range |
| PriceFetch.OrdinalSteps | scripts/fillup.py:50 | the loop's measure is bounded and grows by a step each day (termination) |
| PriceFetch.WalkDone | scripts/fillup.py:50 | when the loop date passes today, the visited days are the whole range |
| PriceFetch.FetchData | scripts/fillup.py:43-111 | the whole backfill has the effect of the requests for every day from 2024-01-01 to today, in order |
| PriceFetch.FetchSchedule | scripts/fillup.py:45-54 | those requests are four per day in zone order; the days strictly increase and are exactly the valid dates from 2024-01-01 to today |
| LoadWindow.DayEarlier | scripts/energy_etl.py:29 | one day earlier is a valid date-time |
| LoadWindow.StampText | scripts/energy_etl.py:29-30 | `strftime("%Y%m%d%H00")`; specified by `StampRoundTrip` |
| LoadWindow.QueryWindow | scripts/energy_etl.py:28-30 | `start_date` and `end_date`; specified by `QueryWindowSpansOneDay` |
| LoadWindow.StampRoundTrip | scripts/energy_etl.py:29-30 | for four-digit years a stamp has twelve digits, ends in `00` and reads back as its date and hour |
| LoadWindow.QueryWindowSpansOneDay | scripts/energy_etl.py:28-30 | `periodStart` and `periodEnd` are twelve-digit stamps at the same hour; `periodStart` is on the day before `periodEnd` |
| LoadDocument.PointRowsAt | scripts/energy_etl.py:115-123 | a Period gives one row per Point, in order, with zone SE1's code, the Period's start, `int(position)` and the quantity |
| LoadDocument.PeriodsRowsAppend | scripts/energy_etl.py:111-123 | walking two lists of Periods in turn concatenates their rows; it succeeds exactly when it succeeds on both |
| LoadDocument.SeriesRowsAppend | scripts/energy_etl.py:110-123 | the same for lists of TimeSeries |
| LoadDocument.FlattenAppend | scripts/energy_etl.py:107-123 | rows are in document order: the rows of two series lists in turn are the first list's rows followed by the second's |
| LoadDocument.FlattenOnePeriod | scripts/energy_etl.py:111-123 | a single Period gives its Points' rows, or nothing when its start or one of its Points is missing or unreadable |
| LoadDocument.PeriodsRowsCount | scripts/energy_etl.py:111-123 | the Periods give as many rows as they have Points |
| LoadDocument.SeriesRowsCount | scripts/energy_etl.py:110-123 | the TimeSeries give as many rows as they have Points |
| LoadDocument.FlattenCount | scripts/energy_etl.py:107-123 | a successful walk gives exactly one row per Point of the document |
| LoadDocument.Flatten | scripts/energy_etl.py:107-123 | `data_filtered` after the walk; specified by `FlattenCount`, `FlattenAppend`, `FlattenOnePeriod` and `PointRowsAt` |
| LoadDocument.FlattenPoints | scripts/energy_etl.py:115-123 | the Point loop gives the Period's rows, or nothing at the first unreadable Point |
| LoadDocument.FlattenPeriods | scripts/energy_etl.py:111-123 | the Period loop gives the rows of the Periods, or nothing at the first Period without a start or with an unreadable Point |
| LoadDocument.FlattenDocument | scripts/energy_etl.py:107-123 | the TimeSeries loop computes `Flatten`: all rows in document order, or nothing when the walk raises |
| LoadFetch.FetchLoadData | scripts/energy_etl.py:74-132 | one request with A65, A16, the SE1 domain, the 24-hour window and the token; rows are saved exactly when the status is 200, the text has no acknowledgement marker at any index, the XML walk succeeds and yields at least one row, and then they are all the document's rows |

## Left out

- HTTP, JSON and XML parsing, BigQuery and `.env` are parameters or are not
  modelled. The model has no network; it has the `Server` and `LoadServer`
  functions. A parsed JSON body is a list of items whose keys are present or
  absent. A parsed XML body is a tree of TimeSeries, Periods and Points; a
  missing element or unreadable text is `None`.
- `save_to_bigquery` is not part of this model. It adds the `load_timestamp`
  column, creates the table and loads the frame. The model records each frame
  handed to it. A failure in its `try` block is caught there. A failure
  before that block, in `bigquery.Client()`, the `load_timestamp` assignment
  or (in `energy_etl.py`) `pd.to_datetime`, reaches the handler of
  `fetch_data`. In `fillup.py` that handler is followed by the `break`. In
  either case nothing else that `fetch_data` does changes.
- `time.sleep` and `print` are left out: they do not change what is
  requested or saved.
- The wall clock is a parameter. In `energy_etl.py` it is read once at
  import. In `fillup.py` it is read once when `fetch_data` starts. In both,
  `save_to_bigquery` also reads it for the `load_timestamp` of every frame;
  that column is left out with the loader.
- The XML tree is abstracted. The namespace test and the `.//` descendant
  search are replaced by TimeSeries and Periods listed in document order.
- An empty `timeInterval/start` element, whose text Python reads as `None`,
  is not distinguished from a missing element.
- For an acknowledgement, the `Reason/text` is only printed, so the model
  keeps only the fact that nothing is saved.
- Prices and quantities are mathematical reals, not IEEE doubles.
  - `DailyAverage.Mean` is the exact quotient. pandas' floating-point mean
    can differ in the last bits.
  - `float(quantity)` is taken as already parsed: `Point.quantity` is the
    number or `None`.
- `pd.to_datetime` of `time_start` is taken as already parsed into the local
  date-time and its UTC offset; an unparseable text is `None`. With one
  offset for all items, the row's date is the date written in the
  timestamp, as `.dt.date` gives. Mixed offsets save nothing, as in the
  source with pandas 2, where `.dt` raises; pandas 3 raises earlier, with the
  same outcome.
- Text.ParseInt: accepts only an optional sign followed by ASCII digits.
  Python's `int` also accepts surrounding whitespace, underscores between
  digits and non-ASCII digits.
- Calendar.NextDay: years have no upper bound. Python's `datetime` raises
  `OverflowError` after 9999-12-31. The backfill never reaches that date
  from a real clock.
- LoadWindow.QueryWindowSpansOneDay: the twelve-character shape is proved
  only for years 1001 to 9999. Before year 1000, `%Y` gives fewer digits.
  Python's `datetime` has no year after 9999; the model's unbounded years
  would give more digits there.
- PriceFetch.FetchData: the effect records the URLs requested, not the
  response objects. Which response arrives at each attempt is up to the
  `Server` parameter.
