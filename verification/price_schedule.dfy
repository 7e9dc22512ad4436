/** The requests `fillup.py` issues: one per day and Swedish price zone, to a
    URL built from the date and the zone. */
module PriceSchedule {
  import opened Wrappers
  import opened Text
  import opened Calendar

  /** The four Swedish bidding zones. */
  datatype Zone = SE1 | SE2 | SE3 | SE4

  /** The zones in the order the script visits them within a day. */
  const Zones: seq<Zone> := [SE1, SE2, SE3, SE4]

  function ZoneName(z: Zone): (s: string)
    ensures |s| == 3
  {
    match z
    case SE1 => "SE1"
    case SE2 => "SE2"
    case SE3 => "SE3"
    case SE4 => "SE4"
  }

  function ZoneFromName(s: string): (r: Option<Zone>)
    ensures r.Some? ==> ZoneName(r.value) == s
  {
    if s == "SE1" then Some(SE1)
    else if s == "SE2" then Some(SE2)
    else if s == "SE3" then Some(SE3)
    else if s == "SE4" then Some(SE4)
    else None
  }

  const UrlPrefix := "https://www.elprisetjustnu.se/api/v1/prices/"

  /** `url.format(year, month, day, zone)` with the template
      `.../prices/{}/{:02d}-{:02d}_{}.json`. */
  function Url(d: Date, z: Zone): string
    requires Valid(d)
  {
    UrlPrefix + DatePath(d, z)
  }

  /** `{year}/{MM}-{DD}_{zone}.json`. */
  function DatePath(d: Date, z: Zone): string
    requires Valid(d)
  {
    DecimalDigits(d.year) + "/" + FileName(d, z)
  }

  /** Reads a price URL back into its date and zone: the year up to the
      first `/`, then exactly `MM-DD_ZZZ.json`. */
  function ParseUrl(u: string): Option<(Date, Zone)>
  {
    if |u| < |UrlPrefix| || u[..|UrlPrefix|] != UrlPrefix then None
    else ParseDatePath(u[|UrlPrefix|..])
  }

  function ParseDatePath(rest: string): Option<(Date, Zone)>
  {
    var k := IndexOf(rest, '/');
    if k == |rest| || k == 0 || !AllDigits(rest[..k]) then None
    else ParseFileName(ParseDigits(rest[..k]), rest[k + 1..])
  }

  function ParseFileName(year: nat, tail: string): Option<(Date, Zone)>
  {
    if |tail| != 14 || !AllDigits(tail[..2]) || tail[2] != '-' || !AllDigits(tail[3..5])
       || tail[5] != '_' || tail[9..] != ".json" then None
    else
      match ZoneFromName(tail[6..9])
      case None => None
      case Some(z) =>
        var d := Date(year, ParseDigits(tail[..2]), ParseDigits(tail[3..5]));
        if Valid(d) then Some((d, z)) else None
  }

  function FileName(d: Date, z: Zone): string
    requires Valid(d)
  {
    Pad2(d.month) + "-" + Pad2(d.day) + "_" + ZoneName(z) + ".json"
  }

  lemma ParseFileNameOf(d: Date, z: Zone)
    requires Valid(d)
    ensures ParseFileName(d.year, FileName(d, z)) == Some((d, z))
  {
    var m, dd, zn := Pad2(d.month), Pad2(d.day), ZoneName(z);
    var tail := FileName(d, z);
    assert tail[..2] == m && tail[3..5] == dd && tail[6..9] == zn && tail[9..] == ".json";
    ParsePad2(d.month);
    ParsePad2(d.day);
  }

  lemma ParseDatePathOf(d: Date, z: Zone)
    requires Valid(d)
    ensures ParseDatePath(DatePath(d, z)) == Some((d, z))
  {
    var y, tail := DecimalDigits(d.year), FileName(d, z);
    var rest := DatePath(d, z);
    var k := IndexOf(rest, '/');
    assert rest[|y|] == '/';
    assert k == |y|;
    assert rest[..k] == y && rest[k + 1..] == tail;
    ParseDecimalDigits(d.year);
    ParseFileNameOf(d, z);
  }

  /** The URL of a day and zone determines the day and the zone: the year
      is written out in full and month and day take exactly two digits. */
  lemma UrlRoundTrip(d: Date, z: Zone)
    requires Valid(d)
    ensures ParseUrl(Url(d, z)) == Some((d, z))
  {
    var rest := DatePath(d, z);
    var u := Url(d, z);
    assert u[..|UrlPrefix|] == UrlPrefix && u[|UrlPrefix|..] == rest;
    ParseDatePathOf(d, z);
  }

  /** Distinct (day, zone) pairs are fetched from distinct URLs. */
  lemma UrlInjective(d1: Date, z1: Zone, d2: Date, z2: Zone)
    requires Valid(d1) && Valid(d2)
    requires Url(d1, z1) == Url(d2, z2)
    ensures d1 == d2 && z1 == z2
  {
    UrlRoundTrip(d1, z1);
    UrlRoundTrip(d2, z2);
  }

  datatype Request = Request(date: Date, zone: Zone, url: string)

  function RequestFor(d: Date, z: Zone): Request
    requires Valid(d)
  {
    Request(d, z, Url(d, z))
  }

  /** The requests of one day: the zones in order. */
  function DayRequests(d: Date): (reqs: seq<Request>)
    requires Valid(d)
    ensures |reqs| == |Zones| && forall i :: 0 <= i < |Zones| ==> reqs[i] == RequestFor(d, Zones[i])
  {
    [RequestFor(d, SE1), RequestFor(d, SE2), RequestFor(d, SE3), RequestFor(d, SE4)]
  }

  predicate AllValid(days: seq<Date>)
  {
    forall i :: 0 <= i < |days| ==> Valid(days[i])
  }

  /** The requests of a sequence of days, day by day. */
  function Schedule(days: seq<Date>): seq<Request>
    requires AllValid(days)
  {
    if days == [] then [] else Schedule(days[..|days| - 1]) + DayRequests(days[|days| - 1])
  }

  lemma ScheduleAppend(days: seq<Date>, d: Date)
    requires AllValid(days) && Valid(d)
    ensures AllValid(days + [d])
    ensures Schedule(days + [d]) == Schedule(days) + DayRequests(d)
  {
    assert (days + [d])[..|days|] == days;
  }

  /** The schedule holds four requests per day, date-major: request `i`
      is for day `i / 4` and for the zone at `i % 4` of SE1, SE2, SE3, SE4. */
  lemma {:induction false} ScheduleAt(days: seq<Date>)
    requires AllValid(days)
    ensures |Schedule(days)| == 4 * |days|
    ensures forall i :: 0 <= i < |Schedule(days)| ==>
      Schedule(days)[i] == RequestFor(days[i / 4], Zones[i % 4])
  {
    if days != [] {
      var init := days[..|days| - 1];
      ScheduleAt(init);
      var s := Schedule(days);
      assert s == Schedule(init) + DayRequests(days[|days| - 1]);
      forall i | 0 <= i < |s|
        ensures s[i] == RequestFor(days[i / 4], Zones[i % 4])
      {
        if i < 4 * |init| {
          assert s[i] == Schedule(init)[i];
          assert days[i / 4] == init[i / 4];
        } else {
          assert i / 4 == |init|;
        }
      }
    }
  }
}
