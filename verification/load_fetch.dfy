/** `fetch_data` of `energy_etl.py`: one request for the realised total load
    of bidding zone SE1 over the last 24 hours, and the decision whether the
    answer yields rows to save. */
module LoadFetch {
  import opened Wrappers
  import opened Text
  import opened Calendar
  import opened LoadWindow
  import opened LoadDocument

  const ApiUrl := "https://web-api.tp.entsoe.eu/api"
  /** Document type A65 ("System total load"). */
  const TotalLoad := "A65"
  /** Process type A16 ("Realised"). */
  const Realised := "A16"
  /** The root tag of the document the API sends instead of data. */
  const AckMarker := "Acknowledgement_MarketDocument"

  /** The URL and query parameters of the request. */
  datatype LoadRequest = LoadRequest(
    url: string, documentType: string, processType: string,
    outBiddingZoneDomain: string, periodStart: string, periodEnd: string,
    securityToken: string)

  /** What the request gives back: a status, the body text and the body
      parsed as a load document (`None` when the XML cannot be parsed), or an
      exception raised by the HTTP call. */
  datatype LoadResponse = LoadResponse(status: int, text: string, doc: Option<LoadDoc>) | LoadRaised

  /** The ENTSO-E API, as seen by this program. */
  type LoadServer = LoadRequest -> LoadResponse

  /** Sends the one request and returns it with the rows handed to
      `save_to_bigquery`, or `None` when nothing is saved. */
  method FetchLoadData(server: LoadServer, now: DateTime, token: string)
    returns (request: LoadRequest, saved: Option<seq<LoadRow>>)
    requires ValidDateTime(now) && now.date != FirstDate
    ensures request == LoadRequest(ApiUrl, TotalLoad, Realised, ZoneCode,
      QueryWindow(now).periodStart, QueryWindow(now).periodEnd, token)
    ensures var resp := server(request);
      saved.Some? <==>
        resp.LoadResponse? && resp.status == 200
        && !(exists i: nat :: OccursAt(resp.text, AckMarker, i))
        && resp.doc.Some? && Flatten(resp.doc.value).Some? && Flatten(resp.doc.value).value != []
    ensures saved.Some? ==> saved.value == Flatten(server(request).doc.value).value
  {
    var window := QueryWindow(now);
    request := LoadRequest(ApiUrl, TotalLoad, Realised, ZoneCode,
      window.periodStart, window.periodEnd, token);
    var response := server(request);
    saved := None;
    if response.LoadRaised? || response.status != 200 {
      return;
    }
    ContainsIff(response.text, AckMarker);
    if Contains(response.text, AckMarker) {
      // The reason is read from the acknowledgement and only reported.
      return;
    }
    if response.doc.None? {
      return;
    }
    var rows := FlattenDocument(response.doc.value);
    if rows.Some? && rows.value != [] {
      saved := rows;
    }
  }
}
