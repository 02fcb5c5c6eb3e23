/** The two search-analytics queries of the daily job and the normalisation
    of their responses into defaulted records (`queryTotals`, `queryTop`).
    The analytics service itself is a function value supplied by the caller. */
module SearchAnalytics {
  import opened Wrappers

  /** One result row as the service returns it; any field may be missing. */
  datatype ApiRow = ApiRow(
    keys: Option<seq<string>>,
    clicks: Option<nat>,
    impressions: Option<nat>,
    ctr: Option<real>,
    position: Option<real>)

  datatype ResponseData = ResponseData(rows: Option<seq<ApiRow>>)

  /** A query response; `data` and `data.rows` may both be missing. */
  datatype Response = Response(data: Option<ResponseData>)

  /** Whole-property aggregate for the date range. */
  datatype Totals = Totals(clicks: nat, impressions: nat, ctr: real, position: real)

  /** One ranked row of a top-N breakdown. */
  datatype Row = Row(key: string, clicks: nat, impressions: nat, ctr: real, position: real)

  const UnknownKey := "(unknown)"
  const ZeroTotals := Totals(0, 0, 0.0, 0.0)

  /** The parsed service-account credential the client authenticates with. */
  datatype Credential = Credential(clientEmail: Option<string>, privateKey: Option<string>)

  /** The request body of one query: a site, a date range, optional grouping
      dimensions and an optional row limit. */
  datatype Request = Request(
    siteUrl: string,
    startDate: string,
    endDate: string,
    dimensions: seq<string>,
    rowLimit: Option<nat>)

  /** The analytics service: answers a request or fails with a message. */
  type SearchApi = (Credential, Request) -> Result<Response>

  /** `resp?.data?.rows`. */
  function ResponseRows(resp: Response): Option<seq<ApiRow>>
  {
    match resp.data
    case None => None
    case Some(data) => data.rows
  }

  /** `resp?.data?.rows ?? []`. */
  function ReturnedRows(resp: Response): seq<ApiRow>
  {
    ResponseRows(resp).GetOr([])
  }

  /** Totals from `resp?.data?.rows?.[0]`: a missing row or field reads as 0. */
  function TotalsOf(resp: Response): (t: Totals)
    ensures ReturnedRows(resp) == [] ==> t == ZeroTotals
    ensures ReturnedRows(resp) != [] ==>
      var row := ReturnedRows(resp)[0];
      && t.clicks == row.clicks.GetOr(0)
      && t.impressions == row.impressions.GetOr(0)
      && t.ctr == row.ctr.GetOr(0.0)
      && t.position == row.position.GetOr(0.0)
  {
    var rows := ReturnedRows(resp);
    if |rows| == 0 then ZeroTotals
    else Totals(rows[0].clicks.GetOr(0), rows[0].impressions.GetOr(0),
                rows[0].ctr.GetOr(0.0), rows[0].position.GetOr(0.0))
  }

  /** `r.keys?.[0] ?? "(unknown)"`: a missing or empty key list gives the
      placeholder; a present key, even an empty string, is kept. */
  function KeyOf(r: ApiRow): (key: string)
    ensures (r.keys.None? || r.keys.value == []) ==> key == UnknownKey
    ensures r.keys.Some? && r.keys.value != [] ==> key == r.keys.value[0]
  {
    match r.keys
    case None => UnknownKey
    case Some(ks) => if |ks| == 0 then UnknownKey else ks[0]
  }

  /** The record built for each returned row. */
  function RowOf(r: ApiRow): (row: Row)
    ensures row.key == KeyOf(r)
    ensures row.clicks == r.clicks.GetOr(0) && row.impressions == r.impressions.GetOr(0)
    ensures row.ctr == r.ctr.GetOr(0.0) && row.position == r.position.GetOr(0.0)
  {
    Row(KeyOf(r), r.clicks.GetOr(0), r.impressions.GetOr(0), r.ctr.GetOr(0.0), r.position.GetOr(0.0))
  }

  /** The `map` of `queryTop`: one record per returned row, in order, and no
      record at all when the rows are missing. */
  function TopOf(resp: Response): (rows: seq<Row>)
    ensures |rows| == |ReturnedRows(resp)|
    ensures ResponseRows(resp).None? ==> rows == []
    ensures forall i :: 0 <= i < |rows| ==> rows[i] == RowOf(ReturnedRows(resp)[i])
  {
    var raw := ReturnedRows(resp);
    seq(|raw|, i requires 0 <= i < |raw| => RowOf(raw[i]))
  }

  /** A complete row, as the service would send it for a record. */
  function Complete(row: Row): ApiRow
  {
    ApiRow(Some([row.key]), Some(row.clicks), Some(row.impressions), Some(row.ctr), Some(row.position))
  }

  /** Normalisation changes nothing that the service sent: complete rows come
      through unchanged and in order. */
  lemma TopOfComplete(rows: seq<Row>)
    ensures TopOf(Response(Some(ResponseData(Some(seq(|rows|, i requires 0 <= i < |rows| => Complete(rows[i]))))))) == rows
  {
  }

  lemma TotalsOfComplete(t: Totals, rest: seq<ApiRow>)
    ensures TotalsOf(Response(Some(ResponseData(Some(
      [ApiRow(None, Some(t.clicks), Some(t.impressions), Some(t.ctr), Some(t.position))] + rest))))) == t
  {
  }

  /** The request of `queryTotals`: no dimensions and no row limit. */
  function TotalsRequest(siteUrl: string, startDate: string, endDate: string): Request
  {
    Request(siteUrl, startDate, endDate, [], None)
  }

  /** The request of `queryTop`: one dimension and a row limit. */
  function TopRequest(siteUrl: string, startDate: string, endDate: string, dimension: string, limit: nat): Request
  {
    Request(siteUrl, startDate, endDate, [dimension], Some(limit))
  }

  /** `queryTotals`: a failed query propagates its error. */
  function QueryTotals(api: SearchApi, cred: Credential, siteUrl: string, startDate: string, endDate: string): (r: Result<Totals>)
    ensures api(cred, TotalsRequest(siteUrl, startDate, endDate)).Err? ==>
      r == Err(api(cred, TotalsRequest(siteUrl, startDate, endDate)).message)
    ensures api(cred, TotalsRequest(siteUrl, startDate, endDate)).Ok? ==>
      r == Ok(TotalsOf(api(cred, TotalsRequest(siteUrl, startDate, endDate)).value))
  {
    match api(cred, TotalsRequest(siteUrl, startDate, endDate))
    case Err(e) => Err(e)
    case Ok(resp) => Ok(TotalsOf(resp))
  }

  /** `queryTop`: a failed query propagates its error. */
  function QueryTop(api: SearchApi, cred: Credential, siteUrl: string, startDate: string, endDate: string,
                    dimension: string, limit: nat): (r: Result<seq<Row>>)
    ensures api(cred, TopRequest(siteUrl, startDate, endDate, dimension, limit)).Err? ==>
      r == Err(api(cred, TopRequest(siteUrl, startDate, endDate, dimension, limit)).message)
    ensures api(cred, TopRequest(siteUrl, startDate, endDate, dimension, limit)).Ok? ==>
      r == Ok(TopOf(api(cred, TopRequest(siteUrl, startDate, endDate, dimension, limit)).value))
  {
    match api(cred, TopRequest(siteUrl, startDate, endDate, dimension, limit))
    case Err(e) => Err(e)
    case Ok(resp) => Ok(TopOf(resp))
  }
}
