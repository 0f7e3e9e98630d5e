/**
 * The `DeezerAPI` client: the last result list `tracks`, the last non-blank
 * query `currentQuery`, and the three operations that read and overwrite
 * them. The network is taken out: each operation is given the value that
 * `fetch` followed by `response.json()` produced, and returns the request it
 * would have sent, if any.
 */
module DeezerApi {
  import opened Wrappers
  import opened JsText
  import opened Tracks

  /** The JSON body of a successful transfer. */
  datatype Payload =
    | TrackList(data: seq<RawTrack>)  // `{ data: [...] }`
    | SingleTrack(track: RawTrack)    // one track object at top level

  /** What one `fetch` + `response.json()` yields. */
  datatype Response =
    | TransportFailure                        // fetch rejected, or the body is not JSON
    | ProviderError(message: Option<string>)  // `{ error: { message? } }`
    | Ok(payload: Payload)

  /** The endpoints: `/search?q=`, `/chart/0/tracks`, `/track/{id}`. */
  datatype Request = SearchRequest(query: string) | ChartRequest | TrackRequest(id: TrackId)

  /**
   * The list the search and chart endpoints yield, or `None` where the
   * JavaScript ends in its `catch`: a failed transfer, a provider error, a
   * body without a `data` array, or an element whose mapping throws.
   */
  function ListResult(response: Response): (r: Option<seq<Track>>)
    ensures r.Some? <==> response.Ok? && response.payload.TrackList?
                         && forall i | 0 <= i < |response.payload.data| :: WellFormed(response.payload.data[i])
    ensures r.Some? ==> |r.value| == |response.payload.data|
    ensures r.Some? ==> forall i | 0 <= i < |r.value| :: Normalize(response.payload.data[i]) == Some(r.value[i])
  {
    match response
    case Ok(TrackList(data)) => NormalizeAll(data)
    case _ => None
  }

  /**
   * The record the single-track endpoint yields, or `None` (`null`) on a
   * failed transfer, a provider error, or a body that is not one well-formed track.
   */
  function TrackResult(response: Response): (r: Option<Track>)
    ensures r.Some? <==> response.Ok? && response.payload.SingleTrack? && WellFormed(response.payload.track)
    ensures r.Some? ==> Normalize(response.payload.track) == r
  {
    match response
    case Ok(SingleTrack(raw)) => Normalize(raw)
    case _ => None
  }

  /** `!query || query.trim() === ''`; `None` stands for an absent query. */
  predicate IsBlankQuery(query: Option<string>)
    ensures IsBlankQuery(query) <==> query.None? || AllWhitespace(query.value)
  {
    query.None? || Trim(query.value) == []
  }

  /** Index of the first track whose id is `id` (`Array.prototype.find` with `===`). */
  function FirstWithId(ts: seq<Track>, id: TrackId): (r: Option<nat>)
    ensures r.None? <==> forall j | 0 <= j < |ts| :: ts[j].id != id
    ensures r.Some? ==> r.value < |ts| && ts[r.value].id == id
    ensures r.Some? ==> forall j | 0 <= j < r.value :: ts[j].id != id
    decreases |ts|
  {
    if ts == [] then None
    else if ts[0].id == id then Some(0)
    else
      match FirstWithId(ts[1..], id)
      case Some(k) =>
        assert forall j | 1 <= j < |ts| :: ts[j] == ts[1..][j - 1];
        Some(k + 1)
      case None =>
        assert forall j | 1 <= j < |ts| :: ts[j] == ts[1..][j - 1];
        None
  }

  class DeezerAPI {
    var tracks: seq<Track>
    var currentQuery: string

    constructor ()
      ensures tracks == [] && currentQuery == []
    {
      tracks := [];
      currentQuery := [];
    }

    /**
     * The chart: on success `tracks` becomes the normalised list and that list
     * is returned; otherwise `[]` is returned and `tracks` is kept.
     */
    method GetTopTracks(response: Response) returns (result: seq<Track>, sent: Request)
      modifies this
      ensures sent == ChartRequest
      ensures currentQuery == old(currentQuery)
      ensures ListResult(response).Some? ==> result == ListResult(response).value && tracks == result
      ensures ListResult(response).None? ==> result == [] && tracks == old(tracks)
    {
      sent := ChartRequest;
      var list := ListResult(response);
      if list.Some? {
        tracks := list.value;
        result := tracks;
      } else {
        result := [];
      }
    }

    /**
     * A blank query is answered by the chart and leaves `currentQuery` alone;
     * any other query is stored in `currentQuery` before the request, so also
     * when the request then fails. Success and failure as for the chart.
     */
    method SearchTracks(query: Option<string>, response: Response) returns (result: seq<Track>, sent: Request)
      modifies this
      ensures IsBlankQuery(query) ==> sent == ChartRequest && currentQuery == old(currentQuery)
      ensures !IsBlankQuery(query) ==> sent == SearchRequest(query.value) && currentQuery == query.value
      ensures ListResult(response).Some? ==> result == ListResult(response).value && tracks == result
      ensures ListResult(response).None? ==> result == [] && tracks == old(tracks)
    {
      if IsBlankQuery(query) {
        result, sent := GetTopTracks(response);
        return;
      }
      currentQuery := query.value;
      sent := SearchRequest(query.value);
      var list := ListResult(response);
      if list.Some? {
        tracks := list.value;
        result := tracks;
      } else {
        result := [];
      }
    }

    /**
     * The first track in `tracks` with this id, with no request sent; when
     * there is none, the single-track request is sent and its record, or
     * `None`, returned. Neither field changes.
     */
    method GetTrackById(id: TrackId, response: Response) returns (result: Option<Track>, sent: Option<Request>)
      ensures FirstWithId(tracks, id).Some? ==>
                sent == None && result == Some(tracks[FirstWithId(tracks, id).value])
      ensures FirstWithId(tracks, id).None? ==>
                sent == Some(TrackRequest(id)) && result == TrackResult(response)
    {
      var i := 0;
      while i < |tracks|
        invariant 0 <= i <= |tracks|
        invariant forall j | 0 <= j < i :: tracks[j].id != id
      {
        if tracks[i].id == id {
          return Some(tracks[i]), None;
        }
        i := i + 1;
      }
      sent := Some(TrackRequest(id));
      result := TrackResult(response);
    }
  }

  /** A blank search and a chart request on two clients in the same state send the same request and end alike. */
  method BlankSearchIsTopTracks(a: DeezerAPI, b: DeezerAPI, query: Option<string>, response: Response)
    returns (searched: seq<Track>, top: seq<Track>, sentA: Request, sentB: Request)
    requires a != b && IsBlankQuery(query)
    requires a.tracks == b.tracks && a.currentQuery == b.currentQuery
    modifies a, b
    ensures searched == top && sentA == sentB
    ensures a.tracks == b.tracks && a.currentQuery == b.currentQuery
  {
    searched, sentA := a.SearchTracks(query, response);
    top, sentB := b.GetTopTracks(response);
  }

  /** The one-track search body `{data: [{id: 1, title: "A", ...}]}` and its record. */
  function ExampleRaw(): RawTrack {
    RawTrack(NumId(1), "A", Some(RawArtist("B")), 125, Some(RawAlbum(Some("x.jpg"))), Some("p.mp3"))
  }

  lemma ExampleListResult()
    ensures ListResult(Ok(TrackList([ExampleRaw()]))) == Some([Track(NumId(1), "A", "B", "2:05", "x.jpg", Some("p.mp3"))])
  {
    var expected := Track(NumId(1), "A", "B", "2:05", "x.jpg", Some("p.mp3"));
    Duration.FormatDurationExamples();
    assert Normalize(ExampleRaw()) == Some(expected);
    var normalized := NormalizeAll([ExampleRaw()]);
    assert [ExampleRaw()][0] == ExampleRaw();
    assert normalized.Some? && normalized.value[0] == expected;
    assert |normalized.value| == 1;
    assert normalized.value == [expected];
  }

  /**
   * A fresh client searching "a", given that body, returns the record, and a
   * lookup of id 1 afterwards is served from `tracks` with no request sent.
   */
  method SearchThenLookup() returns (found: seq<Track>, looked: Option<Track>, sent: Option<Request>)
    ensures found == [Track(NumId(1), "A", "B", "2:05", "x.jpg", Some("p.mp3"))]
    ensures looked == Some(found[0]) && sent == None
  {
    var client := new DeezerAPI();
    var request;
    ExampleListResult();
    assert "a"[0] == 'a' && !IsJsWhitespace('a');
    found, request := client.SearchTracks(Some("a"), Ok(TrackList([ExampleRaw()])));
    looked, sent := client.GetTrackById(NumId(1), TransportFailure);
  }
}
