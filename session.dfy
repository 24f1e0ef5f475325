/**
 * One rover-photo round trip through both tiers: the user picks a date,
 * the client asks the gateway, the gateway validates and (maybe) asks the
 * provider, and the client applies the reply. This is where the gateway's
 * opaque JSON body meets the client's typed `RoverPhoto` records.
 */
module Session {
  import opened Wrappers
  import opened JsonValues
  import Gateway
  import opened Explorer

  /** A photo as the provider lists it; the client reads only `id` and `img_src`. */
  function PhotoJson(p: RoverPhoto): Json
  {
    Obj([("id", Num(p.id)), ("img_src", Str(p.imgSrc))])
  }

  /** The provider's rover-photos body for a batch: `{ photos: [...] }`. */
  function ProviderPhotosBody(ps: seq<RoverPhoto>): (body: Json)
    ensures body.Obj? && Member(body, "photos").Some?
    ensures Member(body, "photos").value.Arr? && |Member(body, "photos").value.items| == |ps|
  {
    Obj([("photos", Arr(seq(|ps|, i requires 0 <= i < |ps| => PhotoJson(ps[i]))))])
  }

  function DecodePhoto(j: Json): Option<RoverPhoto>
  {
    match (Member(j, "id"), Member(j, "img_src"))
    case (Some(Num(id)), Some(Str(src))) => Some(RoverPhoto(id, src))
    case _ => None
  }

  /** The photo records of a JSON array, or None if any element lacks them. */
  function DecodePhotos(items: seq<Json>): (r: Option<seq<RoverPhoto>>)
    ensures r.Some? ==> |r.value| == |items|
  {
    if items == [] then Some([])
    else
      match (DecodePhoto(items[0]), DecodePhotos(items[1..]))
      case (Some(p), Some(ps)) => Some([p] + ps)
      case _ => None
  }

  /** `response.data.photos` read as typed records. */
  function PhotosOf(body: Json): Option<seq<RoverPhoto>>
  {
    match Member(body, "photos")
    case Some(Arr(items)) => DecodePhotos(items)
    case _ => None
  }

  lemma DecodePhotoJson(p: RoverPhoto)
    ensures DecodePhoto(PhotoJson(p)) == Some(p)
  {
    var fields := [("id", Num(p.id)), ("img_src", Str(p.imgSrc))];
    assert fields[..1] == [("id", Num(p.id))];
    assert Lookup(fields, "img_src") == Some(Str(p.imgSrc));
    assert Lookup(fields, "id") == Lookup(fields[..1], "id");
  }

  lemma {:induction false} DecodeEncodedPhotos(ps: seq<RoverPhoto>)
    ensures DecodePhotos(seq(|ps|, i requires 0 <= i < |ps| => PhotoJson(ps[i]))) == Some(ps)
  {
    var items := seq(|ps|, i requires 0 <= i < |ps| => PhotoJson(ps[i]));
    if ps != [] {
      var tail := seq(|ps| - 1, i requires 0 <= i < |ps| - 1 => PhotoJson(ps[1..][i]));
      assert items[1..] == tail;
      DecodeEncodedPhotos(ps[1..]);
      DecodePhotoJson(ps[0]);
      assert items[0] == PhotoJson(ps[0]);
      assert [ps[0]] + ps[1..] == ps;
    }
  }

  /** The client reads back exactly the batch the provider listed, in order. */
  lemma PhotosRoundTrip(ps: seq<RoverPhoto>)
    ensures PhotosOf(ProviderPhotosBody(ps)) == Some(ps)
  {
    DecodeEncodedPhotos(ps);
  }

  /**
   * The client event a gateway reply becomes. axios resolves a 2xx reply
   * and rejects any other status; a 2xx body without a readable photo list
   * is not modelled (None).
   */
  function CompletionFor(resp: Gateway.Response): (e: Option<Event>)
    ensures e.Some? ==> IsPhotosCompletion(e.value)
    ensures !(200 <= resp.status < 300) ==> e == Some(PhotosFail)
    ensures 200 <= resp.status < 300 ==>
      (e.Some? <==> PhotosOf(resp.body).Some?) &&
      (e.Some? ==> e.value == PhotosOk(PhotosOf(resp.body).value))
  {
    if 200 <= resp.status < 300 then
      match PhotosOf(resp.body)
      case Some(ps) => Some(PhotosOk(ps))
      case None => None
    else Some(PhotosFail)
  }

  /** Characters that pass unchanged through the query string the client
      builds (App.js interpolates the date without encoding it). */
  predicate UrlSafe(d: string)
  {
    forall i :: 0 <= i < |d| ==> ('0' <= d[i] <= '9') || ('a' <= d[i] <= 'z') || ('A' <= d[i] <= 'Z') || d[i] == '-'
  }

  /** The gateway request for `GET /mars-rover-photos?earth_date=d`. */
  function PhotosRequest(d: string): Gateway.Request
  {
    Gateway.Request("/mars-rover-photos", Some(d))
  }

  lemma CompletionKeepsDateAndRecord(s: ViewState, e: Event)
    requires IsPhotosCompletion(e)
    ensures var t := Apply(s, e); t.earthDate == s.earthDate && t.apodData == s.apodData && !t.loading
  {
    if e.PhotosOk? {
      PhotosOkEffect(s, e.photos);
    } else {
      PhotosFailEffect(s);
    }
  }

  /** The user picks `d`; the reply arrives before anything else happens. */
  function PickDate(s: ViewState, d: string, outcome: Gateway.Upstream): (r: (Option<ViewState>, Gateway.Exchange))
    requires UrlSafe(d)
    ensures r.1 == Gateway.Handle(PhotosRequest(d), outcome)
    ensures r.0.Some? ==> r.0.value.earthDate == d && !r.0.value.loading && r.0.value.apodData == s.apodData
    ensures r.0.None? ==> 200 <= r.1.response.status < 300 && PhotosOf(r.1.response.body).None?
    ensures r.0.Some? ==>
      CompletionFor(r.1.response).Some? &&
      r.0.value == Apply(Apply(s, DateChange(d)), CompletionFor(r.1.response).value)
  {
    var x := Gateway.Handle(PhotosRequest(d), outcome);
    DateChangeEffect(s, d);
    match CompletionFor(x.response)
    case Some(e) =>
      CompletionKeepsDateAndRecord(Apply(s, DateChange(d)), e);
      (Some(Apply(Apply(s, DateChange(d)), e)), x)
    case None => (None, x)
  }

  lemma PhotosRouteMatches()
    ensures Gateway.RouteOf("/mars-rover-photos") == Gateway.MarsRoverPhotosRoute
  {
    Gateway.RoutingExamples();
  }

  /** A cleared or malformed date never reaches the provider and ends with
      the client's failure message, the spinner off and the old photos kept. */
  lemma MalformedDateShowsFailure(s: ViewState, d: string, outcome: Gateway.Upstream)
    requires UrlSafe(d) && !Gateway.IsDateShaped(d)
    ensures PickDate(s, d, outcome).1.call.None?
    ensures PickDate(s, d, outcome).0 ==
      Some(s.(earthDate := d, loading := false, error := Some(PhotosFailedMessage)))
  {
    PhotosRouteMatches();
    DateChangeEffect(s, d);
    PhotosFailEffect(Apply(s, DateChange(d)));
  }

  /** A well-formed date whose provider call fails: the same failure
      message, after exactly one provider call for that date. */
  lemma UpstreamFailureShowsFailure(s: ViewState, d: string, cause: string)
    requires Gateway.IsDateShaped(d)
    ensures PickDate(s, d, Gateway.Failure(cause)).1.call == Some(Gateway.RoverPhotosResource(d))
    ensures PickDate(s, d, Gateway.Failure(cause)).0 ==
      Some(s.(earthDate := d, loading := false, error := Some(PhotosFailedMessage)))
  {
    PhotosRouteMatches();
    DateChangeEffect(s, d);
    PhotosFailEffect(Apply(s, DateChange(d)));
  }

  /** A day without photos: the spinner is off, the "no photos" notice is
      shown and the count is 0. */
  lemma EmptyDayShowsNotice(s: ViewState, d: string)
    requires Gateway.IsDateShaped(d)
    ensures var r := PickDate(s, d, Gateway.Success(ProviderPhotosBody([]))).0;
            r.Some? && !r.value.loading && r.value.error == Some(NoPhotosMessage) &&
            PhotoCount(r.value) == 0 && r.value.earthDate == d
  {
    PhotosRouteMatches();
    PhotosRoundTrip([]);
    DateChangeEffect(s, d);
    PhotosOkEffect(Apply(s, DateChange(d)), []);
  }

  /** A non-empty day: the provider's photos are shown in provider order,
      with no message and the spinner off. */
  lemma PhotosShownInOrder(s: ViewState, d: string, ps: seq<RoverPhoto>)
    requires Gateway.IsDateShaped(d) && |ps| > 0
    ensures var r := PickDate(s, d, Gateway.Success(ProviderPhotosBody(ps))).0;
            r.Some? && r.value.marsPhotos == ps && r.value.error.None? && !r.value.loading &&
            PhotoCount(r.value) == |ps|
  {
    PhotosRouteMatches();
    PhotosRoundTrip(ps);
    DateChangeEffect(s, d);
    PhotosOkEffect(Apply(s, DateChange(d)), ps);
  }
}
