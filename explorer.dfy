/**
 * The browser client (App.js): the rover-photo state machine, the
 * daily-image (APOD) fetch and the metadata badges derived from it.
 *
 * Each React state cell of the component is a field of class `App`; every
 * handler performs the same setter calls, in the same order, as App.js.
 * The value-level specification is `ViewState`, `Apply` and `Replay`:
 * an event handler is the sequence of cell writes it performs.
 */
module Explorer {
  import opened Wrappers

  // ---------------------------------------------------------------------
  // Data
  // ---------------------------------------------------------------------

  /** The fields of the daily-image record the client reads. */
  datatype ApodRecord = ApodRecord(
    title: string,
    url: string,
    explanation: string,
    hdurl: Option<string>,
    copyright: Option<string>,
    mediaType: string)

  datatype RoverPhoto = RoverPhoto(id: int, imgSrc: string)

  const InitialEarthDate := "2023-10-01"
  const NoPhotosMessage := "No photos available for this date."
  const PhotosFailedMessage := "Failed to fetch Mars Rover photos."

  /** The five `useState` cells of the component. */
  datatype ViewState = ViewState(
    apodData: Option<ApodRecord>,
    marsPhotos: seq<RoverPhoto>,
    earthDate: string,
    loading: bool,
    error: Option<string>)

  /** The initial values of the cells (App.js lines 6-10). */
  const Init := ViewState(None, [], InitialEarthDate, false, None)

  /** The number shown in the "Photos Taken" badge. */
  function PhotoCount(s: ViewState): (n: nat)
    ensures n == |s.marsPhotos|
    ensures n == 0 <==> s.marsPhotos == []
  {
    |s.marsPhotos|
  }

  // ---------------------------------------------------------------------
  // Cell writes and events
  // ---------------------------------------------------------------------

  /** One call of a state setter. */
  datatype Write =
    | SetApodData(apod: Option<ApodRecord>)
    | SetMarsPhotos(photos: seq<RoverPhoto>)
    | SetEarthDate(date: string)
    | SetLoading(flag: bool)
    | SetError(message: Option<string>)

  function Put(s: ViewState, w: Write): ViewState
  {
    match w
    case SetApodData(a) => s.(apodData := a)
    case SetMarsPhotos(ps) => s.(marsPhotos := ps)
    case SetEarthDate(d) => s.(earthDate := d)
    case SetLoading(b) => s.(loading := b)
    case SetError(m) => s.(error := m)
  }

  /** The writes applied in order: a later write to a cell replaces an earlier one. */
  function RunWrites(s: ViewState, ws: seq<Write>): ViewState
    decreases |ws|
  {
    if |ws| == 0 then s else RunWrites(Put(s, ws[0]), ws[1..])
  }

  /** What can happen to the component, in the order it arrives. */
  datatype Event =
    | StartFetch(date: string)            // fetchMarsPhotos(date) is called
    | PhotosOk(photos: seq<RoverPhoto>)   // a rover-photo request resolved
    | PhotosFail                          // a rover-photo request rejected
    | DateChange(newDate: string)         // the date input changed
    | ApodOk(record: ApodRecord)          // the APOD request resolved
    | ApodFail                            // the APOD request rejected

  predicate IsPhotosCompletion(e: Event)
  {
    e.PhotosOk? || e.PhotosFail?
  }

  predicate IsApodEvent(e: Event)
  {
    e.ApodOk? || e.ApodFail?
  }

  /** The setter calls each handler makes, in the order App.js makes them. */
  function Writes(e: Event): (ws: seq<Write>)
    ensures IsPhotosCompletion(e) ==> |ws| > 0 && ws[|ws| - 1] == SetLoading(false)
    ensures e.StartFetch? || e.DateChange? ==>
      |ws| >= 2 && ws[|ws| - 2] == SetLoading(true) && ws[|ws| - 1] == SetError(None)
    ensures e.DateChange? ==> ws[0] == SetEarthDate(e.newDate)
    ensures IsApodEvent(e) ==> |ws| <= 1 && (|ws| == 1 ==> ws[0].SetApodData?)
    ensures e.PhotosOk? ==> ws[0] == SetMarsPhotos(e.photos)
    ensures e.PhotosOk? ==> (|e.photos| == 0 <==> |ws| == 3 && ws[1] == SetError(Some(NoPhotosMessage)))
    ensures e.PhotosOk? && |e.photos| > 0 ==> |ws| == 2
  {
    match e
    case StartFetch(_) => [SetLoading(true), SetError(None)]
    case PhotosOk(ps) =>
      if |ps| == 0 then [SetMarsPhotos(ps), SetError(Some(NoPhotosMessage)), SetLoading(false)]
      else [SetMarsPhotos(ps), SetLoading(false)]
    case PhotosFail => [SetError(Some(PhotosFailedMessage)), SetLoading(false)]
    case DateChange(d) => [SetEarthDate(d), SetLoading(true), SetError(None)]
    case ApodOk(r) => [SetApodData(Some(r))]
    case ApodFail => []
  }

  function Apply(s: ViewState, e: Event): ViewState
  {
    RunWrites(s, Writes(e))
  }

  /** The state after a sequence of events, each applied as it arrives. */
  function Replay(s: ViewState, es: seq<Event>): ViewState
  {
    if es == [] then s else Apply(Replay(s, es[..|es| - 1]), es[|es| - 1])
  }

  // ---------------------------------------------------------------------
  // What each event does to the cells
  // ---------------------------------------------------------------------

  lemma RunOne(s: ViewState, a: Write)
    ensures RunWrites(s, [a]) == Put(s, a)
  {
    assert [a][0] == a && [a][1..] == [];
    assert RunWrites(Put(s, a), []) == Put(s, a);
  }

  lemma RunTwo(s: ViewState, a: Write, b: Write)
    ensures RunWrites(s, [a, b]) == Put(Put(s, a), b)
  {
    RunOne(s, a);
    assert [a, b][0] == a && [a, b][1..] == [b];
    RunOne(Put(s, a), b);
  }

  lemma RunThree(s: ViewState, a: Write, b: Write, c: Write)
    ensures RunWrites(s, [a, b, c]) == Put(Put(Put(s, a), b), c)
  {
    assert [a, b, c][1..] == [b, c];
    RunTwo(Put(s, a), b, c);
  }

  /** fetchMarsPhotos: loading on, error cleared, nothing else touched. */
  lemma StartFetchEffect(s: ViewState, d: string)
    ensures Apply(s, StartFetch(d)) == s.(loading := true, error := None)
  {
    RunTwo(s, SetLoading(true), SetError(None));
  }

  /** A resolved request stores the photos in provider order and ends
      loading; an empty batch also sets the "no photos" notice, a non-empty
      one leaves the error cell as it was. */
  lemma PhotosOkEffect(s: ViewState, ps: seq<RoverPhoto>)
    ensures Apply(s, PhotosOk(ps)) ==
      s.(marsPhotos := ps, loading := false,
         error := if |ps| == 0 then Some(NoPhotosMessage) else s.error)
  {
    if |ps| == 0 {
      RunThree(s, SetMarsPhotos(ps), SetError(Some(NoPhotosMessage)), SetLoading(false));
    } else {
      RunTwo(s, SetMarsPhotos(ps), SetLoading(false));
    }
  }

  /** A rejected request sets the failure message and ends loading; the
      photos of an earlier request stay on screen. */
  lemma PhotosFailEffect(s: ViewState)
    ensures Apply(s, PhotosFail) == s.(error := Some(PhotosFailedMessage), loading := false)
  {
    RunTwo(s, SetError(Some(PhotosFailedMessage)), SetLoading(false));
  }

  /** handleDateChange stores the new date and then fetches for that same date. */
  lemma DateChangeEffect(s: ViewState, d: string)
    ensures Apply(s, DateChange(d)) == Apply(s.(earthDate := d), StartFetch(d))
    ensures Apply(s, DateChange(d)) == s.(earthDate := d, loading := true, error := None)
  {
    RunThree(s, SetEarthDate(d), SetLoading(true), SetError(None));
    StartFetchEffect(s.(earthDate := d), d);
  }

  /** The APOD outcome touches only the record cell; a failure touches nothing. */
  lemma ApodOkEffect(s: ViewState, r: ApodRecord)
    ensures Apply(s, ApodOk(r)) == s.(apodData := Some(r))
  {
    RunOne(s, SetApodData(Some(r)));
  }

  /** The APOD failure callback only logs. */
  lemma ApodFailEffect(s: ViewState)
    ensures Apply(s, ApodFail) == s
  {
  }

  // ---------------------------------------------------------------------
  // Properties of event sequences
  // ---------------------------------------------------------------------

  lemma ReplaySnoc(s: ViewState, es: seq<Event>, e: Event)
    ensures Replay(s, es + [e]) == Apply(Replay(s, es), e)
  {
    assert (es + [e])[..|es|] == es;
  }

  lemma ReplayTwo(s: ViewState, e1: Event, e2: Event)
    ensures Replay(s, [e1, e2]) == Apply(Apply(s, e1), e2)
  {
    ReplaySnoc(s, [], e1);
    ReplaySnoc(s, [e1], e2);
    assert [] + [e1] == [e1] && [e1] + [e2] == [e1, e2];
  }

  lemma ReplayFour(s: ViewState, e1: Event, e2: Event, e3: Event, e4: Event)
    ensures Replay(s, [e1, e2, e3, e4]) == Apply(Apply(Apply(Apply(s, e1), e2), e3), e4)
  {
    ReplayTwo(s, e1, e2);
    ReplaySnoc(s, [e1, e2], e3);
    ReplaySnoc(s, [e1, e2, e3], e4);
    assert [e1, e2] + [e3] == [e1, e2, e3] && [e1, e2, e3] + [e4] == [e1, e2, e3, e4];
  }

  /** Loading and an error message are never shown together. */
  predicate Consistent(s: ViewState)
  {
    s.loading ==> s.error.None?
  }

  lemma ApplyKeepsConsistent(s: ViewState, e: Event)
    requires Consistent(s)
    ensures Consistent(Apply(s, e))
  {
    match e
    case StartFetch(d) => StartFetchEffect(s, d);
    case PhotosOk(ps) => PhotosOkEffect(s, ps);
    case PhotosFail => PhotosFailEffect(s);
    case DateChange(d) => DateChangeEffect(s, d);
    case ApodOk(r) => ApodOkEffect(s, r);
    case ApodFail => ApodFailEffect(s);
  }

  /** Every state the component can reach keeps `Consistent`. */
  lemma {:induction false} ReachableIsConsistent(es: seq<Event>)
    ensures Consistent(Replay(Init, es))
  {
    if es != [] {
      ReachableIsConsistent(es[..|es| - 1]);
      ApplyKeepsConsistent(Replay(Init, es[..|es| - 1]), es[|es| - 1]);
    }
  }

  /** True when the last rover-photo event of `es` started a request:
      some request is still outstanding and none has resolved since. */
  predicate Pending(es: seq<Event>)
  {
    if es == [] then false
    else
      var e := es[|es| - 1];
      if e.StartFetch? || e.DateChange? then true
      else if IsPhotosCompletion(e) then false
      else Pending(es[..|es| - 1])
  }

  /** The spinner is shown exactly while the latest request is unresolved:
      once any request resolves, loading is off until the next one starts. */
  lemma {:induction false} LoadingIffPending(es: seq<Event>)
    ensures Replay(Init, es).loading <==> Pending(es)
  {
    if es != [] {
      var s := Replay(Init, es[..|es| - 1]);
      LoadingIffPending(es[..|es| - 1]);
      match es[|es| - 1]
      case StartFetch(d) => StartFetchEffect(s, d);
      case PhotosOk(ps) => PhotosOkEffect(s, ps);
      case PhotosFail => PhotosFailEffect(s);
      case DateChange(d) => DateChangeEffect(s, d);
      case ApodOk(r) => ApodOkEffect(s, r);
      case ApodFail => ApodFailEffect(s);
    }
  }

  /** After any completion event loading is off, whatever came before. */
  lemma CompletionEndsLoading(s: ViewState, es: seq<Event>, e: Event)
    requires IsPhotosCompletion(e)
    ensures !Replay(s, es + [e]).loading
  {
    ReplaySnoc(s, es, e);
    if e.PhotosOk? {
      PhotosOkEffect(Replay(s, es), e.photos);
    } else {
      PhotosFailEffect(Replay(s, es));
    }
  }

  /** The two data sources are independent: an APOD outcome and a rover-photo
      event give the same state in either arrival order. */
  lemma ApodAndPhotosCommute(s: ViewState, a: Event, p: Event)
    requires IsApodEvent(a) && !IsApodEvent(p)
    ensures Apply(Apply(s, a), p) == Apply(Apply(s, p), a)
  {
    if a.ApodOk? {
      ApodOkEffect(s, a.record);
      ApodOkEffect(Apply(s, p), a.record);
    } else {
      ApodFailEffect(s);
      ApodFailEffect(Apply(s, p));
    }
    match p
    case StartFetch(d) => StartFetchEffect(s, d); StartFetchEffect(Apply(s, a), d);
    case PhotosOk(ps) => PhotosOkEffect(s, ps); PhotosOkEffect(Apply(s, a), ps);
    case PhotosFail => PhotosFailEffect(s); PhotosFailEffect(Apply(s, a));
    case DateChange(d) => DateChangeEffect(s, d); DateChangeEffect(Apply(s, a), d);
  }

  /** There is no guard against out-of-order completions: when the request
      for an earlier date resolves last, its photos replace those of the
      date now shown in the input (last writer wins). */
  lemma StaleResponseWins(a: string, b: string, forA: seq<RoverPhoto>, forB: seq<RoverPhoto>)
    ensures var s := Replay(Init, [DateChange(a), DateChange(b), PhotosOk(forB), PhotosOk(forA)]);
            s.earthDate == b && s.marsPhotos == forA && !s.loading
  {
    ReplayFour(Init, DateChange(a), DateChange(b), PhotosOk(forB), PhotosOk(forA));
    var s1 := Apply(Init, DateChange(a));
    DateChangeEffect(Init, a);
    DateChangeEffect(s1, b);
    var s2 := Apply(s1, DateChange(b));
    PhotosOkEffect(s2, forB);
    PhotosOkEffect(Apply(s2, PhotosOk(forB)), forA);
  }

  /** The same hazard can leave the "no photos" notice above a non-empty
      grid: an empty batch resolves, then a stale non-empty one. */
  lemma StaleNoticeSurvives(a: string, b: string, forA: seq<RoverPhoto>)
    requires |forA| > 0
    ensures var s := Replay(Init, [DateChange(a), DateChange(b), PhotosOk([]), PhotosOk(forA)]);
            s.marsPhotos == forA && s.error == Some(NoPhotosMessage)
  {
    ReplayFour(Init, DateChange(a), DateChange(b), PhotosOk([]), PhotosOk(forA));
    var s1 := Apply(Init, DateChange(a));
    DateChangeEffect(Init, a);
    DateChangeEffect(s1, b);
    var s2 := Apply(s1, DateChange(b));
    PhotosOkEffect(s2, []);
    PhotosOkEffect(Apply(s2, PhotosOk([])), forA);
  }

  /** Mounting and fetching for the default date, then an empty batch: no
      spinner, the "no photos" notice and a count of 0. */
  lemma EmptyResultScenario()
    ensures var s := Replay(Init, [StartFetch(InitialEarthDate), PhotosOk([])]);
            !s.loading && s.error == Some(NoPhotosMessage) && PhotoCount(s) == 0
  {
    ReplayTwo(Init, StartFetch(InitialEarthDate), PhotosOk([]));
    StartFetchEffect(Init, InitialEarthDate);
    PhotosOkEffect(Apply(Init, StartFetch(InitialEarthDate)), []);
  }

  /** Two photos: no spinner, no message, a count of 2, provider order kept. */
  lemma TwoPhotosScenario()
    ensures var s := Replay(Init, [StartFetch(InitialEarthDate),
                                   PhotosOk([RoverPhoto(1, "a"), RoverPhoto(2, "b")])]);
            !s.loading && s.error.None? && PhotoCount(s) == 2 &&
            s.marsPhotos[0].id == 1 && s.marsPhotos[1].id == 2
  {
    var ps := [RoverPhoto(1, "a"), RoverPhoto(2, "b")];
    ReplayTwo(Init, StartFetch(InitialEarthDate), PhotosOk(ps));
    StartFetchEffect(Init, InitialEarthDate);
    PhotosOkEffect(Apply(Init, StartFetch(InitialEarthDate)), ps);
  }

  // ---------------------------------------------------------------------
  // APOD metadata badges (App.js lines 47-51)
  // ---------------------------------------------------------------------

  datatype MetadataItem = MetadataItem(name: string, value: string, icon: string)

  /** JavaScript truthiness of an optional string field. */
  predicate Truthy(field: Option<string>)
  {
    field.Some? && field.value != ""
  }

  const CopyrightPrefix := "\U{A9} "

  function ApodMetadata(apod: Option<ApodRecord>): (m: seq<MetadataItem>)
    ensures |m| == 3
    ensures m[0].name == "Media Type" && m[1].name == "HD Image Available" && m[2].name == "Copyright"
    ensures m[0].value in {"Image", "Video"}
    ensures m[0].value == "Image" <==> apod.Some? && apod.value.mediaType == "image"
    ensures m[1].value in {"Yes", "No"}
    ensures m[1].value == "Yes" <==> apod.Some? && Truthy(apod.value.hdurl)
    ensures apod.Some? && Truthy(apod.value.copyright) ==>
      m[2].value == CopyrightPrefix + apod.value.copyright.value
    ensures !(apod.Some? && Truthy(apod.value.copyright)) ==> m[2].value == "Not Available"
  {
    var media := if apod.Some? && apod.value.mediaType == "image" then "Image" else "Video";
    var hd := if apod.Some? && Truthy(apod.value.hdurl) then "Yes" else "No";
    var copyright :=
      if apod.Some? && Truthy(apod.value.copyright) then CopyrightPrefix + apod.value.copyright.value
      else "Not Available";
    [MetadataItem("Media Type", media, "\U{1F5BC}\U{FE0F}"),
     MetadataItem("HD Image Available", hd, "\U{1F4FA}"),
     MetadataItem("Copyright", copyright, "\U{A9}\U{FE0F}")]
  }

  /** Without a record the badges read "Video", "No" and "Not Available". */
  lemma MetadataWithoutRecord()
    ensures var m := ApodMetadata(None);
            m[0].value == "Video" && m[1].value == "No" && m[2].value == "Not Available"
  {
  }

  /** The badges depend on nothing but the three fields they read. */
  lemma MetadataReadsThreeFields(r1: ApodRecord, r2: ApodRecord)
    requires r1.mediaType == r2.mediaType && r1.hdurl == r2.hdurl && r1.copyright == r2.copyright
    ensures ApodMetadata(Some(r1)) == ApodMetadata(Some(r2))
  {
  }

  // ---------------------------------------------------------------------
  // The component itself
  // ---------------------------------------------------------------------

  /** A request the client sends to the gateway. */
  datatype ClientRequest = GetApod | GetMarsRoverPhotos(earthDate: string)

  class App {
    var apodData: Option<ApodRecord>
    var marsPhotos: seq<RoverPhoto>
    var earthDate: string
    var loading: bool
    var error: Option<string>

    function State(): ViewState
      reads this
    {
      ViewState(apodData, marsPhotos, earthDate, loading, error)
    }

    /** The first render: every cell holds its initial value. */
    constructor ()
      ensures State() == Init
    {
      apodData := None;
      marsPhotos := [];
      earthDate := InitialEarthDate;
      loading := false;
      error := None;
    }

    /** fetchMarsPhotos(date): turns the spinner on, clears the message and
        issues the request for `date`. */
    method FetchMarsPhotos(date: string) returns (issued: ClientRequest)
      modifies this
      ensures issued == GetMarsRoverPhotos(date)
      ensures State() == Apply(old(State()), StartFetch(date))
      ensures loading && error.None?
      ensures marsPhotos == old(marsPhotos) && earthDate == old(earthDate) && apodData == old(apodData)
    {
      StartFetchEffect(State(), date);
      loading := true;
      error := None;
      issued := GetMarsRoverPhotos(date);
    }

    /** The mount effect: requests the APOD record, then fetches the photos
        for the date currently in the input. */
    method Mount() returns (issued: seq<ClientRequest>)
      modifies this
      ensures issued == [GetApod, GetMarsRoverPhotos(old(earthDate))]
      ensures State() == Apply(old(State()), StartFetch(old(earthDate)))
    {
      var photosRequest := FetchMarsPhotos(earthDate);
      issued := [GetApod, photosRequest];
    }

    /** The `.then` callback of a rover-photo request. */
    method OnPhotosResolved(photos: seq<RoverPhoto>)
      modifies this
      ensures State() == Apply(old(State()), PhotosOk(photos))
      ensures marsPhotos == photos && !loading
      ensures error == if |photos| == 0 then Some(NoPhotosMessage) else old(error)
      ensures earthDate == old(earthDate) && apodData == old(apodData)
    {
      PhotosOkEffect(State(), photos);
      marsPhotos := photos;
      if |photos| == 0 {
        error := Some(NoPhotosMessage);
      }
      loading := false;
    }

    /** The `.catch` callback of a rover-photo request. */
    method OnPhotosRejected()
      modifies this
      ensures State() == Apply(old(State()), PhotosFail)
      ensures error == Some(PhotosFailedMessage) && !loading
      ensures marsPhotos == old(marsPhotos) && earthDate == old(earthDate) && apodData == old(apodData)
    {
      PhotosFailEffect(State());
      error := Some(PhotosFailedMessage);
      loading := false;
    }

    /** handleDateChange: stores the new date, then fetches for it. */
    method HandleDateChange(newDate: string) returns (issued: ClientRequest)
      modifies this
      ensures issued == GetMarsRoverPhotos(newDate)
      ensures State() == Apply(old(State()), DateChange(newDate))
      ensures earthDate == newDate && loading && error.None?
      ensures marsPhotos == old(marsPhotos) && apodData == old(apodData)
    {
      DateChangeEffect(State(), newDate);
      earthDate := newDate;
      issued := FetchMarsPhotos(newDate);
    }

    /** The `.then` callback of the APOD request. */
    method OnApodResolved(record: ApodRecord)
      modifies this
      ensures State() == Apply(old(State()), ApodOk(record))
      ensures apodData == Some(record)
      ensures marsPhotos == old(marsPhotos) && earthDate == old(earthDate)
      ensures loading == old(loading) && error == old(error)
    {
      ApodOkEffect(State(), record);
      apodData := Some(record);
    }

    /** The `.catch` callback of the APOD request: it only logs. */
    method OnApodRejected()
      ensures State() == old(State())
    {
    }

    /** The badges on screen: the APOD card, and the metadata container
        inside it, is rendered only when a record is present. */
    method Metadata() returns (items: seq<MetadataItem>)
      ensures apodData.None? ==> items == []
      ensures apodData.Some? ==> items == ApodMetadata(apodData)
    {
      if apodData.Some? {
        items := ApodMetadata(apodData);
      } else {
        items := [];
      }
    }
  }
}
