/**
 * The backend gateway (index.js): validates the `earth_date` query value,
 * forwards to the upstream astronomy provider and maps every outcome to a
 * status code and a JSON body.
 *
 * The upstream call is not performed here: its outcome is a parameter, and
 * whether (and with what) the provider was contacted is part of the result.
 */
module Gateway {
  import opened Wrappers
  import opened JsonValues

  // ---------------------------------------------------------------------
  // The earth_date validator: the regular expression ^\d{4}-\d{2}-\d{2}$
  // ---------------------------------------------------------------------

  /** One regular-expression atom: `\d` (the ASCII digits only, as in any
      JavaScript regex) or a literal character. */
  datatype Atom = Digit | Literal(c: char)

  /** An atom with a fixed repeat count, `\d{4}` or `-` (count 1). */
  datatype Piece = Piece(atom: Atom, count: nat)

  /** The pattern of index.js line 56, between the anchors `^` and `$`. */
  const EarthDatePattern: seq<Piece> :=
    [Piece(Digit, 4), Piece(Literal('-'), 1), Piece(Digit, 2), Piece(Literal('-'), 1), Piece(Digit, 2)]

  predicate IsAsciiDigit(c: char)
  {
    '0' <= c <= '9'
  }

  predicate AtomMatches(a: Atom, c: char)
  {
    match a
    case Digit => IsAsciiDigit(c)
    case Literal(l) => c == l
  }

  /** Total number of characters a sequence of fixed-count pieces consumes. */
  function Width(p: seq<Piece>): nat
  {
    if p == [] then 0 else p[0].count + Width(p[1..])
  }

  /** The pieces unrolled into one atom per input character. */
  function Expand(p: seq<Piece>): (r: seq<Atom>)
    ensures |r| == Width(p)
  {
    if p == [] then [] else seq(p[0].count, _ => p[0].atom) + Expand(p[1..])
  }

  /**
   * Anchored matching of `^atoms$` against `s`, one atom per character.
   * Without the `m` flag `$` matches only at the true end of the input, so
   * nothing may follow the last atom, not even a newline.
   */
  function MatchAnchored(atoms: seq<Atom>, s: string): bool
  {
    if atoms == [] then s == []
    else s != [] && AtomMatches(atoms[0], s[0]) && MatchAnchored(atoms[1..], s[1..])
  }

  /** The regex test `/^\d{4}-\d{2}-\d{2}$/.test(s)`. */
  predicate RegexTest(s: string): (ok: bool)
    ensures ok ==> |s| == 10
    ensures ok ==> forall i :: 0 <= i < |s| ==> IsAsciiDigit(s[i]) || s[i] == '-'
  {
    ExpandEarthDatePattern();
    MatchAnchoredPositionwise(Expand(EarthDatePattern), s);
    MatchAnchored(Expand(EarthDatePattern), s)
  }

  /** The shape of `full-date` of RFC 3339 section 5.6, without any range
      check on the month or the day: the reference the regex is compared with. */
  predicate IsDateShaped(s: string)
  {
    && |s| == 10
    && (forall i :: 0 <= i < 10 && i != 4 && i != 7 ==> IsAsciiDigit(s[i]))
    && s[4] == '-' && s[7] == '-'
  }

  lemma {:induction false} MatchAnchoredPositionwise(atoms: seq<Atom>, s: string)
    ensures MatchAnchored(atoms, s) <==>
      |s| == |atoms| && forall i :: 0 <= i < |s| ==> AtomMatches(atoms[i], s[i])
  {
    if atoms != [] && s != [] {
      MatchAnchoredPositionwise(atoms[1..], s[1..]);
      if |s| == |atoms| && forall i :: 0 <= i < |s| ==> AtomMatches(atoms[i], s[i]) {
        assert forall i :: 0 <= i < |s| - 1 ==> AtomMatches(atoms[1..][i], s[1..][i]) by {
          forall i | 0 <= i < |s| - 1 ensures AtomMatches(atoms[1..][i], s[1..][i]) {
            assert atoms[1..][i] == atoms[i + 1] && s[1..][i] == s[i + 1];
          }
        }
      }
      if MatchAnchored(atoms, s) {
        forall i | 0 <= i < |s| ensures AtomMatches(atoms[i], s[i]) {
          if i > 0 {
            assert atoms[1..][i - 1] == atoms[i] && s[1..][i - 1] == s[i];
          }
        }
      }
    }
  }

  lemma ExpandEarthDatePattern()
    ensures Expand(EarthDatePattern) ==
      [Digit, Digit, Digit, Digit, Literal('-'), Digit, Digit, Literal('-'), Digit, Digit]
  {
    var p := EarthDatePattern;
    assert Expand(p[4..]) == [Digit, Digit] by {
      assert p[4..][1..] == [];
    }
    assert Expand(p[3..]) == [Literal('-'), Digit, Digit] by {
      assert p[3..][1..] == p[4..];
    }
    assert Expand(p[2..]) == [Digit, Digit, Literal('-'), Digit, Digit] by {
      assert p[2..][1..] == p[3..];
    }
    assert Expand(p[1..]) == [Literal('-'), Digit, Digit, Literal('-'), Digit, Digit] by {
      assert p[1..][1..] == p[2..];
    }
  }

  /** The regex of index.js line 56 accepts exactly the 10-character strings
      with ASCII digits at positions 0-3, 5-6 and 8-9 and `-` at 4 and 7. */
  lemma RegexAcceptsExactlyDateShape(s: string)
    ensures RegexTest(s) <==> IsDateShaped(s)
  {
    ExpandEarthDatePattern();
    MatchAnchoredPositionwise(Expand(EarthDatePattern), s);
  }

  /** The validator is syntactic only: impossible calendar dates pass. */
  lemma ImpossibleDatesAccepted()
    ensures RegexTest("2023-02-30")
    ensures RegexTest("0000-99-99")
  {
    RegexAcceptsExactlyDateShape("2023-02-30");
    RegexAcceptsExactlyDateShape("0000-99-99");
  }

  /** A trailing newline, a missing leading zero and the empty string fail. */
  lemma MalformedDatesRejected()
    ensures !RegexTest("2023-10-01\n")
    ensures !RegexTest("2023-1-01")
    ensures !RegexTest("")
    ensures !RegexTest("2023/10/01")
  {
    RegexAcceptsExactlyDateShape("2023-10-01\n");
    RegexAcceptsExactlyDateShape("2023-1-01");
    RegexAcceptsExactlyDateShape("");
    RegexAcceptsExactlyDateShape("2023/10/01");
    assert "2023/10/01"[4] == '/';
  }

  /**
   * The guard of index.js line 56, `!earth_date || !regex.test(earth_date)`,
   * negated: the query value is present, truthy (non-empty) and matches.
   */
  predicate EarthDateAccepted(q: Option<string>): (ok: bool)
    ensures q.None? || q.value == "" ==> !ok
    ensures ok ==> |q.value| == 10
  {
    q.Some? && q.value != "" && RegexTest(q.value)
  }

  lemma EarthDateAcceptedIffDateShaped(q: Option<string>)
    ensures EarthDateAccepted(q) <==> q.Some? && IsDateShaped(q.value)
  {
    if q.Some? {
      RegexAcceptsExactlyDateShape(q.value);
    }
  }

  // ---------------------------------------------------------------------
  // Requests, the upstream outcome and responses
  // ---------------------------------------------------------------------

  /** An inbound GET request: its path (without the query string) and the
      `earth_date` query value, if any. */
  datatype Request = Request(path: string, earthDate: Option<string>)

  /** What the provider call (an axios GET) ends in; the cause of a failure
      (network error, non-2xx status, timeout) is opaque. */
  datatype Upstream = Success(payload: Json) | Failure(cause: string)

  /** The provider resource the gateway asked for. */
  datatype ProviderCall = ApodResource | RoverPhotosResource(earthDate: string)

  datatype Response = Response(status: int, body: Json)

  /** A handled request: the reply and the provider call it issued, if any. */
  datatype Exchange = Exchange(response: Response, call: Option<ProviderCall>)

  const NasaFailureMessage := "Failed to fetch data from NASA API"
  const InvalidDateMessage := "Invalid or missing earth_date parameter. Use format YYYY-MM-DD."
  const NotFoundMessage := "Endpoint not found"

  /** The informational payload of `GET /` (index.js lines 30-38). */
  const Welcome: Json :=
    Obj([("message", Str("Welcome to the NASA Data Explorer Backend!")),
         ("endpoints", Obj([("apod", Str("/apod")),
                            ("marsRoverPhotos", Str("/mars-rover-photos?earth_date=YYYY-MM-DD"))]))])

  // ---------------------------------------------------------------------
  // Routing, with Express's defaults: case-insensitive, trailing `/` optional
  // ---------------------------------------------------------------------

  datatype Route = RootRoute | ApodRoute | MarsRoverPhotosRoute | Unmatched

  function AsciiLower(c: char): char
  {
    if 'A' <= c <= 'Z' then (c as int + 32) as char else c
  }

  /** Equality up to ASCII case, as a regex with the `i` flag compares. */
  predicate SameIgnoringCase(a: string, b: string)
  {
    |a| == |b| && forall i :: 0 <= i < |a| ==> AsciiLower(a[i]) == AsciiLower(b[i])
  }

  /** `path` matches the route `pattern` when it equals it up to case, with
      the pattern's own trailing `/` dropped and one optional `/` after it. */
  predicate RouteMatches(pattern: string, path: string)
  {
    var base := if |pattern| > 0 && pattern[|pattern| - 1] == '/' then pattern[..|pattern| - 1] else pattern;
    SameIgnoringCase(path, base) || SameIgnoringCase(path, base + "/")
  }

  /** The route Express dispatches to, trying the handlers in the order they
      are registered; the 404 handler catches the rest. */
  function RouteOf(path: string): (r: Route)
    ensures r == Unmatched <==>
      !RouteMatches("/", path) && !RouteMatches("/apod", path) && !RouteMatches("/mars-rover-photos", path)
  {
    if RouteMatches("/", path) then RootRoute
    else if RouteMatches("/apod", path) then ApodRoute
    else if RouteMatches("/mars-rover-photos", path) then MarsRoverPhotosRoute
    else Unmatched
  }

  // ---------------------------------------------------------------------
  // Handlers
  // ---------------------------------------------------------------------

  /** The try/catch around the provider call: success passes the body
      through with status 200, any failure becomes the fixed 500 envelope. */
  function Forward(outcome: Upstream): (r: Response)
    ensures r.status == 200 <==> outcome.Success?
    ensures outcome.Success? ==> r.body == outcome.payload
    ensures outcome.Failure? ==> r == Response(500, ErrorEnvelope(NasaFailureMessage))
  {
    match outcome
    case Success(payload) => Response(200, payload)
    case Failure(_) => Response(500, ErrorEnvelope(NasaFailureMessage))
  }

  /** `GET /apod`: no parameters; one provider call. */
  function HandleApod(outcome: Upstream): (x: Exchange)
    ensures x.call == Some(ApodResource)
    ensures x.response == Forward(outcome)
  {
    Exchange(Forward(outcome), Some(ApodResource))
  }

  /** `GET /mars-rover-photos`: an early 400 before any provider call when the
      date is missing or malformed; otherwise one call for that date. */
  function HandleMarsRoverPhotos(earthDate: Option<string>, outcome: Upstream): (x: Exchange)
    ensures x.call.Some? <==> earthDate.Some? && IsDateShaped(earthDate.value)
    ensures x.call.Some? ==> x.call == Some(RoverPhotosResource(earthDate.value)) && x.response == Forward(outcome)
    ensures x.call.None? ==> x.response == Response(400, ErrorEnvelope(InvalidDateMessage))
  {
    EarthDateAcceptedIffDateShaped(earthDate);
    if !EarthDateAccepted(earthDate) then
      Exchange(Response(400, ErrorEnvelope(InvalidDateMessage)), None)
    else
      Exchange(Forward(outcome), Some(RoverPhotosResource(earthDate.value)))
  }

  /** One GET request through the whole middleware and route stack. */
  function Handle(req: Request, outcome: Upstream): (x: Exchange)
    ensures x.call.Some? ==> x.response.status == 200 || x.response.status == 500
    ensures x.call.None? ==> x.response.status in {200, 400, 404}
  {
    match RouteOf(req.path)
    case RootRoute => Exchange(Response(200, Welcome), None)
    case ApodRoute => HandleApod(outcome)
    case MarsRoverPhotosRoute => HandleMarsRoverPhotos(req.earthDate, outcome)
    case Unmatched => Exchange(Response(404, ErrorEnvelope(NotFoundMessage)), None)
  }

  // ---------------------------------------------------------------------
  // Properties of request handling
  // ---------------------------------------------------------------------

  /** A missing, empty or malformed date is answered 400 with the fixed
      message, and the provider is not contacted, whatever it would answer. */
  lemma InvalidDateRejectedBeforeUpstream(req: Request, outcome: Upstream)
    requires RouteOf(req.path) == MarsRoverPhotosRoute
    requires req.earthDate.None? || !IsDateShaped(req.earthDate.value)
    ensures Handle(req, outcome) == Exchange(Response(400, ErrorEnvelope(InvalidDateMessage)), None)
  {
  }

  /** A well-formed date with a successful provider call returns the
      provider's body unchanged, whatever it holds (an empty `photos` array
      included), and the call asked for exactly that date. */
  lemma ValidDatePassesThrough(req: Request, payload: Json)
    requires RouteOf(req.path) == MarsRoverPhotosRoute
    requires req.earthDate.Some? && IsDateShaped(req.earthDate.value)
    ensures Handle(req, Success(payload)) ==
      Exchange(Response(200, payload), Some(RoverPhotosResource(req.earthDate.value)))
  {
  }

  /** An empty result is a success, not an error. */
  lemma EmptyPhotosIsSuccess(req: Request)
    requires RouteOf(req.path) == MarsRoverPhotosRoute
    requires req.earthDate.Some? && IsDateShaped(req.earthDate.value)
    ensures Handle(req, Success(Obj([("photos", Arr([]))]))).response ==
      Response(200, Obj([("photos", Arr([]))]))
  {
  }

  /** `/apod` ignores any query value and passes a success through. */
  lemma ApodPassesThrough(req: Request, payload: Json, other: Option<string>)
    requires RouteOf(req.path) == ApodRoute
    ensures Handle(req, Success(payload)) == Exchange(Response(200, payload), Some(ApodResource))
    ensures Handle(req, Success(payload)) == Handle(req.(earthDate := other), Success(payload))
  {
  }

  /** Any provider failure on either endpoint yields 500 with exactly the
      fixed message; the cause never reaches the caller. */
  lemma FailureHidesCause(req: Request, cause1: string, cause2: string)
    requires RouteOf(req.path) == ApodRoute ||
             (RouteOf(req.path) == MarsRoverPhotosRoute && EarthDateAccepted(req.earthDate))
    ensures Handle(req, Failure(cause1)).response == Response(500, ErrorEnvelope(NasaFailureMessage))
    ensures Handle(req, Failure(cause1)) == Handle(req, Failure(cause2))
  {
  }

  /** Every path other than `/`, `/apod` and `/mars-rover-photos` (up to case
      and one trailing `/`) gets the 404 envelope without a provider call. */
  lemma UnmatchedPathIsNotFound(req: Request, outcome: Upstream)
    requires !RouteMatches("/", req.path) && !RouteMatches("/apod", req.path) &&
             !RouteMatches("/mars-rover-photos", req.path)
    ensures Handle(req, outcome) == Exchange(Response(404, ErrorEnvelope(NotFoundMessage)), None)
  {
  }

  lemma RoutingExamples()
    ensures RouteOf("/apod") == ApodRoute && RouteOf("/apod/") == ApodRoute && RouteOf("/APOD") == ApodRoute
    ensures RouteOf("/mars-rover-photos") == MarsRoverPhotosRoute
    ensures RouteOf("/") == RootRoute
    ensures RouteOf("/apod/today") == Unmatched && RouteOf("/photos") == Unmatched
  {
    assert !SameIgnoringCase("/apod/today", "/apod/");
  }

  // ---------------------------------------------------------------------
  // Startup (index.js lines 11-14 and 83)
  // ---------------------------------------------------------------------

  datatype Process = Exited(code: int) | Listening

  /** The startup guard: an absent or empty `NASA_API_KEY` is falsy and ends
      the process with exit code 1 before `listen` is reached. */
  function Start(apiKey: Option<string>): (p: Process)
    ensures p.Listening? <==> apiKey.Some? && apiKey.value != ""
    ensures p.Exited? ==> p.code == 1
  {
    if apiKey.None? || apiKey.value == "" then Exited(1) else Listening
  }

  /** A run of the service over a stream of requests, each paired with the
      outcome its provider call would have: nothing is handled unless the
      process got past the startup guard. */
  function Serve(apiKey: Option<string>, traffic: seq<(Request, Upstream)>): (handled: seq<Exchange>)
    ensures Start(apiKey).Exited? ==> handled == []
    ensures Start(apiKey).Listening? ==>
      |handled| == |traffic| &&
      forall i :: 0 <= i < |traffic| ==> handled[i] == Handle(traffic[i].0, traffic[i].1)
  {
    if Start(apiKey).Exited? then []
    else seq(|traffic|, i requires 0 <= i < |traffic| => Handle(traffic[i].0, traffic[i].1))
  }

  /** Requests are independent: the reply to one request does not depend on
      which requests came before it. */
  lemma {:induction false} RequestsAreIsolated(apiKey: Option<string>, earlier: seq<(Request, Upstream)>,
                                               traffic: seq<(Request, Upstream)>)
    requires Start(apiKey).Listening?
    ensures Serve(apiKey, earlier + traffic)[|earlier|..] == Serve(apiKey, traffic)
  {
    var all := earlier + traffic;
    assert forall i :: 0 <= i < |traffic| ==> all[|earlier| + i] == traffic[i];
  }
}
