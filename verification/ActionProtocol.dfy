/** The messages of internal/computeruse/protocol.go: actions, requests, results and the checks on
    them. Image decoding and URL parsing are represented by what they report. */
module ActionProtocol {
  import opened Wrappers
  import KeyChord

  const PROTOCOL := 2
  const MAX_ERROR := 1024
  const MAX_TYPE_CHARS := 4000
  const MAX_PIXELS := 100000

  /** A URL with whether parsing finds an absolute http(s) URL with a host and no credentials. */
  datatype Url = Url(text: string, web: bool)

  datatype Kind =
    | Screenshot | LeftClick | RightClick | MiddleClick | DoubleClick | TripleClick
    | MouseMove | LeftClickDrag | LeftMouseDown | LeftMouseUp | Scroll
    | Type | Key | Wait | CursorPosition | Zoom | OpenUrl
    | Unlisted(name: string)

  datatype Direction = NoDirection | Up | Down | Left | Right | OtherDirection(name: string)

  datatype Action = Action(
    kind: Kind, coordinate: Option<seq<int>>, start: Option<seq<int>>, text: string, direction: Direction,
    amount: Option<int>, repeat: Option<int>, duration: Option<real>, region: Option<seq<int>>, url: Url)

  datatype Field =
    | Coordinate | StartCoordinate | Text | ScrollDirection | ScrollAmount | Repeat | Duration | Region | URL

  datatype Spec = Spec(required: set<Field>, optional: set<Field>)

  function SpecOf(kind: Kind): Option<Spec> {
    match kind
    case Screenshot | CursorPosition => Some(Spec({}, {}))
    case LeftClick | RightClick | MiddleClick | DoubleClick | TripleClick => Some(Spec({Coordinate}, {Text}))
    case MouseMove => Some(Spec({Coordinate}, {}))
    case LeftClickDrag => Some(Spec({StartCoordinate, Coordinate}, {Text}))
    case LeftMouseDown | LeftMouseUp => Some(Spec({}, {Coordinate}))
    case Scroll => Some(Spec({ScrollDirection}, {ScrollAmount, Coordinate, Text}))
    case Type => Some(Spec({Text}, {}))
    case Key => Some(Spec({Text}, {Repeat}))
    case Wait => Some(Spec({}, {Duration}))
    case Zoom => Some(Spec({Region}, {}))
    case OpenUrl => Some(Spec({URL}, {}))
    case Unlisted(_) => None
  }

  const FIELDS := {Coordinate, StartCoordinate, Text, ScrollDirection, ScrollAmount, Repeat, Duration, Region, URL}

  predicate Has(a: Action, f: Field) {
    match f
    case Coordinate => a.coordinate.Some?
    case StartCoordinate => a.start.Some?
    case Text => a.text != ""
    case ScrollDirection => !a.direction.NoDirection?
    case ScrollAmount => a.amount.Some?
    case Repeat => a.repeat.Some?
    case Duration => a.duration.Some?
    case Region => a.region.Some?
    case URL => a.url.text != ""
  }

  predicate GoodPoint(p: Option<seq<int>>) {
    p.None? || (|p.value| == 2 && 0 <= p.value[0] < MAX_PIXELS && 0 <= p.value[1] < MAX_PIXELS)
  }

  predicate IsControl(c: char) {
    c < ' ' || '\U{7F}' <= c <= '\U{9F}'
  }

  predicate GoodRegion(r: Option<seq<int>>) {
    r.Some? && |r.value| == 4 && 0 <= r.value[0] < r.value[2] <= MAX_PIXELS
    && 0 <= r.value[1] < r.value[3] <= MAX_PIXELS
  }

  /** The remaining checks, which depend on the kind of action. */
  predicate GoodFields(a: Action) {
    && (a.kind.Type? ==> |a.text| <= MAX_TYPE_CHARS && forall c | c in a.text :: IsControl(c) ==> c in "\n\t\r")
    && (a.kind.Key? ==> KeyChord.Parse(a.text).Ok? && (a.repeat.Some? ==> 1 <= a.repeat.value <= 50))
    && (a.kind.Scroll? ==> !a.direction.OtherDirection? && (a.amount.Some? ==> 1 <= a.amount.value <= 30))
    && (a.kind.Wait? && a.duration.Some? ==> 0.1 <= a.duration.value <= 30.0)
    && (a.kind.OpenUrl? ==> a.url.web)
    && (a.text != "" && !a.kind.Type? && !a.kind.Key? ==>
          |a.text| <= KeyChord.MAX_CHORD && KeyChord.Held(KeyChord.Split(a.text)).Ok?)
  }

  /** Required and allowed fields, points and regions. */
  predicate GoodShape(a: Action) {
    && SpecOf(a.kind).Some?
    && var spec := SpecOf(a.kind).value;
       && (forall f | f in spec.required :: Has(a, f))
       && (forall f | f in FIELDS && Has(a, f) :: f in spec.required || f in spec.optional)
       && GoodPoint(a.coordinate) && GoodPoint(a.start) && (a.kind.Zoom? ==> GoodRegion(a.region))
  }

  /** Action.Validate. */
  predicate ValidAction(a: Action) {
    GoodShape(a) && GoodFields(a)
  }

  predicate IsClick(kind: Kind) {
    kind.LeftClick? || kind.RightClick? || kind.MiddleClick? || kind.DoubleClick? || kind.TripleClick?
  }

  predicate IsPixel(p: Option<seq<int>>) {
    p.Some? ==> |p.value| == 2 && 0 <= p.value[0] < 100000 && 0 <= p.value[1] < 100000
  }

  /** The shape of a valid action, field by field: which kinds need it and which others may have it. */
  lemma ShapeByField(a: Action)
    ensures GoodShape(a) <==>
            && !a.kind.Unlisted? && IsPixel(a.coordinate) && IsPixel(a.start)
            && (IsClick(a.kind) || a.kind.MouseMove? || a.kind.LeftClickDrag? ==> a.coordinate.Some?)
            && (a.coordinate.Some? ==> IsClick(a.kind) || a.kind.MouseMove? || a.kind.LeftClickDrag?
                                       || a.kind.LeftMouseDown? || a.kind.LeftMouseUp? || a.kind.Scroll?)
            && (a.start.Some? <==> a.kind.LeftClickDrag?)
            && (a.kind.Type? || a.kind.Key? ==> a.text != "")
            && (a.text != "" ==>
                  IsClick(a.kind) || a.kind.LeftClickDrag? || a.kind.Scroll? || a.kind.Type? || a.kind.Key?)
            && (a.direction.NoDirection? <==> !a.kind.Scroll?) && (a.amount.Some? ==> a.kind.Scroll?)
            && (a.repeat.Some? ==> a.kind.Key?) && (a.duration.Some? ==> a.kind.Wait?)
            && (a.url.text != "" <==> a.kind.OpenUrl?) && (a.region.Some? <==> a.kind.Zoom?)
            && (a.region.Some? ==>
                  var r := a.region.value;
                  |r| == 4 && 0 <= r[0] < r[2] <= 100000 && 0 <= r[1] < r[3] <= 100000)
  {
  }

  predicate PointFits(p: Option<seq<int>>, width: int, height: int) {
    p.Some? && |p.value| == 2 ==> p.value[0] < width && p.value[1] < height
  }

  /** Action.CheckBounds. */
  predicate WithinBounds(a: Action, width: int, height: int) {
    && PointFits(a.coordinate, width, height) && PointFits(a.start, width, height)
    && (a.region.Some? && |a.region.value| == 4 ==> a.region.value[2] <= width && a.region.value[3] <= height)
  }

  predicate IsPoint(p: Option<seq<int>>, x: int, y: int) {
    p.Some? && p.value == [x, y]
  }

  /** A region reaches up to but excludes its far corner. */
  predicate InRegion(r: Option<seq<int>>, x: int, y: int) {
    r.Some? && |r.value| == 4 && r.value[0] <= x < r.value[2] && r.value[1] <= y < r.value[3]
  }

  /** The pixels that an action names: its points and every pixel of its region. */
  predicate Names(a: Action, x: int, y: int) {
    IsPoint(a.coordinate, x, y) || IsPoint(a.start, x, y) || InRegion(a.region, x, y)
  }

  /** For a valid action the two checks together mean that all it names is on the screen, and only
      then do they pass. */
  lemma BoundsMeanOnScreen(a: Action, width: int, height: int)
    requires GoodShape(a)
    ensures WithinBounds(a, width, height) <==> forall x, y | Names(a, x, y) :: 0 <= x < width && 0 <= y < height
  {
    hide SpecOf;
    RegionOnlyZoom(a);
    if a.coordinate.Some? {
      assert Names(a, a.coordinate.value[0], a.coordinate.value[1]);
    }
    if a.start.Some? {
      assert Names(a, a.start.value[0], a.start.value[1]);
    }
    if a.region.Some? {
      assert Names(a, a.region.value[2] - 1, a.region.value[3] - 1);
    }
  }

  lemma OnlyZoomTakesRegion(kind: Kind)
    requires SpecOf(kind).Some? && Region in SpecOf(kind).value.required + SpecOf(kind).value.optional
    ensures kind.Zoom?
  {
  }

  lemma RegionOnlyZoom(a: Action)
    requires GoodShape(a)
    ensures a.region.Some? ==> GoodRegion(a.region)
  {
    hide SpecOf, GoodRegion;
    if a.region.Some? {
      assert Region in FIELDS && Has(a, Region);
      OnlyZoomTakesRegion(a.kind);
    }
  }

  predicate IsAlphanumeric(c: char) {
    '0' <= c <= '9' || 'A' <= c <= 'Z' || 'a' <= c <= 'z'
  }

  predicate Identifier(s: string) {
    && 1 <= |s| <= 128 && IsAlphanumeric(s[0])
    && forall i | 0 < i < |s| :: IsAlphanumeric(s[i]) || s[i] in "_.:-"
  }

  datatype Request = Request(id: string, action: Action)

  /** What decoding the data of a screenshot reports. */
  datatype Header = Header(format: string, width: int, height: int)

  datatype Shot = Shot(mediaType: string, width: int, height: int, decoded: Option<Header>)

  datatype Point = Point(x: int, y: int)

  datatype Result = Result(
    requestID: string, ok: bool, error: string, denied: bool, screenshot: Option<Shot>, cursor: Option<Point>)

  predicate ValidScreenshot(s: Shot) {
    && s.mediaType in {"image/jpeg", "image/png"}
    && s.decoded.Some? && "image/" + s.decoded.value.format == s.mediaType
    && s.decoded.value.width == s.width && s.decoded.value.height == s.height
    && 0 < s.width <= 16384 && 0 < s.height <= 16384
  }

  predicate ValidResult(r: Result) {
    && Identifier(r.requestID)
    && (if r.ok then r.error == "" && !r.denied && r.screenshot.Some? else 1 <= |r.error| <= MAX_ERROR)
    && (r.cursor.Some? ==>
          -MAX_PIXELS <= r.cursor.value.x <= MAX_PIXELS && -MAX_PIXELS <= r.cursor.value.y <= MAX_PIXELS)
    && (r.screenshot.Some? ==> ValidScreenshot(r.screenshot.value))
  }

  datatype Operation = ConnectOp | NextOp | DisconnectOp | ResultOp | OtherOp

  datatype Exchange = Exchange(
    namespace: string, run: string, owner: string, sessionID: string, operation: Operation, requestID: string,
    result: Option<Result>)

  predicate ValidExchange(e: Exchange) {
    && Identifier(e.namespace) && Identifier(e.run) && Identifier(e.sessionID) && 1 <= |e.owner| <= 256
    && match e.operation
       case ResultOp => Identifier(e.requestID) && e.result.Some? && e.result.value.requestID == e.requestID
         && ValidResult(e.result.value)
       case OtherOp => false
       case _ => e.requestID == "" && e.result.None?
  }

  datatype Reason =
    | NoReason | NoSession | ForeignOwner | Ended | LoggedOff | StaleResult | ClosedRun | Invalid
    | OtherReason(text: string)

  datatype Response = Response(protocol: int, active: bool, available: bool, reason: Reason, request: Option<Request>)

  /** Response.Validate. */
  predicate ValidResponse(r: Response) {
    && r.protocol == PROTOCOL && !r.reason.OtherReason?
    && (r.request.Some? ==>
          r.active && Identifier(r.request.value.id) && !r.request.value.action.kind.Wait?
          && ValidAction(r.request.value.action))
  }
}
