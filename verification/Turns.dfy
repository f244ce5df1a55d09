/**
 Quarter turns between the frame, the screen Android draws, the natural panel, and the viewer's picture.
 */
module Turns {

  import opened Options

  datatype Point = Point(x: real, y: real)

  type Turn = t: int | t == 0 || t == 90 || t == 180 || t == 270 witness 0

  /** A normalised point carried to the same point of the picture turned clockwise; `toNaturalPoint` and the
      viewer's `turnPoint` are both this. */
  function TurnPoint(p: Point, t: Turn): Point {
    if t == 0 then p
    else if t == 90 then Point(1.0 - p.y, p.x)
    else if t == 180 then Point(1.0 - p.x, 1.0 - p.y)
    else Point(p.y, 1.0 - p.x)
  }

  /** JavaScript's remainder takes the sign of the dividend. */
  function Remainder(a: int, n: nat): int
    requires n > 0
  {
    if a >= 0 then a % n else -((-a) % n)
  }

  /** `(((a % 360) + 360) % 360)`. */
  function Normalised(a: int): int {
    Remainder(Remainder(a, 360) + 360, 360)
  }

  function Plus(a: Turn, b: Turn): Turn {
    (a + b) % 360
  }

  function Minus(a: Turn, b: Turn): (d: Turn)
    ensures d == Normalised(a - b)
  {
    (a - b) % 360
  }

  /** Turning twice is turning by the sum, as the integers modulo four turn. */
  lemma TurnsCompose(p: Point, a: Turn, b: Turn)
    ensures TurnPoint(TurnPoint(p, a), b) == TurnPoint(p, Plus(a, b))
  {
  }

  const TOP_LEFT := Point(0.0, 0.0)
  const TOP_RIGHT := Point(1.0, 0.0)
  const BOTTOM_RIGHT := Point(1.0, 1.0)
  const BOTTOM_LEFT := Point(0.0, 1.0)

  function Mix(a: real, b: real, k: real): real {
    (1.0 - k) * a + k * b
  }

  /** The point that divides the way from `p` to `q`. */
  function Way(p: Point, q: Point, k: real): Point {
    Point(Mix(p.x, q.x, k), Mix(p.y, q.y, k))
  }

  /** A quarter turn takes each corner of the picture clockwise to the next. */
  lemma TurnsClockwise()
    ensures TurnPoint(TOP_LEFT, 90) == TOP_RIGHT && TurnPoint(TOP_RIGHT, 90) == BOTTOM_RIGHT
    ensures TurnPoint(BOTTOM_RIGHT, 90) == BOTTOM_LEFT && TurnPoint(BOTTOM_LEFT, 90) == TOP_LEFT
  {
  }

  /** Every turn takes straight lines to straight lines, divided alike; so where the corners go says where all goes. */
  lemma TurnsStayStraight(p: Point, q: Point, k: real, t: Turn)
    ensures TurnPoint(Way(p, q, k), t) == Way(TurnPoint(p, t), TurnPoint(q, t), k)
  {
    hide Mix;
    BetweenTheFar(p.x, q.x, k);
    BetweenTheFar(p.y, q.y, k);
  }

  lemma BetweenTheFar(a: real, b: real, k: real)
    ensures Mix(1.0 - a, 1.0 - b, k) == 1.0 - Mix(a, b, k)
  {
    TimesFar(1.0 - k, a);
    TimesFar(k, b);
  }

  lemma TimesFar(x: real, a: real)
    ensures x * (1.0 - a) == x - x * a
  {
  }

  // ---------------------------------------------------------------- a touch on the frame

  /** The screen point of a touch measured on the frame, turned by the newest frame's skin; with no skin the
      frame is the screen. */
  function FromFrame(p: Point, skin: Option<Turn>, rotation: Option<Turn>): Point {
    if skin.None? then p
    else TurnPoint(p, Minus(skin.value, if rotation.Some? then rotation.value else 0))
  }

  /** The natural point of a screen point. */
  function ToNatural(p: Point, rotation: Option<Turn>): Point {
    if rotation.Some? && rotation.value != 0 then TurnPoint(p, rotation.value) else p
  }

  /** However the display is rotated, and however stale that rotation, a touch on the frame lands where the
      skin alone puts it; without a skin, where the rotation does. */
  lemma RotationCancels(p: Point, skin: Turn, rotation: Option<Turn>)
    ensures ToNatural(FromFrame(p, Some(skin), rotation), rotation) == TurnPoint(p, skin)
    ensures ToNatural(FromFrame(p, None, rotation), rotation) == TurnPoint(p, if rotation.Some? then rotation.value else 0)
  {
    var r: Turn := if rotation.Some? then rotation.value else 0;
    TurnsCompose(p, Minus(skin, r), r);
    assert Plus(Minus(skin, r), r) == skin;
  }

  // ---------------------------------------------------------------- the viewer's pointer

  datatype Rect = Rect(left: real, top: real, width: real, height: real)

  function Along(from: real, fraction: real, length: real): real {
    from + fraction * length
  }

  /** Where a fraction of a box is on the page. */
  function OnPage(f: Point, r: Rect): Point {
    Point(Along(r.left, f.x, r.width), Along(r.top, f.y, r.height))
  }

  function Fraction(p: Point, r: Rect): Point
    requires r.width > 0.0 && r.height > 0.0
  {
    Point((p.x - r.left) / r.width, (p.y - r.top) / r.height)
  }

  /** The pointer's point of the turned picture. */
  function IosFramePoint(f: Point, t: Turn): Point {
    if t == 90 then Point(f.y, 1.0 - f.x)
    else if t == 180 then Point(1.0 - f.x, 1.0 - f.y)
    else if t == 270 then Point(1.0 - f.y, f.x)
    else f
  }

  /** A composite point as a fraction of its screen, when it is on it. */
  function OnItsScreen(c: Point, screen: Rect): Option<Point>
    requires screen.width > 0.0 && screen.height > 0.0
  {
    if c.x < screen.left || c.x > screen.left + screen.width || c.y < screen.top || c.y > screen.top + screen.height then None
    else Some(Fraction(c, screen))
  }

  function Composite(f: Point, w: real, h: real): Point {
    Point(f.x * w, f.y * h)
  }

  function IosToNormScreen(p: Point, box: Rect, compositeW: real, compositeH: real, screen: Rect, t: Turn): Option<Point>
    requires box.width > 0.0 && box.height > 0.0 && screen.width > 0.0 && screen.height > 0.0
  {
    var f := IosFramePoint(Fraction(p, box), t);
    OnItsScreen(Composite(f, compositeW, compositeH), screen)
  }

  function AndroidToNorm(p: Point, box: Rect, quarter: bool): Option<Point>
    requires box.width > 0.0 && box.height > 0.0
  {
    var f := Fraction(p, box);
    if f.x < 0.0 || f.x > 1.0 || f.y < 0.0 || f.y > 1.0 then None
    else if quarter then Some(Point(f.y, 1.0 - f.x))
    else Some(f)
  }

  predicate InUnit(p: Point) {
    0.0 <= p.x <= 1.0 && 0.0 <= p.y <= 1.0
  }

  lemma Cancels(a: real, b: real)
    requires b > 0.0
    ensures a * b / b == a
  {
  }

  lemma FractionOfOnPage(f: Point, r: Rect)
    requires r.width > 0.0 && r.height > 0.0
    ensures Fraction(OnPage(f, r), r) == f
  {
    Cancels(f.x, r.width);
    Cancels(f.y, r.height);
  }

  /** The Android pointer map undoes the quarter the canvas was turned by, and refuses what is off it. */
  lemma AndroidUndoesItsTurn(p: Point, box: Rect, quarter: bool)
    requires box.width > 0.0 && box.height > 0.0
    ensures var drawn := OnPage(TurnPoint(p, if quarter then 90 else 0), box);
            AndroidToNorm(drawn, box, quarter) == if InUnit(p) then Some(p) else None
  {
    FractionOfOnPage(TurnPoint(p, if quarter then 90 else 0), box);
  }

  /** Where a point of the iOS screen is drawn: in its composite, turned, in the box. */
  function IosDrawn(p: Point, box: Rect, compositeW: real, compositeH: real, screen: Rect, t: Turn): Point
    requires compositeW > 0.0 && compositeH > 0.0
  {
    var c := OnPage(p, screen);
    OnPage(TurnPoint(Point(c.x / compositeW, c.y / compositeH), t), box)
  }

  lemma IosUndoesTurn(f: Point, t: Turn)
    ensures IosFramePoint(TurnPoint(f, t), t) == f
  {
  }

  lemma Scaled(a: real, n: real)
    requires n > 0.0
    ensures a / n * n == a
  {
  }

  lemma TimesSign(a: real, b: real)
    requires b > 0.0
    ensures 0.0 <= a * b <==> 0.0 <= a
    ensures a * b <= b <==> a <= 1.0
  {
    if a > 1.0 { assert (a - 1.0) * b > 0.0; } else { assert (1.0 - a) * b >= 0.0; }
    if a < 0.0 { assert (-a) * b > 0.0; } else { assert a * b >= 0.0; }
  }

  /** The iOS pointer map undoes the turn the device was drawn with, and refuses what is off its screen. */
  lemma IosUndoesItsTurn(p: Point, box: Rect, compositeW: real, compositeH: real, screen: Rect, t: Turn)
    requires box.width > 0.0 && box.height > 0.0 && screen.width > 0.0 && screen.height > 0.0
    requires compositeW > 0.0 && compositeH > 0.0
    ensures IosToNormScreen(IosDrawn(p, box, compositeW, compositeH, screen, t), box, compositeW, compositeH, screen, t) ==
            if InUnit(p) then Some(p) else None
  {
    hide OnPage, Fraction, TurnPoint, IosFramePoint, OnItsScreen, Composite;
    var c := OnPage(p, screen);
    var f := Point(c.x / compositeW, c.y / compositeH);
    FractionOfOnPage(TurnPoint(f, t), box);
    IosUndoesTurn(f, t);
    CompositeBack(c, compositeW, compositeH);
    FoundOnItsScreen(p, screen);
  }

  lemma CompositeBack(c: Point, w: real, h: real)
    requires w > 0.0 && h > 0.0
    ensures Composite(Point(c.x / w, c.y / h), w, h) == c
  {
    Scaled(c.x, w);
    Scaled(c.y, h);
  }

  lemma FoundOnItsScreen(p: Point, screen: Rect)
    requires screen.width > 0.0 && screen.height > 0.0
    ensures OnItsScreen(OnPage(p, screen), screen) == if InUnit(p) then Some(p) else None
  {
    hide OnPage, Fraction;
    FractionOfOnPage(p, screen);
    OnScreen(p, screen);
  }

  lemma BetweenEdges(l: real, a: real, b: real)
    requires b > 0.0
    ensures 0.0 <= a <= 1.0 <==> l <= Along(l, a, b) <= l + b
  {
    TimesSign(a, b);
  }

  lemma OnScreen(p: Point, screen: Rect)
    requires screen.width > 0.0 && screen.height > 0.0
    ensures var c := OnPage(p, screen);
            InUnit(p) <==> screen.left <= c.x <= screen.left + screen.width && screen.top <= c.y <= screen.top + screen.height
  {
    hide Along;
    BetweenEdges(screen.left, p.x, screen.width);
    BetweenEdges(screen.top, p.y, screen.height);
  }

  // ---------------------------------------------------------------- boxes

  datatype Size = Size(width: real, height: real)

  function TurnedSize(s: Size, t: Turn): Size {
    if t == 90 || t == 270 then Size(s.height, s.width) else s
  }

  /** The overlay's space is the frame turned by the stream alone, and its turn the rest of the way: the two
      together are the whole turn, of points and of sizes. */
  lemma OverlayReachesThePicture(p: Point, frame: Size, total: Turn, streamRotation: Turn)
    ensures var turn := Minus(total, streamRotation);
            && TurnPoint(TurnPoint(p, streamRotation), turn) == TurnPoint(p, total)
            && TurnedSize(TurnedSize(frame, streamRotation), turn) == TurnedSize(frame, total)
  {
    hide TurnPoint, TurnedSize;
    TurnsCompose(p, streamRotation, Minus(total, streamRotation));
    RestOfTheTurn(total, streamRotation);
    SizesCompose(frame, streamRotation, Minus(total, streamRotation));
  }

  lemma RestOfTheTurn(total: Turn, a: Turn)
    ensures Plus(a, Minus(total, a)) == total
  {
  }

  /** How far apart two points of a picture are, across and down. */
  function Apart(p: Point, q: Point, s: Size): Point {
    Point((q.x - p.x) * s.width, (q.y - p.y) * s.height)
  }

  /** Turning a picture with its size keeps every distance, across and down trading places at a quarter. */
  lemma TurnsAreRigid(p: Point, q: Point, s: Size, t: Turn)
    ensures var (was, now) := (Apart(p, q, s), Apart(TurnPoint(p, t), TurnPoint(q, t), TurnedSize(s, t)));
            now == if t == 0 then was
                   else if t == 90 then Point(-was.y, was.x)
                   else if t == 180 then Point(-was.x, -was.y)
                   else Point(was.y, -was.x)
  {
  }

  lemma SizesCompose(s: Size, a: Turn, b: Turn)
    ensures TurnedSize(TurnedSize(s, a), b) == TurnedSize(s, Plus(a, b))
  {
  }

  function SurfaceBox(t: Turn, c: Size): Rect {
    var s := TurnedSize(c, t);
    Rect((c.width - s.width) / 2.0, (c.height - s.height) / 2.0, s.width, s.height)
  }

  /** A box turned about its own centre. */
  function TurnedBox(r: Rect, t: Turn): Rect {
    var s := TurnedSize(Size(r.width, r.height), t);
    Rect(r.left + (r.width - s.width) / 2.0, r.top + (r.height - s.height) / 2.0, s.width, s.height)
  }

  /** Turning the surface lands it exactly on the shell. */
  lemma SurfaceLandsOnTheShell(t: Turn, c: Size)
    ensures TurnedBox(SurfaceBox(t, c), t) == Rect(0.0, 0.0, c.width, c.height)
  {
  }

  /** The largest scale at which the picture fits the canvas. */
  function FitScale(canvas: Size, pic: Size): real
    requires pic.width > 0.0 && pic.height > 0.0
  {
    var across, down := canvas.width / pic.width, canvas.height / pic.height;
    if across <= down then across else down
  }

  function Scale(s: Size, k: real): Size {
    Size(s.width * k, s.height * k)
  }

  function PlaceTurned(canvas: Size, frame: Size, t: Turn): Rect
    requires frame.width > 0.0 && frame.height > 0.0
  {
    var pic := TurnedSize(frame, t);
    var s := Scale(pic, FitScale(canvas, pic));
    Rect((canvas.width - s.width) / 2.0, (canvas.height - s.height) / 2.0, s.width, s.height)
  }

  lemma MoreIsMore(a: real, b: real, c: real)
    requires a <= b && c > 0.0
    ensures a * c <= b * c
  {
    assert (b - a) * c >= 0.0;
  }

  predicate SameShape(a: Size, b: Size) {
    a.width * b.height == a.height * b.width
  }

  lemma ScaleKeepsShape(s: Size, k: real)
    ensures SameShape(Scale(s, k), s)
  {
  }

  lemma FitScaleFits(canvas: Size, pic: Size)
    requires pic.width > 0.0 && pic.height > 0.0
    ensures var s := Scale(pic, FitScale(canvas, pic));
            s.width <= canvas.width && s.height <= canvas.height && (s.width == canvas.width || s.height == canvas.height)
  {
    var across, down := canvas.width / pic.width, canvas.height / pic.height;
    Scaled(canvas.width, pic.width);
    Scaled(canvas.height, pic.height);
    if across <= down { MoreIsMore(across, down, pic.height); } else { MoreIsMore(down, across, pic.width); }
  }

  /** A turned frame is centred in the canvas, inside it, as large as fits, and not stretched. */
  lemma PlacedFits(canvas: Size, frame: Size, t: Turn)
    requires frame.width > 0.0 && frame.height > 0.0
    ensures var r := PlaceTurned(canvas, frame, t);
            && r.width <= canvas.width && r.height <= canvas.height
            && (r.width == canvas.width || r.height == canvas.height)
            && r.left + r.width + r.left == canvas.width && r.top + r.height + r.top == canvas.height
            && SameShape(Size(r.width, r.height), TurnedSize(frame, t))
  {
    hide FitScale, Scale, SameShape;
    var pic := TurnedSize(frame, t);
    FitScaleFits(canvas, pic);
    ScaleKeepsShape(pic, FitScale(canvas, pic));
  }
}
