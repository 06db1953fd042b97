/**
 * The splash screen shown while the caches load: its six short-lived handles, the
 * intro animation, the progress bar and the teardown, as the host calls they make.
 */
module LoadingScreen {
  import opened Outcomes
  import opened Host

  // Intro animation: a sheet of 546x327 cells, six per column, drawn at (143, 134).
  const AniX := 143
  const AniY := 134
  const AniW := 546
  const AniH := 327
  const AniVCellCount := 6
  const AniCellCount := 11

  // Progress bar and message box.
  const TX := 310
  const TY := 493
  const TW := 200
  const TH := 25
  const Steps := 5
  const BgX := 279
  const BgY := 453
  const BarMaxWidth := 260
  const BarHeight := 66

  /** The screen size the loading sequence switches to. */
  const SplashWidth := 800
  const SplashHeight := 600

  /** The range of C#'s 32-bit `int`. */
  predicate IsInt32(x: int)
  {
    -0x8000_0000 <= x < 0x8000_0000
  }

  /** C#'s `int`. */
  newtype int32 = x: int | IsInt32(x)

  /** C#'s wrap-around 32-bit integer arithmetic: the result modulo 2^32, read as signed. */
  function Wrap32(x: int): (r: int)
    ensures IsInt32(r)
    ensures (r - x) % 0x1_0000_0000 == 0
    ensures IsInt32(x) ==> r == x
  {
    (x + 0x8000_0000) % 0x1_0000_0000 - 0x8000_0000
  }

  /** C#'s integer division, which truncates toward zero. */
  function CsDiv(a: int, b: int): (q: int)
    requires b > 0
    ensures a >= 0 ==> 0 <= q * b <= a < q * b + b
    ensures a < 0 ==> q * b - b < a <= q * b <= 0
  {
    if a >= 0 then NonNegativeDivision(a, b); a / b else NegativeDivision(a, b); -((-a) / b)
  }

  /** For a non-negative dividend the quotient rounds down, toward zero. */
  lemma NonNegativeDivision(a: int, b: int)
    requires a >= 0 && b > 0
    ensures 0 <= (a / b) * b <= a < (a / b) * b + b
  {
    assert a == (a / b) * b + a % b;
  }

  /** For a negative dividend the quotient rounds up, toward zero. */
  lemma NegativeDivision(a: int, b: int)
    requires a < 0 && b > 0
    ensures -((-a) / b) * b - b < a <= -((-a) / b) * b <= 0
  {
    var d := (-a) / b;
    assert -a == d * b + (-a) % b;
    assert -(d) * b == -(d * b);
  }

  /** fullW of ShowMessage: the filled part of the progress bar at a stage, `260 * number / STEPS` on `int`. */
  function BarFill(number: int32): (w: int)
    ensures IsInt32(w)
    ensures 0 <= number <= Steps as int32 ==> 0 <= w <= BarMaxWidth
    ensures number == 0 ==> w == 0
    ensures number == Steps as int32 ==> w == BarMaxWidth
  {
    CsDiv(Wrap32(BarMaxWidth * number as int), Steps)
  }

  /** Without overflow the division is exact: every stage adds a fifth of the bar. */
  lemma BarFillExact(number: int32)
    requires 0 <= number && BarMaxWidth * number as int < 0x8000_0000
    ensures BarFill(number) == 52 * number as int
  {
    assert Wrap32(BarMaxWidth * number as int) == 5 * (52 * number as int);
  }

  /** Later stages never show less of the bar, as long as 260 * number does not overflow. */
  lemma BarFillMonotone(a: int32, b: int32)
    requires 0 <= a <= b && BarMaxWidth * b as int < 0x8000_0000
    ensures BarFill(a) <= BarFill(b)
  {
    BarFillExact(a);
    BarFillExact(b);
  }

  /** Past that point the product wraps around and the width turns negative. */
  lemma BarFillWraps()
    ensures BarFill(8259552) == 429496704
    ensures BarFill(8259553) == -429496703
  {
  }

  /** Where frame i of the intro is taken from on the sheet: column i / 6, row i % 6. */
  function CellOrigin(i: nat): (int, int)
  {
    ((i / AniVCellCount) * AniW, (i % AniVCellCount) * AniH)
  }

  /**
   * Cell offsets are whole multiples of the cell size, the cell's column and row
   * give back the frame number (the sheet is read column by column), and the
   * first eleven cells lie within a 1092x1962 sheet.
   */
  lemma CellOriginShape(i: nat)
    ensures var o := CellOrigin(i);
      && o.0 % AniW == 0 && o.1 % AniH == 0
      && 0 <= o.0 && 0 <= o.1 && o.1 + AniH <= AniVCellCount * AniH
      && (o.0 / AniW) * AniVCellCount + o.1 / AniH == i
      && (i < AniCellCount ==> o.0 + AniW <= 2 * AniW)
  {
  }

  /** The eleven frames come from eleven different cells. */
  lemma IntroCellsDistinct(i: nat, j: nat)
    requires i < AniCellCount && j < AniCellCount && i != j
    ensures CellOrigin(i) != CellOrigin(j)
  {
    CellOriginShape(i);
    CellOriginShape(j);
  }

  /** The six presentation-only handles, in the order ShowLoadingScreen loads them. */
  datatype Splash = Splash(background: Handle, animation: Handle, loadingFont: Handle,
                           startSound: Handle, loaderFull: Handle, loaderEmpty: Handle)

  /** The splash handles when the first of them is id n. */
  function SplashAt(n: nat): Splash
  {
    Splash(Handle(n), Handle(n + 1), Handle(n + 2), Handle(n + 3), Handle(n + 4), Handle(n + 5))
  }

  /** Which free primitive releases a splash handle, if it is one. */
  function SplashKind(s: Splash, h: Handle): Option<Kind>
  {
    if h == s.loadingFont then Some(FontKind)
    else if h == s.startSound then Some(SoundKind)
    else if h in {s.background, s.animation, s.loaderEmpty, s.loaderFull} then Some(BitmapKind)
    else None
  }

  /** One frame of PlaySwinGameIntro. */
  function FrameEvents(s: Splash, i: nat): seq<Event>
  {
    [ BitmapDrawn(s.background, 0, 0),
      BitmapPartDrawn(s.animation, CellOrigin(i).0, CellOrigin(i).1, AniW, AniH, AniX, AniY),
      Refreshed,
      EventsProcessed ]
  }

  /** The first `count` frames of the intro. */
  function IntroFrames(s: Splash, count: nat): (t: seq<Event>)
    ensures |t| == 4 * count
  {
    if count == 0 then [] else IntroFrames(s, count - 1) + FrameEvents(s, count - 1)
  }

  /** PlaySwinGameIntro: the start cue, then the frames. */
  function IntroEvents(s: Splash): seq<Event>
  {
    [SoundPlayed(s.startSound)] + IntroFrames(s, AniCellCount)
  }

  /** ShowLoadingScreen: the background is loaded and shown first, then the rest is loaded and the intro plays. */
  function ShowLoadingEvents(s: Splash): seq<Event>
  {
    [Loaded(BitmapKind, "SplashBack.png", Plain, s.background)]
      + [BitmapDrawn(s.background, 0, 0), Refreshed, EventsProcessed]
      + [ Loaded(BitmapKind, "SwinGameAni.jpg", Plain, s.animation),
          Loaded(FontKind, "arial.ttf", PointSize(12), s.loadingFont),
          Loaded(SoundKind, "SwinGameStart.ogg", Plain, s.startSound),
          Loaded(BitmapKind, "loader_full.png", Plain, s.loaderFull),
          Loaded(BitmapKind, "loader_empty.png", Plain, s.loaderEmpty) ]
      + IntroEvents(s)
  }

  /** ShowMessage: the empty bar, its filled part, the message, then a refresh. */
  function MessageEvents(s: Splash, message: string, number: int32): seq<Event>
  {
    [ BitmapDrawn(s.loaderEmpty, BgX, BgY),
      BitmapPartDrawn(s.loaderFull, 0, 0, BarFill(number), BarHeight, BgX, BgY),
      TextDrawn(message, s.loadingFont, TX, TY, TW, TH),
      Refreshed,
      EventsProcessed ]
  }

  /** EndLoadingScreen: clear the screen, free the six splash handles, restore the screen size. */
  function EndEvents(s: Splash, width: int, height: int): seq<Event>
  {
    [ EventsProcessed, ScreenCleared, Refreshed,
      Freed(FontKind, s.loadingFont),
      Freed(BitmapKind, s.background),
      Freed(BitmapKind, s.animation),
      Freed(BitmapKind, s.loaderEmpty),
      Freed(BitmapKind, s.loaderFull),
      Freed(SoundKind, s.startSound),
      ScreenResized(width, height) ]
  }

  /** The host calls of ShowLoadingScreen, one append at a time, make up its events. */
  lemma ShowLoadingAppend(t: seq<Event>, s: Splash)
    ensures t + [Loaded(BitmapKind, "SplashBack.png", Plain, s.background)] + [BitmapDrawn(s.background, 0, 0)]
        + [Refreshed] + [EventsProcessed] + [Loaded(BitmapKind, "SwinGameAni.jpg", Plain, s.animation)]
        + [Loaded(FontKind, "arial.ttf", PointSize(12), s.loadingFont)]
        + [Loaded(SoundKind, "SwinGameStart.ogg", Plain, s.startSound)]
        + [Loaded(BitmapKind, "loader_full.png", Plain, s.loaderFull)]
        + [Loaded(BitmapKind, "loader_empty.png", Plain, s.loaderEmpty)] + IntroEvents(s)
      == t + ShowLoadingEvents(s)
  {
  }

  /** The host calls of one intro frame make up FrameEvents. */
  lemma FrameAppend(t: seq<Event>, s: Splash, i: nat)
    ensures t + [BitmapDrawn(s.background, 0, 0)]
        + [BitmapPartDrawn(s.animation, CellOrigin(i).0, CellOrigin(i).1, AniW, AniH, AniX, AniY)]
        + [Refreshed] + [EventsProcessed]
      == t + FrameEvents(s, i)
  {
  }

  /** The host calls of ShowMessage make up MessageEvents. */
  lemma MessageAppend(t: seq<Event>, s: Splash, message: string, number: int32)
    ensures t + [BitmapDrawn(s.loaderEmpty, BgX, BgY)]
        + [BitmapPartDrawn(s.loaderFull, 0, 0, BarFill(number), BarHeight, BgX, BgY)]
        + [TextDrawn(message, s.loadingFont, TX, TY, TW, TH)] + [Refreshed] + [EventsProcessed]
      == t + MessageEvents(s, message, number)
  {
  }

  /** The host calls of EndLoadingScreen make up EndEvents. */
  lemma EndAppend(t: seq<Event>, s: Splash, width: int, height: int)
    ensures t + [EventsProcessed] + [ScreenCleared] + [Refreshed] + [Freed(FontKind, s.loadingFont)]
        + [Freed(BitmapKind, s.background)] + [Freed(BitmapKind, s.animation)]
        + [Freed(BitmapKind, s.loaderEmpty)] + [Freed(BitmapKind, s.loaderFull)]
        + [Freed(SoundKind, s.startSound)] + [ScreenResized(width, height)]
      == t + EndEvents(s, width, height)
  {
  }

  /** The cell each frame of the sheet is drawn from. */
  function FrameOf(sheet: Handle): Event -> Option<(int, int)>
  {
    (e: Event) => if e.BitmapPartDrawn? && e.bitmap == sheet then Some((e.srcX, e.srcY)) else None
  }

  lemma {:induction false} IntroFramesAt(s: Splash, count: nat, i: nat, j: nat)
    requires i < count && j < 4
    ensures IntroFrames(s, count)[4 * i + j] == FrameEvents(s, i)[j]
  {
    if i < count - 1 {
      IntroFramesAt(s, count - 1, i, j);
    }
  }

  /** A projection that keeps nothing of any frame keeps nothing of the intro frames. */
  lemma IntroFramesNothing<T>(s: Splash, count: nat, f: Event -> Option<T>)
    requires forall i: nat, j :: i < count && 0 <= j < 4 ==> f(FrameEvents(s, i)[j]).None?
    ensures Project(IntroFrames(s, count), f) == []
  {
    var t := IntroFrames(s, count);
    forall k | 0 <= k < |t| ensures f(t[k]).None? {
      IntroFramesAt(s, count, k / 4, k % 4);
    }
    ProjectNothing(t, f);
  }

  /** The cells the first `count` frames should come from, in order. */
  function IntroCells(count: nat): (r: seq<(int, int)>)
    ensures |r| == count
  {
    if count == 0 then [] else IntroCells(count - 1) + [CellOrigin(count - 1)]
  }

  lemma {:induction false} IntroCellsAt(count: nat, i: nat)
    requires i < count
    ensures IntroCells(count)[i] == CellOrigin(i)
  {
    if i < count - 1 {
      IntroCellsAt(count - 1, i);
    }
  }

  /** Frame i draws one part of the sheet, cell i. */
  lemma FrameCell(s: Splash, i: nat)
    ensures Project(FrameEvents(s, i), FrameOf(s.animation)) == [CellOrigin(i)]
  {
    ProjectSingle(FrameEvents(s, i), FrameOf(s.animation), 1);
  }

  /** The intro frames draw the sheet's cells 0, 1, 2, ... in order, one per frame. */
  lemma {:induction false} IntroFrameCells(s: Splash, count: nat)
    ensures Project(IntroFrames(s, count), FrameOf(s.animation)) == IntroCells(count)
  {
    if count > 0 {
      IntroFrameCells(s, count - 1);
      ProjectConcat(IntroFrames(s, count - 1), FrameEvents(s, count - 1), FrameOf(s.animation));
      FrameCell(s, count - 1);
    }
  }

  /** PlaySwinGameIntro draws exactly eleven frames, frame i from cell i, all eleven cells distinct. */
  lemma IntroDrawsElevenFrames(s: Splash)
    ensures Project(IntroEvents(s), FrameOf(s.animation)) == IntroCells(AniCellCount)
    ensures |IntroCells(AniCellCount)| == 11
    ensures forall i, j :: 0 <= i < j < AniCellCount ==> IntroCells(AniCellCount)[i] != IntroCells(AniCellCount)[j]
  {
    IntroFrameCells(s, AniCellCount);
    ProjectConcat([SoundPlayed(s.startSound)], IntroFrames(s, AniCellCount), FrameOf(s.animation));
    forall i, j | 0 <= i < j < AniCellCount
      ensures IntroCells(AniCellCount)[i] != IntroCells(AniCellCount)[j]
    {
      IntroCellsAt(AniCellCount, i);
      IntroCellsAt(AniCellCount, j);
      IntroCellsDistinct(i, j);
    }
  }
}
