/**
 * The graphics, audio and window layer (SwinGame) as the resource cache sees it.
 * Nothing is decoded or drawn: every call is recorded in one trace, loads hand out
 * handles from a counter, and the screen size is two integers.
 */
module Host {
  import opened Outcomes

  /** An opaque handle to a host resource. Ids are issued in increasing order. */
  datatype Handle = Handle(id: nat)

  /** The four resource categories, which are also the four free primitives. */
  datatype Kind = FontKind | BitmapKind | SoundKind | MusicKind

  /** A colour value, passed through to the host unchanged. */
  datatype Colour = Colour(argb: int)

  /** The extra argument of a load call: a font's point size or a bitmap's transparent key. */
  datatype LoadOption = Plain | PointSize(size: int) | ColourKey(key: Colour)

  /** One call on the host. */
  datatype Event =
    | Loaded(kind: Kind, file: string, option: LoadOption, handle: Handle)
    | Freed(kind: Kind, handle: Handle)
    | ScreenResized(width: int, height: int)
    | BitmapDrawn(bitmap: Handle, x: int, y: int)
    | BitmapPartDrawn(bitmap: Handle, srcX: int, srcY: int, width: int, height: int, x: int, y: int)
    | TextDrawn(text: string, font: Handle, x: int, y: int, width: int, height: int)
    | SoundPlayed(sound: Handle)
    | Refreshed
    | EventsProcessed
    | ScreenCleared

  /** The values a projection keeps from a trace, in trace order. */
  function Project<T>(t: seq<Event>, f: Event -> Option<T>): (r: seq<T>)
    ensures |r| <= |t|
  {
    if t == [] then []
    else Project(t[..|t| - 1], f) + (match f(t[|t| - 1]) case Some(v) => [v] case None => [])
  }

  lemma {:induction false} ProjectConcat<T>(a: seq<Event>, b: seq<Event>, f: Event -> Option<T>)
    ensures Project(a + b, f) == Project(a, f) + Project(b, f)
    decreases |b|
  {
    if b == [] {
      assert a + b == a;
    } else {
      var b' := b[..|b| - 1];
      assert (a + b)[..|a + b| - 1] == a + b';
      ProjectConcat(a, b', f);
    }
  }

  /** A projection that keeps nothing of a trace gives the empty sequence. */
  lemma {:induction false} ProjectNothing<T>(t: seq<Event>, f: Event -> Option<T>)
    requires forall i :: 0 <= i < |t| ==> f(t[i]).None?
    ensures Project(t, f) == []
    decreases |t|
  {
    if t != [] {
      ProjectNothing(t[..|t| - 1], f);
    }
  }

  /** Projections of two segments known separately give the projection of their concatenation. */
  lemma ProjectJoin<T>(a: seq<Event>, b: seq<Event>, f: Event -> Option<T>, x: seq<T>, y: seq<T>)
    requires Project(a, f) == x && Project(b, f) == y
    ensures Project(a + b, f) == x + y
  {
    ProjectConcat(a, b, f);
  }

  /** A projection that keeps exactly one event of a trace gives that event's value. */
  lemma ProjectSingle<T>(t: seq<Event>, f: Event -> Option<T>, k: nat)
    requires k < |t| && f(t[k]).Some?
    requires forall i :: 0 <= i < |t| && i != k ==> f(t[i]).None?
    ensures Project(t, f) == [f(t[k]).value]
  {
    assert t == t[..k] + [t[k]] + t[k + 1..];
    ProjectConcat(t[..k] + [t[k]], t[k + 1..], f);
    ProjectConcat(t[..k], [t[k]], f);
    assert [t[k]][..0] == [];
    ProjectNothing(t[..k], f);
    ProjectNothing(t[k + 1..], f);
  }

  /** A projection that keeps every event of a trace gives one value per event. */
  lemma {:induction false} ProjectEach<T>(t: seq<Event>, f: Event -> Option<T>)
    requires forall i :: 0 <= i < |t| ==> f(t[i]).Some?
    ensures Project(t, f) == seq(|t|, i requires 0 <= i < |t| => f(t[i]).value)
    decreases |t|
  {
    if t != [] {
      ProjectEach(t[..|t| - 1], f);
    }
  }

  /** Under which kinds a handle is freed, once per free call. */
  function FreedOf(h: Handle): Event -> Option<Kind>
  {
    (e: Event) => if e.Freed? && e.handle == h then Some(e.kind) else None
  }

  class Host {
    /** The id the next load hands out. */
    var next: nat
    var screenWidth: int
    var screenHeight: int
    /** Every call made on the host so far, oldest first. */
    var trace: seq<Event>

    constructor (width: int, height: int)
      ensures next == 0 && trace == []
      ensures screenWidth == width && screenHeight == height
    {
      next, trace := 0, [];
      screenWidth, screenHeight := width, height;
    }

    /** LoadFont, LoadBitmap and LoadSoundEffect/LoadMusic of a resource file. */
    method Load(kind: Kind, file: string, option: LoadOption) returns (h: Handle)
      modifies this`next, this`trace
      ensures h == Handle(old(next)) && next == old(next) + 1
      ensures trace == old(trace) + [Loaded(kind, file, option, h)]
    {
      h := Handle(next);
      next := next + 1;
      trace := trace + [Loaded(kind, file, option, h)];
    }

    /** FreeFont, FreeBitmap, FreeSoundEffect and FreeMusic. */
    method Free(kind: Kind, h: Handle)
      modifies this`trace
      ensures trace == old(trace) + [Freed(kind, h)]
    {
      trace := trace + [Freed(kind, h)];
    }

    method ChangeScreenSize(width: int, height: int)
      modifies this`screenWidth, this`screenHeight, this`trace
      ensures screenWidth == width && screenHeight == height
      ensures trace == old(trace) + [ScreenResized(width, height)]
    {
      screenWidth, screenHeight := width, height;
      trace := trace + [ScreenResized(width, height)];
    }

    method DrawBitmap(bitmap: Handle, x: int, y: int)
      modifies this`trace
      ensures trace == old(trace) + [BitmapDrawn(bitmap, x, y)]
    {
      trace := trace + [BitmapDrawn(bitmap, x, y)];
    }

    method DrawBitmapPart(bitmap: Handle, srcX: int, srcY: int, width: int, height: int, x: int, y: int)
      modifies this`trace
      ensures trace == old(trace) + [BitmapPartDrawn(bitmap, srcX, srcY, width, height, x, y)]
    {
      trace := trace + [BitmapPartDrawn(bitmap, srcX, srcY, width, height, x, y)];
    }

    /** DrawTextLines; its colours and alignment are not recorded. */
    method DrawTextLines(text: string, font: Handle, x: int, y: int, width: int, height: int)
      modifies this`trace
      ensures trace == old(trace) + [TextDrawn(text, font, x, y, width, height)]
    {
      trace := trace + [TextDrawn(text, font, x, y, width, height)];
    }

    method PlaySoundEffect(sound: Handle)
      modifies this`trace
      ensures trace == old(trace) + [SoundPlayed(sound)]
    {
      trace := trace + [SoundPlayed(sound)];
    }

    method RefreshScreen()
      modifies this`trace
      ensures trace == old(trace) + [Refreshed]
    {
      trace := trace + [Refreshed];
    }

    method ProcessEvents()
      modifies this`trace
      ensures trace == old(trace) + [EventsProcessed]
    {
      trace := trace + [EventsProcessed];
    }

    method ClearScreen()
      modifies this`trace
      ensures trace == old(trace) + [ScreenCleared]
    {
      trace := trace + [ScreenCleared];
    }
  }
}
