/**
 * LoadResources as a whole: the host calls of a run in which every registration
 * succeeds, and what that sequence shows about progress, frees and the screen.
 */
module Loading {
  import opened Outcomes
  import opened Host
  import opened Manifest
  import opened Dictionary
  import opened Registry
  import opened LoadingScreen

  const FontsText := "Loading fonts..."
  const ImagesText := "Loading images..."
  const SoundsText := "Loading sounds..."
  const MusicText := "Loading music..."
  const LoadedText := "Game loaded..."

  /** One loading phase: the message shown, the progress stage, and the manifest it loads. */
  datatype Stage = Stage(text: string, number: int32, kind: Kind, assets: seq<Asset>)

  /** The four phases of LoadResources, in the order it runs them. */
  const Plan: seq<Stage> := [
    Stage(FontsText, 0, FontKind, FontManifest),
    Stage(ImagesText, 1, BitmapKind, ImageManifest),
    Stage(SoundsText, 2, SoundKind, SoundManifest),
    Stage(MusicText, 3, MusicKind, MusicManifest)
  ]

  /** One phase: its message, then the loads of its manifest with ids from `first`. */
  function PhaseEvents(s: Splash, p: Stage, first: nat): seq<Event>
  {
    MessageEvents(s, p.text, p.number) + LoadEvents(p.kind, p.assets, first)
  }

  /** How many loads a list of phases makes. */
  function LoadCount(plan: seq<Stage>): nat
  {
    if plan == [] then 0 else |plan[0].assets| + LoadCount(plan[1..])
  }

  /** The phases in order, ids handed out consecutively from `first`. */
  function PlanEvents(s: Splash, plan: seq<Stage>, first: nat): seq<Event>
  {
    if plan == [] then [] else PhaseEvents(s, plan[0], first) + PlanEvents(s, plan[1..], first + |plan[0].assets|)
  }

  /** A plan's events are its first phase's, then those of the rest of the plan. */
  lemma PlanStep(s: Splash, plan: seq<Stage>, first: nat)
    requires plan != []
    ensures PlanEvents(s, plan, first) == PhaseEvents(s, plan[0], first) + PlanEvents(s, plan[1..], first + |plan[0].assets|)
  {
  }

  /** The switch to the splash size and the splash screen with its intro. */
  function Prologue(s: Splash): seq<Event>
  {
    [ScreenResized(SplashWidth, SplashHeight)] + ShowLoadingEvents(s)
  }

  /** A run of `plan` with ids from n: the prologue, the phases, the final message, the teardown. */
  function TraceOf(width: int, height: int, n: nat, plan: seq<Stage>): seq<Event>
  {
    Prologue(SplashAt(n)) + PlanEvents(SplashAt(n), plan, n + 6) + MessageEvents(SplashAt(n), LoadedText, 5)
      + EndEvents(SplashAt(n), width, height)
  }

  /**
   * The host calls of LoadResources when the host hands out ids from n and every
   * registration succeeds: the splash takes ids n..n+5, the manifests the 49 after it.
   */
  function LoadingTrace(width: int, height: int, n: nat): seq<Event>
  {
    TraceOf(width, height, n, Plan)
  }

  /** One phase from caches c, trace t and id n: its message, then the New* calls of its manifest. */
  function PhaseRun(c: Caches, t: seq<Event>, n: nat, s: Splash, text: string, number: int32, kind: Kind): Run
  {
    Apply(Run(c.Of(kind), t + MessageEvents(s, text, number), n, None), kind, ManifestOf(kind))
  }

  /** The caches, the host's trace and id counter, and the exception, if any, after some phases. */
  datatype Progress = Progress(caches: Caches, events: seq<Event>, next: nat, failed: Option<Error>)
  {
    function Verdict(): Outcome<Error>
    {
      match failed
      case None => Pass
      case Some(e) => Fail(e)
    }
  }

  /** The next phase, unless an earlier one threw. */
  function Then(p: Progress, s: Splash, text: string, number: int32, kind: Kind): Progress
  {
    if p.failed.Some? then p
    else
      var r := PhaseRun(p.caches, p.events, p.next, s, text, number, kind);
      Progress(p.caches.With(kind, r.cache), r.events, r.next, r.failed)
  }

  /** The four phases of LoadResources, in order, up to the first exception. */
  function PhasesRun(c: Caches, t: seq<Event>, n: nat, s: Splash): Progress
  {
    var p0 := Progress(c, t, n, None);
    Then(Then(Then(Then(p0, s, FontsText, 0, FontKind), s, ImagesText, 1, BitmapKind),
              s, SoundsText, 2, SoundKind), s, MusicText, 3, MusicKind)
  }

  /** One phase completes exactly when its manifest is fresh for its cache. */
  lemma PhaseFresh(p: Progress, s: Splash, text: string, number: int32, kind: Kind)
    requires p.failed.None?
    ensures Then(p, s, text, number, kind).failed.None? <==> FreshFor(ManifestOf(kind), p.caches.Of(kind))
  {
    ManifestPhase(p.caches.Of(kind), p.events + MessageEvents(s, text, number), p.next, kind);
  }

  /**
   * A phase that completes adds its manifest to its cache with consecutive ids and
   * appends its message and its loads.
   */
  lemma PhaseDone(p: Progress, s: Splash, text: string, number: int32, kind: Kind)
    requires p.failed.None? && Then(p, s, text, number, kind).failed.None?
    ensures var q := Then(p, s, text, number, kind);
      && q.caches == p.caches.With(kind, p.caches.Of(kind) + ManifestMap(ManifestOf(kind), p.next))
      && q.next == p.next + |ManifestOf(kind)|
      && q.events == p.events + MessageEvents(s, text, number) + LoadEvents(kind, ManifestOf(kind), p.next)
  {
    ManifestPhase(p.caches.Of(kind), p.events + MessageEvents(s, text, number), p.next, kind);
  }

  /** A phase that throws throws DuplicateKey for a name of its manifest already in its cache. */
  lemma PhaseFailure(p: Progress, s: Splash, text: string, number: int32, kind: Kind)
    requires p.failed.None? && Then(p, s, text, number, kind).failed.Some?
    ensures var e := Then(p, s, text, number, kind).failed.value;
      e.DuplicateKey? && e.key in Names(ManifestOf(kind)) && e.key in p.caches.Of(kind)
  {
    ManifestPhase(p.caches.Of(kind), p.events + MessageEvents(s, text, number), p.next, kind);
  }

  /**
   * LoadResources' phases, started with ids from n + 6 after the splash: they all
   * complete exactly when no manifest name is cached yet, and then leave the loaded
   * caches, ids up to n + 54 and the plan's events; otherwise the exception is a
   * DuplicateKey for a manifest name already in that manifest's cache.
   */
  lemma PhasesMeaning(c: Caches, t: seq<Event>, n: nat, s: Splash)
    ensures var p := PhasesRun(c, t, n + 6, s);
      && (p.failed.None? <==> ManifestsFresh(c))
      && (p.failed.None? ==>
            && p.caches == LoadedCaches(c, n) && p.next == n + 55
            && p.events == t + MessageEvents(s, FontsText, 0) + LoadEvents(FontKind, FontManifest, n + 6)
                 + MessageEvents(s, ImagesText, 1) + LoadEvents(BitmapKind, ImageManifest, n + 11)
                 + MessageEvents(s, SoundsText, 2) + LoadEvents(SoundKind, SoundManifest, n + 34)
                 + MessageEvents(s, MusicText, 3) + LoadEvents(MusicKind, MusicManifest, n + 51))
      && (p.failed.Some? ==> p.failed.value.DuplicateKey? && StaleName(c, p.failed.value.key))
  {
    if PhasesRun(c, t, n + 6, s).failed.None? {
      PhasesPass(c, t, n, s);
    } else {
      PhasesFail(c, t, n, s);
    }
  }

  lemma PhasesPass(c: Caches, t: seq<Event>, n: nat, s: Splash)
    requires PhasesRun(c, t, n + 6, s).failed.None?
    ensures var p := PhasesRun(c, t, n + 6, s);
      && ManifestsFresh(c) && p.caches == LoadedCaches(c, n) && p.next == n + 55
      && p.events == t + MessageEvents(s, FontsText, 0) + LoadEvents(FontKind, FontManifest, n + 6)
           + MessageEvents(s, ImagesText, 1) + LoadEvents(BitmapKind, ImageManifest, n + 11)
           + MessageEvents(s, SoundsText, 2) + LoadEvents(SoundKind, SoundManifest, n + 34)
           + MessageEvents(s, MusicText, 3) + LoadEvents(MusicKind, MusicManifest, n + 51)
  {
    PhasesPassFresh(c, t, n, s);
    PhasesPassCaches(c, t, n, s);
    PhasesPassEvents(c, t, n, s);
  }

  lemma PhasesPassFresh(c: Caches, t: seq<Event>, n: nat, s: Splash)
    requires PhasesRun(c, t, n + 6, s).failed.None?
    ensures ManifestsFresh(c)
  {
    ManifestsFreshEach(c);
    var p0 := Progress(c, t, n + 6, None);
    var p1 := Then(p0, s, FontsText, 0, FontKind);
    var p2 := Then(p1, s, ImagesText, 1, BitmapKind);
    var p3 := Then(p2, s, SoundsText, 2, SoundKind);
    PhaseFresh(p0, s, FontsText, 0, FontKind);
    PhaseFresh(p1, s, ImagesText, 1, BitmapKind);
    PhaseFresh(p2, s, SoundsText, 2, SoundKind);
    PhaseFresh(p3, s, MusicText, 3, MusicKind);
    assert p3.caches.Of(MusicKind) == p2.caches.Of(MusicKind) == p1.caches.Of(MusicKind) == c.Of(MusicKind);
    assert p2.caches.Of(SoundKind) == p1.caches.Of(SoundKind) == c.Of(SoundKind);
    assert p1.caches.Of(BitmapKind) == c.Of(BitmapKind);
  }

  lemma PhasesPassCaches(c: Caches, t: seq<Event>, n: nat, s: Splash)
    requires PhasesRun(c, t, n + 6, s).failed.None?
    ensures PhasesRun(c, t, n + 6, s).caches == LoadedCaches(c, n)
  {
    ManifestSizes();
    PhasesLoaded(c, n);
    var p0 := Progress(c, t, n + 6, None);
    var p1 := Then(p0, s, FontsText, 0, FontKind);
    var p2 := Then(p1, s, ImagesText, 1, BitmapKind);
    var p3 := Then(p2, s, SoundsText, 2, SoundKind);
    var c1 := c.With(FontKind, c.Of(FontKind) + ManifestMap(ManifestOf(FontKind), n + 6));
    var c2 := c1.With(BitmapKind, c1.Of(BitmapKind) + ManifestMap(ManifestOf(BitmapKind), n + 11));
    var c3 := c2.With(SoundKind, c2.Of(SoundKind) + ManifestMap(ManifestOf(SoundKind), n + 34));
    PhaseDone(p0, s, FontsText, 0, FontKind);
    assert p1.caches == c1 && p1.next == n + 11;
    PhaseDone(p1, s, ImagesText, 1, BitmapKind);
    assert p2.caches == c2 && p2.next == n + 34;
    PhaseDone(p2, s, SoundsText, 2, SoundKind);
    assert p3.caches == c3 && p3.next == n + 51;
    PhaseDone(p3, s, MusicText, 3, MusicKind);
  }

  lemma PhasesPassEvents(c: Caches, t: seq<Event>, n: nat, s: Splash)
    requires PhasesRun(c, t, n + 6, s).failed.None?
    ensures var p := PhasesRun(c, t, n + 6, s);
      && p.next == n + 55
      && p.events == t + MessageEvents(s, FontsText, 0) + LoadEvents(FontKind, FontManifest, n + 6)
           + MessageEvents(s, ImagesText, 1) + LoadEvents(BitmapKind, ImageManifest, n + 11)
           + MessageEvents(s, SoundsText, 2) + LoadEvents(SoundKind, SoundManifest, n + 34)
           + MessageEvents(s, MusicText, 3) + LoadEvents(MusicKind, MusicManifest, n + 51)
  {
    ManifestSizes();
    var p0 := Progress(c, t, n + 6, None);
    var p1 := Then(p0, s, FontsText, 0, FontKind);
    var p2 := Then(p1, s, ImagesText, 1, BitmapKind);
    var p3 := Then(p2, s, SoundsText, 2, SoundKind);
    PhaseDone(p0, s, FontsText, 0, FontKind);
    assert p1.next == n + 11;
    PhaseDone(p1, s, ImagesText, 1, BitmapKind);
    assert p2.next == n + 34;
    PhaseDone(p2, s, SoundsText, 2, SoundKind);
    assert p3.next == n + 51;
    PhaseDone(p3, s, MusicText, 3, MusicKind);
  }

  lemma PhasesFail(c: Caches, t: seq<Event>, n: nat, s: Splash)
    requires PhasesRun(c, t, n + 6, s).failed.Some?
    ensures var e := PhasesRun(c, t, n + 6, s).failed.value;
      !ManifestsFresh(c) && e.DuplicateKey? && StaleName(c, e.key)
  {
    var p0 := Progress(c, t, n + 6, None);
    var p1 := Then(p0, s, FontsText, 0, FontKind);
    var p2 := Then(p1, s, ImagesText, 1, BitmapKind);
    var p3 := Then(p2, s, SoundsText, 2, SoundKind);
    if p1.failed.Some? {
      PhaseStale(c, p0, s, FontsText, 0, FontKind);
    } else if p2.failed.Some? {
      PhaseDone(p0, s, FontsText, 0, FontKind);
      PhaseStale(c, p1, s, ImagesText, 1, BitmapKind);
    } else if p3.failed.Some? {
      PhaseDone(p0, s, FontsText, 0, FontKind);
      PhaseDone(p1, s, ImagesText, 1, BitmapKind);
      PhaseStale(c, p2, s, SoundsText, 2, SoundKind);
    } else {
      PhaseDone(p0, s, FontsText, 0, FontKind);
      PhaseDone(p1, s, ImagesText, 1, BitmapKind);
      PhaseDone(p2, s, SoundsText, 2, SoundKind);
      PhaseStale(c, p3, s, MusicText, 3, MusicKind);
    }
  }

  /** A phase that throws, started on its kind's original cache, names an asset already cached. */
  lemma PhaseStale(c: Caches, p: Progress, s: Splash, text: string, number: int32, kind: Kind)
    requires p.failed.None? && Then(p, s, text, number, kind).failed.Some? && p.caches.Of(kind) == c.Of(kind)
    ensures var e := Then(p, s, text, number, kind).failed.value;
      !ManifestsFresh(c) && e.DuplicateKey? && StaleName(c, e.key)
  {
    PhaseFailure(p, s, text, number, kind);
    CachedNameStale(c, kind, Then(p, s, text, number, kind).failed.value.key);
  }

  /** The id of the first load of a kind's phase when the splash took ids n..n+5. */
  function FirstId(kind: Kind, n: nat): nat
  {
    match kind
    case FontKind => n + 6
    case BitmapKind => n + 11
    case SoundKind => n + 34
    case MusicKind => n + 51
  }

  /** The caches after such a run: each manifest added to its cache with its ids. */
  function LoadedCaches(c: Caches, n: nat): Caches
  {
    Caches(c.fonts + ManifestMap(FontManifest, FirstId(FontKind, n)),
           c.images + ManifestMap(ImageManifest, FirstId(BitmapKind, n)),
           c.sounds + ManifestMap(SoundManifest, FirstId(SoundKind, n)),
           c.music + ManifestMap(MusicManifest, FirstId(MusicKind, n)))
  }

  /**
   * The four phases, each adding its manifest to its own cache with ids from n + 6,
   * n + 11, n + 34 and n + 51, end in the loaded caches; each phase starts on its
   * kind's original cache.
   */
  lemma PhasesLoaded(c0: Caches, n: nat)
    ensures var c1 := c0.With(FontKind, c0.Of(FontKind) + ManifestMap(ManifestOf(FontKind), n + 6));
      var c2 := c1.With(BitmapKind, c1.Of(BitmapKind) + ManifestMap(ManifestOf(BitmapKind), n + 11));
      var c3 := c2.With(SoundKind, c2.Of(SoundKind) + ManifestMap(ManifestOf(SoundKind), n + 34));
      var c4 := c3.With(MusicKind, c3.Of(MusicKind) + ManifestMap(ManifestOf(MusicKind), n + 51));
      && c1.Of(BitmapKind) == c0.Of(BitmapKind)
      && c2.Of(SoundKind) == c0.Of(SoundKind)
      && c3.Of(MusicKind) == c0.Of(MusicKind)
      && c4 == LoadedCaches(c0, n)
  {
  }

  lemma LoadedOf(c: Caches, n: nat, kind: Kind)
    ensures LoadedCaches(c, n).Of(kind) == c.Of(kind) + ManifestMap(ManifestOf(kind), FirstId(kind, n))
  {
  }

  /**
   * After a successful LoadResources, GameFont, GameImage, GameSound and GameMusic
   * find every manifest name, each at the handle of its own load.
   */
  lemma LoadedLookup(c: Caches, n: nat, kind: Kind, k: nat)
    requires k < |ManifestOf(kind)|
    ensures ManifestOf(kind)[k].name in LoadedCaches(c, n).Of(kind)
    ensures LoadedCaches(c, n).Of(kind)[ManifestOf(kind)[k].name] == Handle(FirstId(kind, n) + k)
  {
    LoadedOf(c, n, kind);
    ManifestsDistinct(kind);
    ManifestMapAt(ManifestOf(kind), FirstId(kind, n), k);
  }

  /** The handles LoadResources caches are never the splash handles that EndLoadingScreen frees. */
  lemma LoadedAvoidsSplash(c: Caches, n: nat, kind: Kind, key: string)
    requires Below(c, n) && key in LoadedCaches(c, n).Of(kind)
    ensures SplashKind(SplashAt(n), LoadedCaches(c, n).Of(kind)[key]).None?
  {
    LoadedOf(c, n, kind);
    var m, first := c.Of(kind), FirstId(kind, n);
    assert forall key :: key in m ==> m[key].id < n;
    CachedIdOutside(m, ManifestOf(kind), first, n, key);
  }

  /** No cached handle has an id in lo..hi-1. */
  ghost predicate CachesOutside(c: Caches, lo: nat, hi: nat)
  {
    forall kind :: Outside(c.Of(kind), lo, hi)
  }

  /** A phase run with the counter past hi caches no id in lo..hi-1, and the counter stays past hi. */
  lemma ThenOutside(p: Progress, s: Splash, text: string, number: int32, kind: Kind, lo: nat, hi: nat)
    requires CachesOutside(p.caches, lo, hi) && hi <= p.next
    ensures CachesOutside(Then(p, s, text, number, kind).caches, lo, hi) && hi <= Then(p, s, text, number, kind).next
  {
    if p.failed.None? {
      ApplyOutside(Run(p.caches.Of(kind), p.events + MessageEvents(s, text, number), p.next, None),
                   kind, ManifestOf(kind), lo, hi);
    }
  }

  /**
   * Whether LoadResources completes or stops at a DuplicateKey, none of the six
   * splash handles is ever cached, so the cache never holds a handle that
   * EndLoadingScreen frees.
   */
  lemma RunAvoidsSplash(c: Caches, t: seq<Event>, width: int, height: int, n: nat, kind: Kind, key: string)
    requires Below(c, n) && key in LoadingRunOf(c, t, width, height, n).caches.Of(kind)
    ensures SplashKind(SplashAt(n), LoadingRunOf(c, t, width, height, n).caches.Of(kind)[key]).None?
  {
    var s := SplashAt(n);
    var p0 := Progress(c, t + [ScreenResized(SplashWidth, SplashHeight)] + ShowLoadingEvents(s), n + 6, None);
    assert CachesOutside(p0.caches, n, n + 6);
    var p1 := Then(p0, s, FontsText, 0, FontKind);
    ThenOutside(p0, s, FontsText, 0, FontKind, n, n + 6);
    var p2 := Then(p1, s, ImagesText, 1, BitmapKind);
    ThenOutside(p1, s, ImagesText, 1, BitmapKind, n, n + 6);
    var p3 := Then(p2, s, SoundsText, 2, SoundKind);
    ThenOutside(p2, s, SoundsText, 2, SoundKind, n, n + 6);
    ThenOutside(p3, s, MusicText, 3, MusicKind, n, n + 6);
    assert LoadingRunOf(c, t, width, height, n).caches == Then(p3, s, MusicText, 3, MusicKind).caches;
  }

  /** A handle of a cache below n extended by a manifest from id n + 6 on is none of the ids n..n+5. */
  lemma CachedIdOutside(m: map<string, Handle>, assets: seq<Asset>, first: nat, n: nat, key: string)
    requires forall k :: k in m ==> m[k].id < n
    requires n + 6 <= first && key in m + ManifestMap(assets, first)
    ensures SplashKind(SplashAt(n), (m + ManifestMap(assets, first))[key]).None?
  {
    ManifestMapShape(assets, first);
  }

  /** What a reader of the trace sees of the sequence: the messages shown and the kinds loaded. */
  datatype Milestone = Shown(text: string) | Fetched(kind: Kind)

  function MilestoneOf(e: Event): Option<Milestone>
  {
    match e
    case TextDrawn(text, _, _, _, _, _) => Some(Shown(text))
    case Loaded(kind, _, _, _) => Some(Fetched(kind))
    case _ => None
  }

  /** The width of each part of the progress bar drawn. */
  function FillOf(bar: Handle): Event -> Option<int>
  {
    (e: Event) => if e.BitmapPartDrawn? && e.bitmap == bar then Some(e.width) else None
  }

  /** The screen sizes set. */
  function ResizeOf(e: Event): Option<(int, int)>
  {
    if e.ScreenResized? then Some((e.width, e.height)) else None
  }

  function Repeat<T>(v: T, count: nat): seq<T>
  {
    seq(count, _ => v)
  }

  /** The milestones a plan should show: each message, then one fetch per asset of its manifest. */
  function PlanMilestones(plan: seq<Stage>): seq<Milestone>
  {
    if plan == [] then [] else [Shown(plan[0].text)] + Repeat(Fetched(plan[0].kind), |plan[0].assets|) + PlanMilestones(plan[1..])
  }

  /** The bar fills a plan should show: one per phase, that phase's stage. */
  function PlanFills(plan: seq<Stage>): seq<int>
  {
    if plan == [] then [] else [BarFill(plan[0].number)] + PlanFills(plan[1..])
  }

  /** A projection of a whole run is the projections of its four segments, in order. */
  lemma ProjectTrace<T>(width: int, height: int, n: nat, plan: seq<Stage>, f: Event -> Option<T>)
    ensures Project(TraceOf(width, height, n, plan), f) ==
      Project(Prologue(SplashAt(n)), f) + Project(PlanEvents(SplashAt(n), plan, n + 6), f)
        + Project(MessageEvents(SplashAt(n), LoadedText, 5), f) + Project(EndEvents(SplashAt(n), width, height), f)
  {
    var s := SplashAt(n);
    var a := Prologue(s);
    var b := PlanEvents(s, plan, n + 6);
    var c := MessageEvents(s, LoadedText, 5);
    ProjectConcat(a, b, f);
    ProjectConcat(a + b, c, f);
    ProjectConcat(a + b + c, EndEvents(s, width, height), f);
  }

  /** The prologue's part of a projection: the resize, the nine splash calls, the start cue, the frames. */
  lemma ProjectPrologue<T>(s: Splash, f: Event -> Option<T>)
    ensures Project(Prologue(s), f) ==
      Project([ScreenResized(SplashWidth, SplashHeight)], f) + Project(ShowLoadingEvents(s)[..9], f)
        + Project([SoundPlayed(s.startSound)], f) + Project(IntroFrames(s, AniCellCount), f)
  {
    var t := ShowLoadingEvents(s);
    var r := [ScreenResized(SplashWidth, SplashHeight)];
    assert Prologue(s) == r + t[..9] + [SoundPlayed(s.startSound)] + IntroFrames(s, AniCellCount);
    ProjectConcat(r, t[..9], f);
    ProjectConcat(r + t[..9], [SoundPlayed(s.startSound)], f);
    ProjectConcat(r + t[..9] + [SoundPlayed(s.startSound)], IntroFrames(s, AniCellCount), f);
  }

  lemma ManifestNothing<T>(kind: Kind, assets: seq<Asset>, first: nat, f: Event -> Option<T>)
    requires forall file, option, h :: f(Loaded(kind, file, option, h)).None?
    ensures Project(LoadEvents(kind, assets, first), f) == []
  {
    var t := LoadEvents(kind, assets, first);
    assert forall i :: 0 <= i < |t| ==> t[i] == Loaded(kind, assets[i].file, assets[i].option, Handle(first + i));
    ProjectNothing(t, f);
  }

  /** A projection that ignores loads, the progress bar, its message box and refreshes. */
  ghost predicate BlindToPhases<T>(s: Splash, f: Event -> Option<T>)
  {
    && (forall kind, file, option, h :: f(Loaded(kind, file, option, h)).None?)
    && f(BitmapDrawn(s.loaderEmpty, BgX, BgY)).None? && f(Refreshed).None? && f(EventsProcessed).None?
    && (forall w :: f(BitmapPartDrawn(s.loaderFull, 0, 0, w, BarHeight, BgX, BgY)).None?)
    && (forall text :: f(TextDrawn(text, s.loadingFont, TX, TY, TW, TH)).None?)
  }

  lemma MessageQuiet<T>(s: Splash, text: string, number: int32, f: Event -> Option<T>)
    requires BlindToPhases(s, f)
    ensures Project(MessageEvents(s, text, number), f) == []
  {
    ProjectNothing(MessageEvents(s, text, number), f);
  }

  lemma PhaseQuiet<T>(s: Splash, p: Stage, first: nat, f: Event -> Option<T>)
    requires BlindToPhases(s, f)
    ensures Project(PhaseEvents(s, p, first), f) == []
  {
    ProjectConcat(MessageEvents(s, p.text, p.number), LoadEvents(p.kind, p.assets, first), f);
    MessageQuiet(s, p.text, p.number, f);
    ManifestNothing(p.kind, p.assets, first, f);
  }

  /** A projection that sees nothing of any one phase... */
  ghost predicate QuietPhases<T>(s: Splash, f: Event -> Option<T>)
  {
    forall p: Stage, first: nat :: Project(PhaseEvents(s, p, first), f) == []
  }

  lemma BlindQuiet<T>(s: Splash, f: Event -> Option<T>)
    requires BlindToPhases(s, f)
    ensures QuietPhases(s, f)
  {
    forall p: Stage, first: nat {
      PhaseQuiet(s, p, first, f);
    }
  }

  /** ... sees nothing of a sequence of phases. */
  lemma {:induction false} PlanQuiet<T>(s: Splash, plan: seq<Stage>, first: nat, f: Event -> Option<T>)
    requires QuietPhases(s, f)
    ensures Project(PlanEvents(s, plan, first), f) == []
    decreases |plan|
  {
    if plan != [] {
      var p, rest := plan[0], PlanEvents(s, plan[1..], first + |plan[0].assets|);
      PlanQuiet(s, plan[1..], first + |p.assets|, f);
      ProjectConcat(PhaseEvents(s, p, first), rest, f);
      assert Project(PhaseEvents(s, p, first), f) == [];
    }
  }

  /** A projection blind to the phases sees nothing of them nor of the final message. */
  lemma MiddleQuiet<T>(s: Splash, plan: seq<Stage>, first: nat, f: Event -> Option<T>)
    requires BlindToPhases(s, f)
    ensures Project(PlanEvents(s, plan, first), f) + Project(MessageEvents(s, LoadedText, 5), f) == []
  {
    BlindQuiet(s, f);
    PlanQuiet(s, plan, first, f);
    MessageQuiet(s, LoadedText, 5, f);
  }

  /** A projection that ignores loads, the background, the start cue and the resize sees of the prologue only the frames. */
  lemma PrologueFrames<T>(s: Splash, f: Event -> Option<T>)
    requires forall kind, file, option, h :: f(Loaded(kind, file, option, h)).None?
    requires f(BitmapDrawn(s.background, 0, 0)).None? && f(Refreshed).None? && f(EventsProcessed).None?
    requires f(SoundPlayed(s.startSound)).None? && f(ScreenResized(SplashWidth, SplashHeight)).None?
    ensures Project(Prologue(s), f) == Project(IntroFrames(s, AniCellCount), f)
  {
    ProjectPrologue(s, f);
    ProjectNothing([ScreenResized(SplashWidth, SplashHeight)], f);
    ProjectNothing(ShowLoadingEvents(s)[..9], f);
    ProjectNothing([SoundPlayed(s.startSound)], f);
  }

  /** The splash screen loads two bitmaps, a font, a sound and two more bitmaps, and shows no message. */
  lemma SplashMilestones(s: Splash)
    ensures Project(Prologue(s), MilestoneOf) ==
      [Fetched(BitmapKind), Fetched(BitmapKind), Fetched(FontKind), Fetched(SoundKind), Fetched(BitmapKind), Fetched(BitmapKind)]
  {
    ProjectPrologue(s, MilestoneOf);
    ProjectNothing([ScreenResized(SplashWidth, SplashHeight)], MilestoneOf);
    SplashLoadMilestones(s);
    ProjectNothing([SoundPlayed(s.startSound)], MilestoneOf);
    IntroFramesNothing(s, AniCellCount, MilestoneOf);
  }

  /** The six loads of ShowLoadingScreen, around the background's first display. */
  lemma SplashLoadMilestones(s: Splash)
    ensures Project(ShowLoadingEvents(s)[..9], MilestoneOf) ==
      [Fetched(BitmapKind), Fetched(BitmapKind), Fetched(FontKind), Fetched(SoundKind), Fetched(BitmapKind), Fetched(BitmapKind)]
  {
    var t := ShowLoadingEvents(s)[..9];
    var a, b, c := t[..1], t[1..4], t[4..];
    assert t == a + b + c;
    ProjectConcat(a, b, MilestoneOf);
    ProjectConcat(a + b, c, MilestoneOf);
    ProjectSingle(a, MilestoneOf, 0);
    ProjectNothing(b, MilestoneOf);
    ProjectEach(c, MilestoneOf);
  }

  lemma MessageMilestone(s: Splash, message: string, number: int32)
    ensures Project(MessageEvents(s, message, number), MilestoneOf) == [Shown(message)]
  {
    ProjectSingle(MessageEvents(s, message, number), MilestoneOf, 2);
  }

  lemma ManifestMilestones(kind: Kind, assets: seq<Asset>, first: nat)
    ensures Project(LoadEvents(kind, assets, first), MilestoneOf) == Repeat(Fetched(kind), |assets|)
  {
    ProjectEach(LoadEvents(kind, assets, first), MilestoneOf);
  }

  /** A phase shows its message, then loads its whole manifest, all of its kind. */
  lemma PhaseMilestones(s: Splash, p: Stage, first: nat)
    ensures Project(PhaseEvents(s, p, first), MilestoneOf) == [Shown(p.text)] + Repeat(Fetched(p.kind), |p.assets|)
  {
    ProjectConcat(MessageEvents(s, p.text, p.number), LoadEvents(p.kind, p.assets, first), MilestoneOf);
    MessageMilestone(s, p.text, p.number);
    ManifestMilestones(p.kind, p.assets, first);
  }

  /** The phases keep their order: the milestones of a plan are those of its phases, one after another. */
  lemma {:induction false} PlanShowsMilestones(s: Splash, plan: seq<Stage>, first: nat)
    ensures Project(PlanEvents(s, plan, first), MilestoneOf) == PlanMilestones(plan)
    decreases |plan|
  {
    if plan != [] {
      var p := plan[0];
      PlanShowsMilestones(s, plan[1..], first + |p.assets|);
      PhaseMilestones(s, p, first);
      ProjectConcat(PhaseEvents(s, p, first), PlanEvents(s, plan[1..], first + |p.assets|), MilestoneOf);
    }
  }

  /** Phase ordering over a whole run: the splash loads, then the plan's milestones, then the final message. */
  lemma TraceMilestones(width: int, height: int, n: nat, plan: seq<Stage>)
    ensures Project(TraceOf(width, height, n, plan), MilestoneOf) ==
      [Fetched(BitmapKind), Fetched(BitmapKind), Fetched(FontKind), Fetched(SoundKind), Fetched(BitmapKind), Fetched(BitmapKind)]
      + PlanMilestones(plan) + [Shown(LoadedText)]
  {
    var s := SplashAt(n);
    ProjectTrace(width, height, n, plan, MilestoneOf);
    SplashMilestones(s);
    PlanShowsMilestones(s, plan, n + 6);
    MessageMilestone(s, LoadedText, 5);
    ProjectNothing(EndEvents(s, width, height), MilestoneOf);
  }

  /** The rest of the plan after its first k phases. */
  lemma PlanSuffixes()
    ensures Plan[1..] == [Plan[1], Plan[2], Plan[3]]
    ensures Plan[1..][1..] == [Plan[2], Plan[3]]
    ensures Plan[1..][1..][1..] == [Plan[3]]
    ensures Plan[1..][1..][1..][1..] == []
  {
  }

  /** The plan's phases start at ids n + 6, n + 11, n + 34 and n + 51. */
  lemma PlanUnfolds(s: Splash, n: nat)
    ensures PlanEvents(s, Plan, n + 6) ==
      PhaseEvents(s, Plan[0], n + 6) + (PhaseEvents(s, Plan[1], n + 11) + (PhaseEvents(s, Plan[2], n + 34)
        + (PhaseEvents(s, Plan[3], n + 51) + [])))
  {
    ManifestSizes();
    PlanSuffixes();
    var r1 := Plan[1..];
    var r2 := r1[1..];
    var r3 := r2[1..];
    assert PlanEvents(s, r3, n + 51) == PhaseEvents(s, Plan[3], n + 51) + PlanEvents(s, r3[1..], n + 55);
    assert PlanEvents(s, r2, n + 34) == PhaseEvents(s, Plan[2], n + 34) + PlanEvents(s, r3, n + 51);
    assert PlanEvents(s, r1, n + 11) == PhaseEvents(s, Plan[1], n + 11) + PlanEvents(s, r2, n + 34);
  }

  /** LoadResources' run, call by call as the method makes them. */
  lemma LoadingTraceSplit(width: int, height: int, n: nat)
    ensures var s := SplashAt(n);
      LoadingTrace(width, height, n) ==
        [ScreenResized(SplashWidth, SplashHeight)] + ShowLoadingEvents(s)
        + MessageEvents(s, FontsText, 0) + LoadEvents(FontKind, FontManifest, n + 6)
        + MessageEvents(s, ImagesText, 1) + LoadEvents(BitmapKind, ImageManifest, n + 11)
        + MessageEvents(s, SoundsText, 2) + LoadEvents(SoundKind, SoundManifest, n + 34)
        + MessageEvents(s, MusicText, 3) + LoadEvents(MusicKind, MusicManifest, n + 51)
        + MessageEvents(s, LoadedText, 5) + EndEvents(s, width, height)
  {
    PlanUnfolds(SplashAt(n), n);
  }

  /** The whole run, call by call as LoadResources makes them, appended to what came before. */
  lemma LoadingTraceAppend(t: seq<Event>, width: int, height: int, n: nat)
    ensures var s := SplashAt(n);
      t + [ScreenResized(SplashWidth, SplashHeight)] + ShowLoadingEvents(s)
        + MessageEvents(s, FontsText, 0) + LoadEvents(FontKind, FontManifest, n + 6)
        + MessageEvents(s, ImagesText, 1) + LoadEvents(BitmapKind, ImageManifest, n + 11)
        + MessageEvents(s, SoundsText, 2) + LoadEvents(SoundKind, SoundManifest, n + 34)
        + MessageEvents(s, MusicText, 3) + LoadEvents(MusicKind, MusicManifest, n + 51)
        + MessageEvents(s, LoadedText, 5) + EndEvents(s, width, height)
      == t + LoadingTrace(width, height, n)
  {
    LoadingTraceSplit(width, height, n);
  }

  /**
   * LoadResources as a function of the caches, the trace and the next id before it
   * and the screen size it restores: the splash, the four phases and, when none
   * of them threw, the closing message and the restored screen.
   */
  function LoadingRunOf(c: Caches, t: seq<Event>, width: int, height: int, n: nat): Progress
  {
    var s := SplashAt(n);
    var p := PhasesRun(c, t + [ScreenResized(SplashWidth, SplashHeight)] + ShowLoadingEvents(s), n + 6, s);
    if p.failed.Some? then p
    else p.(events := p.events + MessageEvents(s, LoadedText, 5) + EndEvents(s, width, height))
  }

  /**
   * LoadResources completes exactly when no manifest name is cached yet, and then
   * leaves the loaded caches, ids up to n + 54 and the plan's trace; otherwise the
   * exception is a DuplicateKey for a manifest name already in its kind's cache.
   */
  lemma LoadingRun(c: Caches, t: seq<Event>, width: int, height: int, n: nat)
    ensures var q := LoadingRunOf(c, t, width, height, n);
      && (q.failed.None? <==> ManifestsFresh(c))
      && (q.failed.None? ==>
            && q.caches == LoadedCaches(c, n) && q.next == n + 55
            && q.events == t + LoadingTrace(width, height, n))
      && (q.failed.Some? ==> q.failed.value.DuplicateKey? && StaleName(c, q.failed.value.key))
  {
    var s := SplashAt(n);
    PhasesMeaning(c, t + [ScreenResized(SplashWidth, SplashHeight)] + ShowLoadingEvents(s), n, s);
    LoadingTraceAppend(t, width, height, n);
  }

  /** No cache at all: the state LoadResources starts from in the program. */
  const NoCaches := Caches(map[], map[], map[], map[])

  /** LoadResources on empty caches never meets a duplicate name and ends in the loaded caches. */
  lemma FirstLoad(t: seq<Event>, width: int, height: int, n: nat)
    ensures var q := LoadingRunOf(NoCaches, t, width, height, n);
      q.failed.None? && q.caches == LoadedCaches(NoCaches, n) && q.events == t + LoadingTrace(width, height, n)
  {
    assert ManifestsFresh(NoCaches);
    LoadingRun(NoCaches, t, width, height, n);
  }

  /**
   * Loaded from empty caches, each cache holds exactly its manifest's names, one entry
   * per asset (by ManifestSizes, 5 fonts, 23 images, 17 sounds and 4 pieces of music).
   */
  lemma FirstLoadCaches(n: nat)
    ensures var c := LoadedCaches(NoCaches, n);
      && (forall kind :: |c.Of(kind)| == |ManifestOf(kind)|)
      && (forall kind, key :: key in c.Of(kind) <==> key in Names(ManifestOf(kind)))
  {
    var c := LoadedCaches(NoCaches, n);
    forall kind ensures (forall key :: key in c.Of(kind) <==> key in Names(ManifestOf(kind)))
      && |c.Of(kind)| == |ManifestOf(kind)|
    {
      FirstLoadOf(NoCaches, n, kind);
    }
  }

  lemma FirstLoadOf(c: Caches, n: nat, kind: Kind)
    requires c.Of(kind) == map[]
    ensures forall key :: key in LoadedCaches(c, n).Of(kind) <==> key in Names(ManifestOf(kind))
    ensures |LoadedCaches(c, n).Of(kind)| == |ManifestOf(kind)|
  {
    LoadedOf(c, n, kind);
    ManifestsDistinct(kind);
    EmptyCacheNames(c.Of(kind), ManifestOf(kind), FirstId(kind, n));
  }

  lemma EmptyCacheNames(m: map<string, Handle>, assets: seq<Asset>, first: nat)
    requires m == map[] && DistinctNames(assets)
    ensures forall key :: key in m + ManifestMap(assets, first) <==> key in Names(assets)
    ensures |m + ManifestMap(assets, first)| == |assets|
  {
    assert m + ManifestMap(assets, first) == ManifestMap(assets, first);
    ManifestMapNames(assets, first);
  }

  /** The milestones of LoadResources' plan, phase by phase. */
  lemma PlanMilestonesUnfold()
    ensures PlanMilestones(Plan) ==
      [Shown(FontsText)] + Repeat(Fetched(FontKind), 5)
      + ([Shown(ImagesText)] + Repeat(Fetched(BitmapKind), 23)
      + ([Shown(SoundsText)] + Repeat(Fetched(SoundKind), 17)
      + ([Shown(MusicText)] + Repeat(Fetched(MusicKind), 4) + [])))
  {
    ManifestSizes();
    PlanSuffixes();
    var r1 := Plan[1..];
    var r2 := r1[1..];
    var r3 := r2[1..];
    assert PlanMilestones(r3) == [Shown(MusicText)] + Repeat(Fetched(MusicKind), 4) + PlanMilestones(r3[1..]);
    assert PlanMilestones(r2) == [Shown(SoundsText)] + Repeat(Fetched(SoundKind), 17) + PlanMilestones(r3);
    assert PlanMilestones(r1) == [Shown(ImagesText)] + Repeat(Fetched(BitmapKind), 23) + PlanMilestones(r2);
  }

  /**
   * In LoadResources: "Loading fonts..." comes before the 5 font loads, "Loading
   * images..." before the 23 image loads, then the 17 sounds and the 4 pieces of
   * music after their messages, and "Game loaded..." after everything.
   */
  lemma LoadingMilestones(width: int, height: int, n: nat)
    ensures Project(LoadingTrace(width, height, n), MilestoneOf) ==
      [Fetched(BitmapKind), Fetched(BitmapKind), Fetched(FontKind), Fetched(SoundKind), Fetched(BitmapKind), Fetched(BitmapKind)]
      + ([Shown(FontsText)] + Repeat(Fetched(FontKind), 5)
      + ([Shown(ImagesText)] + Repeat(Fetched(BitmapKind), 23)
      + ([Shown(SoundsText)] + Repeat(Fetched(SoundKind), 17)
      + ([Shown(MusicText)] + Repeat(Fetched(MusicKind), 4) + []))))
      + [Shown(LoadedText)]
  {
    TraceMilestones(width, height, n, Plan);
    PlanMilestonesUnfold();
  }

  lemma MessageFill(s: Splash, message: string, number: int32)
    ensures Project(MessageEvents(s, message, number), FillOf(s.loaderFull)) == [BarFill(number)]
  {
    ProjectSingle(MessageEvents(s, message, number), FillOf(s.loaderFull), 1);
  }

  /** A phase draws the bar once, filled to its own stage. */
  lemma PhaseFill(s: Splash, p: Stage, first: nat)
    ensures Project(PhaseEvents(s, p, first), FillOf(s.loaderFull)) == [BarFill(p.number)]
  {
    var f := FillOf(s.loaderFull);
    ProjectConcat(MessageEvents(s, p.text, p.number), LoadEvents(p.kind, p.assets, first), f);
    MessageFill(s, p.text, p.number);
    ManifestNothing(p.kind, p.assets, first, f);
  }

  /** The phases draw the bar once each, in plan order. */
  lemma {:induction false} PlanShowsFills(s: Splash, plan: seq<Stage>, first: nat)
    ensures Project(PlanEvents(s, plan, first), FillOf(s.loaderFull)) == PlanFills(plan)
    decreases |plan|
  {
    if plan != [] {
      var p, f := plan[0], FillOf(s.loaderFull);
      var head, rest := PhaseEvents(s, p, first), PlanEvents(s, plan[1..], first + |p.assets|);
      PlanStep(s, plan, first);
      PlanShowsFills(s, plan[1..], first + |p.assets|);
      PhaseFill(s, p, first);
      ProjectJoin(head, rest, f, [BarFill(p.number)], PlanFills(plan[1..]));
    }
  }

  /** The splash screen draws no part of the bar: the only sheet part it draws is the animation's. */
  lemma PrologueFills(s: Splash)
    requires s.animation != s.loaderFull
    ensures Project(Prologue(s), FillOf(s.loaderFull)) == []
  {
    PrologueFrames(s, FillOf(s.loaderFull));
    FramesUnfilled(s);
    IntroFramesNothing(s, AniCellCount, FillOf(s.loaderFull));
  }

  lemma FramesUnfilled(s: Splash)
    requires s.animation != s.loaderFull
    ensures forall i: nat, j :: i < AniCellCount && 0 <= j < 4 ==> FillOf(s.loaderFull)(FrameEvents(s, i)[j]).None?
  {
  }

  /** Over a whole run the bar is drawn once per phase and once more at stage 5. */
  lemma TraceFills(width: int, height: int, n: nat, plan: seq<Stage>)
    ensures Project(TraceOf(width, height, n, plan), FillOf(SplashAt(n).loaderFull)) == PlanFills(plan) + [BarFill(5)]
  {
    var s := SplashAt(n);
    var f := FillOf(s.loaderFull);
    ProjectTrace(width, height, n, plan, f);
    PrologueFills(s);
    PlanShowsFills(s, plan, n + 6);
    MessageFill(s, LoadedText, 5);
    ProjectNothing(EndEvents(s, width, height), f);
  }

  /**
   * In LoadResources the bar shows stages 0, 1, 2, 3 and 5 in that order, growing
   * by a fifth each time from empty to full, and never the fill of stage 4.
   */
  lemma LoadingProgress(width: int, height: int, n: nat)
    ensures Project(LoadingTrace(width, height, n), FillOf(SplashAt(n).loaderFull)) ==
      [BarFill(0), BarFill(1), BarFill(2), BarFill(3), BarFill(5)]
    ensures Project(LoadingTrace(width, height, n), FillOf(SplashAt(n).loaderFull)) == [0, 52, 104, 156, 260]
    ensures BarFill(4) !in Project(LoadingTrace(width, height, n), FillOf(SplashAt(n).loaderFull))
  {
    TraceFills(width, height, n, Plan);
    PlanSuffixes();
    assert PlanFills(Plan[1..][1..][1..]) == [BarFill(3)];
    assert PlanFills(Plan[1..][1..]) == [BarFill(2), BarFill(3)];
    assert PlanFills(Plan) == [BarFill(0), BarFill(1), BarFill(2), BarFill(3)];
    BarFillExact(1);
    BarFillExact(2);
    BarFillExact(3);
    BarFillExact(4);
  }

  /** The frame projection ignores the phases. */
  lemma FramesBlind(s: Splash)
    requires s.animation != s.loaderFull
    ensures BlindToPhases(s, FrameOf(s.animation))
  {
  }

  /** The prologue draws the animation sheet's cells 0 to 10, in order, and nothing else of it. */
  lemma PrologueCells(s: Splash)
    ensures Project(Prologue(s), FrameOf(s.animation)) == IntroCells(AniCellCount)
  {
    PrologueFrames(s, FrameOf(s.animation));
    IntroFrameCells(s, AniCellCount);
  }

  /** The intro's frames are the only parts of the animation sheet drawn: cells 0 to 10, in order. */
  lemma TraceFrames(width: int, height: int, n: nat, plan: seq<Stage>)
    ensures Project(TraceOf(width, height, n, plan), FrameOf(SplashAt(n).animation)) == IntroCells(AniCellCount)
  {
    var s := SplashAt(n);
    var f := FrameOf(s.animation);
    ProjectTrace(width, height, n, plan, f);
    PrologueCells(s);
    FramesBlind(s);
    MiddleQuiet(s, plan, n + 6, f);
    ProjectNothing(EndEvents(s, width, height), f);
  }

  /** The prologue sets the screen size once, to 800x600. */
  lemma PrologueResizes(s: Splash)
    ensures Project(Prologue(s), ResizeOf) == [(SplashWidth, SplashHeight)]
  {
    ProjectPrologue(s, ResizeOf);
    ProjectSingle([ScreenResized(SplashWidth, SplashHeight)], ResizeOf, 0);
    ProjectNothing(ShowLoadingEvents(s)[..9], ResizeOf);
    ProjectNothing([SoundPlayed(s.startSound)], ResizeOf);
    IntroFramesNothing(s, AniCellCount, ResizeOf);
  }

  /** The screen is switched to 800x600 first and back to the captured size last. */
  lemma TraceResizes(width: int, height: int, n: nat, plan: seq<Stage>)
    ensures Project(TraceOf(width, height, n, plan), ResizeOf) == [(SplashWidth, SplashHeight), (width, height)]
  {
    var s := SplashAt(n);
    ProjectTrace(width, height, n, plan, ResizeOf);
    PrologueResizes(s);
    MiddleQuiet(s, plan, n + 6, ResizeOf);
    ProjectSingle(EndEvents(s, width, height), ResizeOf, 9);
  }

  /** The teardown frees each splash handle once, with the free call of its kind, and nothing else. */
  lemma EndFrees(s: Splash, width: int, height: int, h: Handle)
    requires s == SplashAt(s.background.id)
    ensures Project(EndEvents(s, width, height), FreedOf(h)) ==
      if SplashKind(s, h).Some? then [SplashKind(s, h).value] else []
  {
    var t := EndEvents(s, width, height);
    if h == s.loadingFont {
      ProjectSingle(t, FreedOf(h), 3);
    } else if h == s.background {
      ProjectSingle(t, FreedOf(h), 4);
    } else if h == s.animation {
      ProjectSingle(t, FreedOf(h), 5);
    } else if h == s.loaderEmpty {
      ProjectSingle(t, FreedOf(h), 6);
    } else if h == s.loaderFull {
      ProjectSingle(t, FreedOf(h), 7);
    } else if h == s.startSound {
      ProjectSingle(t, FreedOf(h), 8);
    } else {
      ProjectNothing(t, FreedOf(h));
    }
  }

  /** Nothing is freed before the teardown. */
  lemma PrologueFrees(s: Splash, h: Handle)
    ensures Project(Prologue(s), FreedOf(h)) == []
  {
    PrologueFrames(s, FreedOf(h));
    FramesUnfreed(s, h);
    IntroFramesNothing(s, AniCellCount, FreedOf(h));
  }

  lemma FramesUnfreed(s: Splash, h: Handle)
    ensures forall i: nat, j :: i < AniCellCount && 0 <= j < 4 ==> FreedOf(h)(FrameEvents(s, i)[j]).None?
  {
  }

  lemma FreesBlind(s: Splash, h: Handle)
    ensures BlindToPhases(s, FreedOf(h))
  {
  }

  /**
   * Over a whole run each of the six splash handles is freed exactly once, with
   * the free of its own kind, and no other handle is freed at all.
   */
  lemma TraceFrees(width: int, height: int, n: nat, plan: seq<Stage>, h: Handle)
    ensures Project(TraceOf(width, height, n, plan), FreedOf(h)) ==
      if SplashKind(SplashAt(n), h).Some? then [SplashKind(SplashAt(n), h).value] else []
  {
    var s := SplashAt(n);
    ProjectTrace(width, height, n, plan, FreedOf(h));
    PrologueFrees(s, h);
    FreesBlind(s, h);
    MiddleQuiet(s, plan, n + 6, FreedOf(h));
    EndFrees(s, width, height, h);
  }
}
