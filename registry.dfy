/**
 * The four name-to-handle caches as one value, the meaning of a loading phase
 * (one New* call per manifest entry, stopping at the first exception), and the
 * free events of the teardown loops.
 */
module Registry {
  import opened Outcomes
  import opened Host
  import opened Dictionary
  import opened Manifest

  datatype Caches = Caches(fonts: map<string, Handle>, images: map<string, Handle>,
                           sounds: map<string, Handle>, music: map<string, Handle>)
  {
    function Of(kind: Kind): map<string, Handle>
    {
      match kind
      case FontKind => fonts
      case BitmapKind => images
      case SoundKind => sounds
      case MusicKind => music
    }

    /** The caches with the one of `kind` replaced. */
    function With(kind: Kind, m: map<string, Handle>): (c: Caches)
      ensures c.Of(kind) == m && forall k :: k != kind ==> c.Of(k) == Of(k)
    {
      match kind
      case FontKind => this.(fonts := m)
      case BitmapKind => this.(images := m)
      case SoundKind => this.(sounds := m)
      case MusicKind => this.(music := m)
    }
  }

  /** Replacing a kind's cache twice keeps only the second replacement. */
  lemma WithTwice(c: Caches, kind: Kind, m1: map<string, Handle>, m2: map<string, Handle>)
    ensures c.With(kind, m1).With(kind, m2) == c.With(kind, m2)
  {
  }

  /** Every cached handle has an id below `next`, so it was handed out by an earlier load. */
  ghost predicate Below(c: Caches, next: nat)
  {
    forall kind, key :: key in c.Of(kind) ==> c.Of(kind)[key].id < next
  }

  /** No handle is stored under two names, in one cache or across caches. */
  ghost predicate Exclusive(c: Caches)
  {
    forall kind1, key1, kind2, key2 ::
      key1 in c.Of(kind1) && key2 in c.Of(kind2) && c.Of(kind1)[key1] == c.Of(kind2)[key2] ==>
        kind1 == kind2 && key1 == key2
  }

  /** No manifest names an asset its cache already holds. */
  ghost predicate ManifestsFresh(c: Caches)
  {
    forall kind, i :: 0 <= i < |ManifestOf(kind)| ==> ManifestOf(kind)[i].name !in c.Of(kind)
  }

  /** A manifest whose names are all absent from a cache. */
  ghost predicate FreshFor(assets: seq<Asset>, m: map<string, Handle>)
  {
    forall i :: 0 <= i < |assets| ==> assets[i].name !in m
  }

  /** The caches are fresh for the manifests exactly when each of the four is fresh for its own cache. */
  lemma ManifestsFreshEach(c: Caches)
    ensures ManifestsFresh(c) <==>
      && FreshFor(ManifestOf(FontKind), c.Of(FontKind)) && FreshFor(ManifestOf(BitmapKind), c.Of(BitmapKind))
      && FreshFor(ManifestOf(SoundKind), c.Of(SoundKind)) && FreshFor(ManifestOf(MusicKind), c.Of(MusicKind))
  {
  }

  /** A name of some manifest that is already in that manifest's cache. */
  ghost predicate StaleName(c: Caches, key: string)
  {
    || (key in Names(ManifestOf(FontKind)) && key in c.Of(FontKind))
    || (key in Names(ManifestOf(BitmapKind)) && key in c.Of(BitmapKind))
    || (key in Names(ManifestOf(SoundKind)) && key in c.Of(SoundKind))
    || (key in Names(ManifestOf(MusicKind)) && key in c.Of(MusicKind))
  }

  /** A manifest name found in its cache makes the caches not fresh. */
  lemma CachedNameStale(c: Caches, kind: Kind, key: string)
    requires key in Names(ManifestOf(kind)) && key in c.Of(kind)
    ensures !ManifestsFresh(c)
  {
    var i :| 0 <= i < |ManifestOf(kind)| && Names(ManifestOf(kind))[i] == key;
    assert ManifestOf(kind)[i].name in c.Of(kind);
  }

  /**
   * A loading phase in progress: the cache being filled, the host events it has
   * caused, the next handle id, and the exception that stopped it, if any.
   */
  datatype Run = Run(cache: map<string, Handle>, events: seq<Event>, next: nat, failed: Option<Error>)
  {
    function Verdict(): Outcome<Error>
    {
      match failed
      case None => Pass
      case Some(e) => Fail(e)
    }
  }

  function Start(cache: map<string, Handle>, next: nat): Run
  {
    Run(cache, [], next, None)
  }

  /**
   * One New* call: the host loads the file first (the argument of Dictionary.Add is
   * evaluated before Add runs), then Add stores the handle or throws.
   */
  function Step(r: Run, kind: Kind, a: Asset): Run
  {
    var h := Handle(r.next);
    var events := r.events + [Loaded(kind, a.file, a.option, h)];
    match Add(r.cache, a.name, h)
    case Ok(m) => Run(m, events, r.next + 1, None)
    case Err(e) => Run(r.cache, events, r.next + 1, Some(e))
  }

  /** The New* calls of a manifest in order; after an exception nothing more runs. */
  function Apply(r: Run, kind: Kind, assets: seq<Asset>): Run
    decreases |assets|
  {
    if assets == [] then r
    else
      var before := Apply(r, kind, assets[..|assets| - 1]);
      if before.failed.Some? then before else Step(before, kind, assets[|assets| - 1])
  }

  /** The cache entries a manifest contributes when its k-th asset gets handle first + k. */
  function ManifestMap(assets: seq<Asset>, first: nat): map<string, Handle>
    decreases |assets|
  {
    if assets == [] then map[]
    else
      var last := |assets| - 1;
      ManifestMap(assets[..last], first)[assets[last].name := Handle(first + last)]
  }

  /** A manifest's entries are cached under its names, with handles issued for this manifest only. */
  lemma {:induction false} ManifestMapShape(assets: seq<Asset>, first: nat)
    ensures ManifestMap(assets, first).Keys == set i | 0 <= i < |assets| :: assets[i].name
    ensures forall key :: key in ManifestMap(assets, first) ==>
      first <= ManifestMap(assets, first)[key].id < first + |assets|
    decreases |assets|
  {
    if assets != [] {
      var last := |assets| - 1;
      ManifestMapShape(assets[..last], first);
      assert forall i | 0 <= i < last :: assets[..last][i] == assets[i];
    }
  }

  /** The load calls a manifest causes when its k-th asset gets handle first + k. */
  function LoadEvents(kind: Kind, assets: seq<Asset>, first: nat): seq<Event>
  {
    seq(|assets|, i requires 0 <= i < |assets| =>
      Loaded(kind, assets[i].file, assets[i].option, Handle(first + i)))
  }

  lemma {:induction false} ApplyConcat(r: Run, kind: Kind, a: seq<Asset>, b: seq<Asset>)
    ensures Apply(r, kind, a + b) == Apply(Apply(r, kind, a), kind, b)
    decreases |b|
  {
    if b == [] {
      assert a + b == a;
    } else {
      assert (a + b)[..|a + b| - 1] == a + b[..|b| - 1];
      ApplyConcat(r, kind, a, b[..|b| - 1]);
    }
  }

  /** Once a phase has thrown, the rest of its manifest changes nothing. */
  lemma {:induction false} ApplyAfterFailure(r: Run, kind: Kind, b: seq<Asset>)
    requires r.failed.Some?
    ensures Apply(r, kind, b) == r
    decreases |b|
  {
    if b != [] {
      ApplyAfterFailure(r, kind, b[..|b| - 1]);
    }
  }

  lemma ApplyStopsAtFailure(r: Run, kind: Kind, a: seq<Asset>, b: seq<Asset>)
    requires Apply(r, kind, a).failed.Some?
    ensures Apply(r, kind, a + b) == Apply(r, kind, a)
  {
    ApplyConcat(r, kind, a, b);
    ApplyAfterFailure(Apply(r, kind, a), kind, b);
  }

  /** Every call of a phase allocates one handle, whether or not its Add succeeds. */
  lemma {:induction false} ApplyNext(m: map<string, Handle>, n: nat, kind: Kind, assets: seq<Asset>)
    ensures n <= Apply(Start(m, n), kind, assets).next <= n + |assets|
    ensures Apply(Start(m, n), kind, assets).next == n + |Apply(Start(m, n), kind, assets).events|
    ensures Apply(Start(m, n), kind, assets).failed.None? ==> Apply(Start(m, n), kind, assets).next == n + |assets|
    decreases |assets|
  {
    if assets != [] {
      ApplyNext(m, n, kind, assets[..|assets| - 1]);
    }
  }

  /** A phase that runs to the end adds exactly the manifest's entries, with consecutive fresh handles. */
  lemma {:induction false} ApplyResult(m: map<string, Handle>, n: nat, kind: Kind, assets: seq<Asset>)
    requires Apply(Start(m, n), kind, assets).failed.None?
    ensures Apply(Start(m, n), kind, assets).cache == m + ManifestMap(assets, n)
    ensures Apply(Start(m, n), kind, assets).events == LoadEvents(kind, assets, n)
    decreases |assets|
  {
    if assets != [] {
      var last := |assets| - 1;
      var init := assets[..last];
      var before := Apply(Start(m, n), kind, init);
      assert before.failed.None?;
      ApplyResult(m, n, kind, init);
      ApplyNext(m, n, kind, init);
      var h := Handle(n + last);
      assert Apply(Start(m, n), kind, assets) == Step(before, kind, assets[last]);
      assert Apply(Start(m, n), kind, assets).cache == before.cache[assets[last].name := h] by {
        assert Add(before.cache, assets[last].name, h).Ok?;
      }
      assert LoadEvents(kind, assets, n) == before.events + [Loaded(kind, assets[last].file, assets[last].option, h)];
    }
  }

  /** A phase runs to the end exactly when its names are distinct and none is cached yet. */
  lemma ApplySucceeds(m: map<string, Handle>, n: nat, kind: Kind, assets: seq<Asset>)
    ensures Apply(Start(m, n), kind, assets).failed.None? <==>
      DistinctNames(assets) && forall i :: 0 <= i < |assets| ==> assets[i].name !in m
  {
    if Apply(Start(m, n), kind, assets).failed.None? {
      SucceededOnFresh(m, n, kind, assets);
    }
    if DistinctNames(assets) && forall i :: 0 <= i < |assets| ==> assets[i].name !in m {
      FreshSucceeds(m, n, kind, assets);
    }
  }

  lemma {:induction false} SucceededOnFresh(m: map<string, Handle>, n: nat, kind: Kind, assets: seq<Asset>)
    requires Apply(Start(m, n), kind, assets).failed.None?
    ensures DistinctNames(assets) && forall i :: 0 <= i < |assets| ==> assets[i].name !in m
    decreases |assets|
  {
    if assets != [] {
      var last := |assets| - 1;
      var init := assets[..last];
      var before := Apply(Start(m, n), kind, init);
      assert before.failed.None?;
      SucceededOnFresh(m, n, kind, init);
      ApplyResult(m, n, kind, init);
      assert Add(before.cache, assets[last].name, Handle(before.next)).Ok?;
      FreshSnoc(m, n, init, assets[last]);
      assert assets == init + [assets[last]];
    }
  }

  /** A manifest with distinct fresh names stays so when a name neither cached nor in it is appended. */
  lemma FreshSnoc(m: map<string, Handle>, n: nat, init: seq<Asset>, a: Asset)
    requires DistinctNames(init) && forall i :: 0 <= i < |init| ==> init[i].name !in m
    requires a.name !in m + ManifestMap(init, n)
    ensures DistinctNames(init + [a]) && forall i :: 0 <= i < |init + [a]| ==> (init + [a])[i].name !in m
  {
    ManifestMapShape(init, n);
    var s := init + [a];
    forall i, j | 0 <= i < j < |s| ensures s[i].name != s[j].name {
      assert s[i] == init[i];
      if j == |init| {
        assert init[i].name in ManifestMap(init, n);
      }
    }
  }

  lemma {:induction false} FreshSucceeds(m: map<string, Handle>, n: nat, kind: Kind, assets: seq<Asset>)
    requires DistinctNames(assets) && forall i :: 0 <= i < |assets| ==> assets[i].name !in m
    ensures Apply(Start(m, n), kind, assets).failed.None?
    decreases |assets|
  {
    if assets != [] {
      var last := |assets| - 1;
      var init := assets[..last];
      assert forall i | 0 <= i < last :: init[i] == assets[i];
      FreshSucceeds(m, n, kind, init);
      var before := Apply(Start(m, n), kind, init);
      ApplyResult(m, n, kind, init);
      ManifestMapShape(init, n);
      assert assets[last].name !in before.cache;
    }
  }

  /** The exception that stops a phase is Add's, for a manifest name that was already cached or that repeats. */
  lemma {:induction false} ApplyFailure(m: map<string, Handle>, n: nat, kind: Kind, assets: seq<Asset>)
    requires Apply(Start(m, n), kind, assets).failed.Some?
    ensures var e := Apply(Start(m, n), kind, assets).failed.value;
      && e.DuplicateKey? && e.key in Names(assets)
      && (e.key in m || exists i, j :: 0 <= i < j < |assets| && assets[i].name == e.key && assets[j].name == e.key)
    decreases |assets|
  {
    var last := |assets| - 1;
    var init := assets[..last];
    assert forall i | 0 <= i < last :: init[i] == assets[i];
    var before := Apply(Start(m, n), kind, init);
    if before.failed.Some? {
      ApplyFailure(m, n, kind, init);
      assert Names(init) == Names(assets)[..last];
    } else {
      ApplySucceeds(m, n, kind, init);
      ApplyResult(m, n, kind, init);
      ManifestMapShape(init, n);
      assert Names(assets)[last] == assets[last].name;
      if assets[last].name !in m {
        var i :| 0 <= i < last && init[i].name == assets[last].name;
        assert assets[i].name == assets[last].name;
      }
    }
  }

  /** The k-th asset of a manifest without repeats is cached under handle first + k. */
  lemma {:induction false} ManifestMapAt(assets: seq<Asset>, first: nat, k: nat)
    requires DistinctNames(assets) && k < |assets|
    ensures assets[k].name in ManifestMap(assets, first)
    ensures ManifestMap(assets, first)[assets[k].name] == Handle(first + k)
    decreases |assets|
  {
    ManifestMapShape(assets, first);
    var last := |assets| - 1;
    if k < last {
      var init := assets[..last];
      assert init[k] == assets[k];
      ManifestMapAt(init, first, k);
    }
  }

  /** A manifest without repeats contributes one cache entry per asset. */
  lemma {:induction false} ManifestMapSize(assets: seq<Asset>, first: nat)
    requires DistinctNames(assets)
    ensures |ManifestMap(assets, first)| == |assets|
    decreases |assets|
  {
    if assets != [] {
      var last := |assets| - 1;
      var init := assets[..last];
      assert DistinctNames(init);
      ManifestMapSize(init, first);
      ManifestMapShape(init, first);
      assert assets[last].name !in ManifestMap(init, first);
    }
  }

  /** A manifest's cache entries are exactly its names, one per asset when the names do not repeat. */
  lemma ManifestMapNames(assets: seq<Asset>, first: nat)
    ensures forall key :: key in ManifestMap(assets, first) <==> key in Names(assets)
    ensures DistinctNames(assets) ==> |ManifestMap(assets, first)| == |assets|
  {
    ManifestMapShape(assets, first);
    forall key ensures key in ManifestMap(assets, first) <==> key in Names(assets) {
      if key in Names(assets) {
        var i :| 0 <= i < |assets| && Names(assets)[i] == key;
        assert assets[i].name == key;
      }
      if key in ManifestMap(assets, first) {
        var i :| 0 <= i < |assets| && assets[i].name == key;
        assert Names(assets)[i] == key;
      }
    }
    if DistinctNames(assets) {
      ManifestMapSize(assets, first);
    }
  }

  /** After the four phases, the caches hold exactly 5 fonts, 23 images, 17 sounds and 4 pieces of music. */
  lemma ManifestCounts(first: nat)
    ensures |ManifestMap(FontManifest, first)| == 5
    ensures |ManifestMap(ImageManifest, first)| == 23
    ensures |ManifestMap(SoundManifest, first)| == 17
    ensures |ManifestMap(MusicManifest, first)| == 4
  {
    ManifestSizes();
    ManifestsDistinct(FontKind);
    ManifestsDistinct(BitmapKind);
    ManifestsDistinct(SoundKind);
    ManifestsDistinct(MusicKind);
    ManifestMapSize(FontManifest, first);
    ManifestMapSize(ImageManifest, first);
    ManifestMapSize(SoundManifest, first);
    ManifestMapSize(MusicManifest, first);
  }

  /** `order` lists every key of the set exactly once. */
  ghost predicate Enumerates(order: seq<string>, keys: set<string>)
  {
    && (forall i, j :: 0 <= i < j < |order| ==> order[i] != order[j])
    && (forall i :: 0 <= i < |order| ==> order[i] in keys)
    && (forall key :: key in keys ==> key in order)
  }

  /** The free calls of a loop over a cache's values, visiting the keys in `order`. */
  function FreeEvents(kind: Kind, m: map<string, Handle>, order: seq<string>): seq<Event>
    requires forall i :: 0 <= i < |order| ==> order[i] in m
  {
    seq(|order|, i requires 0 <= i < |order| => Freed(kind, m[order[i]]))
  }

  /** FreeResources: fonts, then images, then music, then sounds, then one ProcessEvents. */
  function TeardownEvents(c: Caches, fontOrder: seq<string>, imageOrder: seq<string>,
                          musicOrder: seq<string>, soundOrder: seq<string>): seq<Event>
    requires Enumerates(fontOrder, c.fonts.Keys) && Enumerates(imageOrder, c.images.Keys)
    requires Enumerates(musicOrder, c.music.Keys) && Enumerates(soundOrder, c.sounds.Keys)
  {
    FreeEvents(FontKind, c.fonts, fontOrder) + FreeEvents(BitmapKind, c.images, imageOrder)
      + FreeEvents(MusicKind, c.music, musicOrder) + FreeEvents(SoundKind, c.sounds, soundOrder)
      + [EventsProcessed]
  }

  /** The four loops' frees and the event pump, appended one after the other, are the teardown. */
  lemma TeardownAppend(t: seq<Event>, c: Caches, fontOrder: seq<string>, imageOrder: seq<string>,
                       musicOrder: seq<string>, soundOrder: seq<string>)
    requires Enumerates(fontOrder, c.fonts.Keys) && Enumerates(imageOrder, c.images.Keys)
    requires Enumerates(musicOrder, c.music.Keys) && Enumerates(soundOrder, c.sounds.Keys)
    ensures t + FreeEvents(FontKind, c.fonts, fontOrder) + FreeEvents(BitmapKind, c.images, imageOrder)
        + FreeEvents(MusicKind, c.music, musicOrder) + FreeEvents(SoundKind, c.sounds, soundOrder)
        + [EventsProcessed]
      == t + TeardownEvents(c, fontOrder, imageOrder, musicOrder, soundOrder)
  {
  }

  /** A registration keeps the caches' invariants: the new handle is fresh, so it is stored under one name only. */
  lemma StepKeepsValid(c: Caches, kind: Kind, r: Run, a: Asset)
    requires r.cache == c.Of(kind) && Below(c, r.next) && Exclusive(c)
    ensures Below(c.With(kind, Step(r, kind, a).cache), Step(r, kind, a).next)
    ensures Exclusive(c.With(kind, Step(r, kind, a).cache))
  {
    var c' := c.With(kind, Step(r, kind, a).cache);
    var h := Handle(r.next);
    assert forall k, key :: key in c'.Of(k) ==> (c'.Of(k)[key] == h && k == kind && key == a.name) || (key in c.Of(k) && c'.Of(k)[key] == c.Of(k)[key]);
  }

  /** Loads that cache nothing keep every cached handle below the counter. */
  lemma BelowGrows(c: Caches, n: nat, m: nat)
    requires Below(c, n) && n <= m
    ensures Below(c, m)
  {
  }

  /**
   * A phase in progress after the first k registrations of manifest `assets`: one more
   * registration runs the next asset; if it throws, the whole manifest's run ends there.
   */
  lemma Advance(r: Run, kind: Kind, assets: seq<Asset>, k: nat)
    requires k < |assets| && Apply(r, kind, assets[..k]).failed.None?
    ensures Apply(r, kind, assets[..k + 1]) == Step(Apply(r, kind, assets[..k]), kind, assets[k])
    ensures Apply(r, kind, assets[..k + 1]).failed.Some? ==> Apply(r, kind, assets) == Apply(r, kind, assets[..k + 1])
  {
    assert assets[..k + 1][..k] == assets[..k];
    if Apply(r, kind, assets[..k + 1]).failed.Some? {
      ApplyStopsAtFailure(r, kind, assets[..k + 1], assets[k + 1..]);
      assert assets[..k + 1] + assets[k + 1..] == assets;
    }
  }

  /** No handle of the cache has an id in lo..hi-1. */
  ghost predicate Outside(m: map<string, Handle>, lo: nat, hi: nat)
  {
    forall key :: key in m ==> m[key].id < lo || hi <= m[key].id
  }

  /**
   * A phase whose counter is past hi never caches an id in lo..hi-1, whether it
   * completes or throws, and its counter only grows.
   */
  lemma {:induction false} ApplyOutside(r: Run, kind: Kind, assets: seq<Asset>, lo: nat, hi: nat)
    requires Outside(r.cache, lo, hi) && hi <= r.next
    ensures Outside(Apply(r, kind, assets).cache, lo, hi) && r.next <= Apply(r, kind, assets).next
    decreases |assets|
  {
    if assets != [] {
      ApplyOutside(r, kind, assets[..|assets| - 1], lo, hi);
    }
  }

  /** The two NewImage calls of one ship: the second runs only if the first did not throw. */
  lemma ShipPairSteps(x: Run, i: nat)
    ensures var y := Step(x, BitmapKind, ShipPair(i)[0]);
      Apply(x, BitmapKind, ShipPair(i)) == if x.failed.Some? then x else if y.failed.Some? then y else Step(y, BitmapKind, ShipPair(i)[1])
  {
    var p := ShipPair(i);
    assert p[..1][..0] == [];
    assert p[..1] == [p[0]];
    assert Apply(x, BitmapKind, p[..1]) == if x.failed.Some? then x else Step(x, BitmapKind, p[0]);
  }

  /** Once a pass of the ship loop has thrown, the later passes change nothing. */
  lemma {:induction false} ShipsStayFailed(r: Run, i: nat, j: nat)
    requires i <= j && Apply(r, BitmapKind, ShipImages(i)).failed.Some?
    ensures Apply(r, BitmapKind, ShipImages(j)) == Apply(r, BitmapKind, ShipImages(i))
    decreases j
  {
    if i < j {
      ShipsStayFailed(r, i, j - 1);
      ApplyConcat(r, BitmapKind, ShipImages(j - 1), ShipPair(j));
      ApplyAfterFailure(Apply(r, BitmapKind, ShipImages(j - 1)), BitmapKind, ShipPair(j));
    }
  }

  /** A phase that starts on a trace appends to it exactly what it would cause on an empty one. */
  lemma {:induction false} ApplyShift(m: map<string, Handle>, t: seq<Event>, n: nat, kind: Kind, assets: seq<Asset>)
    ensures var a := Apply(Run(m, t, n, None), kind, assets);
      var b := Apply(Start(m, n), kind, assets);
      a.cache == b.cache && a.next == b.next && a.failed == b.failed && a.events == t + b.events
    decreases |assets|
  {
    if assets != [] {
      ApplyShift(m, t, n, kind, assets[..|assets| - 1]);
    }
  }

  /**
   * One of LoadFonts, LoadImages, LoadSounds or LoadMusic, run from any cache and
   * trace: it runs to the end exactly when no manifest name is cached yet, and then
   * adds the manifest with consecutive handles and appends its loads; otherwise it
   * stops with Add's exception for a manifest name that was already cached.
   */
  lemma ManifestPhase(m: map<string, Handle>, t: seq<Event>, n: nat, kind: Kind)
    ensures var r := Apply(Run(m, t, n, None), kind, ManifestOf(kind));
      && (r.failed.None? <==> FreshFor(ManifestOf(kind), m))
      && (r.failed.None? ==>
            r.cache == m + ManifestMap(ManifestOf(kind), n) && r.next == n + |ManifestOf(kind)|
            && r.events == t + LoadEvents(kind, ManifestOf(kind), n))
      && (r.failed.Some? ==>
            r.failed.value.DuplicateKey? && r.failed.value.key in Names(ManifestOf(kind)) && r.failed.value.key in m)
  {
    var assets := ManifestOf(kind);
    ApplyShift(m, t, n, kind, assets);
    ManifestsDistinct(kind);
    ApplySucceeds(m, n, kind, assets);
    ApplyNext(m, n, kind, assets);
    if Apply(Start(m, n), kind, assets).failed.None? {
      ApplyResult(m, n, kind, assets);
    } else {
      ApplyFailure(m, n, kind, assets);
    }
  }

  lemma FreeEventsSnoc(kind: Kind, m: map<string, Handle>, order: seq<string>, key: string)
    requires forall i :: 0 <= i < |order| ==> order[i] in m
    requires key in m
    ensures FreeEvents(kind, m, order + [key]) == FreeEvents(kind, m, order) + [Freed(kind, m[key])]
  {
  }

  /** No two names of the cache share a handle. */
  ghost predicate Injective(m: map<string, Handle>)
  {
    forall key1, key2 :: key1 in m && key2 in m && m[key1] == m[key2] ==> key1 == key2
  }

  /** A loop over an injective cache's values frees each of its handles once, and no other handle. */
  lemma FreeEventsFrees(kind: Kind, m: map<string, Handle>, order: seq<string>, h: Handle)
    requires Enumerates(order, m.Keys) && Injective(m)
    ensures Project(FreeEvents(kind, m, order), FreedOf(h)) == if h in m.Values then [kind] else []
  {
    var t := FreeEvents(kind, m, order);
    if h in m.Values {
      var key :| key in m && m[key] == h;
      var i :| 0 <= i < |order| && order[i] == key;
      ProjectSingle(t, FreedOf(h), i);
    } else {
      ProjectNothing(t, FreedOf(h));
    }
  }

  lemma ExclusiveInjective(c: Caches, kind: Kind)
    requires Exclusive(c)
    ensures Injective(c.Of(kind))
  {
  }

  lemma ProjectLoops<T>(a: seq<Event>, b: seq<Event>, d: seq<Event>, e: seq<Event>, f: Event -> Option<T>)
    requires f(EventsProcessed).None?
    ensures Project(a + b + d + e + [EventsProcessed], f) == Project(a, f) + Project(b, f) + Project(d, f) + Project(e, f)
  {
    ProjectConcat(a, b, f);
    ProjectConcat(a + b, d, f);
    ProjectConcat(a + b + d, e, f);
    ProjectConcat(a + b + d + e, [EventsProcessed], f);
    ProjectNothing([EventsProcessed], f);
  }

  /** The free kinds a loop over `m` records for `h`: one if `h` is cached there, none otherwise. */
  function Hits(kind: Kind, m: map<string, Handle>, h: Handle): seq<Kind>
  {
    if h in m.Values then [kind] else []
  }

  /** The teardown's frees of one handle are those of its four loops, in the loops' order. */
  lemma TeardownProject(c: Caches, fontOrder: seq<string>, imageOrder: seq<string>,
                        musicOrder: seq<string>, soundOrder: seq<string>, h: Handle)
    requires Injective(c.fonts) && Injective(c.images) && Injective(c.music) && Injective(c.sounds)
    requires Enumerates(fontOrder, c.fonts.Keys) && Enumerates(imageOrder, c.images.Keys)
    requires Enumerates(musicOrder, c.music.Keys) && Enumerates(soundOrder, c.sounds.Keys)
    ensures Project(TeardownEvents(c, fontOrder, imageOrder, musicOrder, soundOrder), FreedOf(h)) ==
      Hits(FontKind, c.fonts, h) + Hits(BitmapKind, c.images, h) + Hits(MusicKind, c.music, h) + Hits(SoundKind, c.sounds, h)
  {
    ProjectLoops(FreeEvents(FontKind, c.fonts, fontOrder), FreeEvents(BitmapKind, c.images, imageOrder),
                 FreeEvents(MusicKind, c.music, musicOrder), FreeEvents(SoundKind, c.sounds, soundOrder), FreedOf(h));
    FreeEventsFrees(FontKind, c.fonts, fontOrder, h);
    FreeEventsFrees(BitmapKind, c.images, imageOrder, h);
    FreeEventsFrees(MusicKind, c.music, musicOrder, h);
    FreeEventsFrees(SoundKind, c.sounds, soundOrder, h);
  }

  /**
   * FreeResources frees every cached handle exactly once, with the free call of the
   * cache it is in, and frees nothing that is not cached.
   */
  lemma TeardownFreesOnce(c: Caches, fontOrder: seq<string>, imageOrder: seq<string>,
                          musicOrder: seq<string>, soundOrder: seq<string>, h: Handle)
    requires Exclusive(c)
    requires Enumerates(fontOrder, c.fonts.Keys) && Enumerates(imageOrder, c.images.Keys)
    requires Enumerates(musicOrder, c.music.Keys) && Enumerates(soundOrder, c.sounds.Keys)
    ensures var p := Project(TeardownEvents(c, fontOrder, imageOrder, musicOrder, soundOrder), FreedOf(h));
      && (forall kind :: h in c.Of(kind).Values ==> p == [kind])
      && ((forall kind :: h !in c.Of(kind).Values) ==> p == [])
  {
    ExclusiveInjective(c, FontKind);
    ExclusiveInjective(c, BitmapKind);
    ExclusiveInjective(c, MusicKind);
    ExclusiveInjective(c, SoundKind);
    TeardownProject(c, fontOrder, imageOrder, musicOrder, soundOrder, h);
    HitsOnce(c, h);
  }

  /** Of the four loops' hits for one handle, at most one is non-empty: the one of the cache holding it. */
  lemma HitsOnce(c: Caches, h: Handle)
    requires Exclusive(c)
    ensures var p := Hits(FontKind, c.fonts, h) + Hits(BitmapKind, c.images, h) + Hits(MusicKind, c.music, h)
        + Hits(SoundKind, c.sounds, h);
      && (forall kind :: h in c.Of(kind).Values ==> p == [kind])
      && ((forall kind :: h !in c.Of(kind).Values) ==> p == [])
  {
    ExclusiveValues(c, h);
    assert c.Of(FontKind) == c.fonts && c.Of(BitmapKind) == c.images;
    assert c.Of(MusicKind) == c.music && c.Of(SoundKind) == c.sounds;
  }

  /** A handle is a value of at most one cache. */
  lemma ExclusiveValues(c: Caches, h: Handle)
    requires Exclusive(c)
    ensures forall kind1, kind2 :: h in c.Of(kind1).Values && h in c.Of(kind2).Values ==> kind1 == kind2
  {
    forall kind1, kind2 | h in c.Of(kind1).Values && h in c.Of(kind2).Values ensures kind1 == kind2 {
      var key1 :| key1 in c.Of(kind1) && c.Of(kind1)[key1] == h;
      var key2 :| key2 in c.Of(kind2) && c.Of(kind2)[key2] == h;
    }
  }

  /**
   * FreeResources leaves the caches as they are, so a second call frees every
   * cached handle a second time, with the same free call.
   */
  lemma TeardownTwice(c: Caches, orders1: seq<seq<string>>, orders2: seq<seq<string>>, kind: Kind, h: Handle)
    requires Exclusive(c) && |orders1| == 4 && |orders2| == 4
    requires Enumerates(orders1[0], c.fonts.Keys) && Enumerates(orders1[1], c.images.Keys)
    requires Enumerates(orders1[2], c.music.Keys) && Enumerates(orders1[3], c.sounds.Keys)
    requires Enumerates(orders2[0], c.fonts.Keys) && Enumerates(orders2[1], c.images.Keys)
    requires Enumerates(orders2[2], c.music.Keys) && Enumerates(orders2[3], c.sounds.Keys)
    requires h in c.Of(kind).Values
    ensures Project(TeardownEvents(c, orders1[0], orders1[1], orders1[2], orders1[3])
        + TeardownEvents(c, orders2[0], orders2[1], orders2[2], orders2[3]), FreedOf(h)) == [kind, kind]
  {
    var t1 := TeardownEvents(c, orders1[0], orders1[1], orders1[2], orders1[3]);
    var t2 := TeardownEvents(c, orders2[0], orders2[1], orders2[2], orders2[3]);
    ProjectConcat(t1, t2, FreedOf(h));
    TeardownFreesOnce(c, orders1[0], orders1[1], orders1[2], orders1[3], h);
    TeardownFreesOnce(c, orders2[0], orders2[1], orders2[2], orders2[3], h);
  }
}
