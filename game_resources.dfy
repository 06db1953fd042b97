/**
 * The GameResources class: four name-to-handle caches, the six handles of the
 * loading screen, and the operations that fill, read and free them. The class is
 * static in the program; here it is one object over one host.
 */
module GameResources {
  import opened Outcomes
  import opened Host
  import opened Dictionary
  import opened Manifest
  import opened Registry
  import opened LoadingScreen
  import opened Loading

  class Resources {
    /** The graphics, audio and window library every call goes to. */
    const host: Host
    var fonts: map<string, Handle>
    var images: map<string, Handle>
    var sounds: map<string, Handle>
    var music: map<string, Handle>
    /**
     * The loading screen's six handles (background, animation sheet, loading font,
     * start sound, full and empty bar), null (None) until ShowLoadingScreen sets them.
     */
    var splash: Option<Splash>

    function Snapshot(): Caches
      reads this`fonts, this`images, this`sounds, this`music
    {
      Caches(fonts, images, sounds, music)
    }

    /** A loading phase of `kind` about to start from the current state. */
    function RunOf(kind: Kind): Run
      reads this, host
    {
      Run(Snapshot().Of(kind), host.trace, host.next, None)
    }

    /** Every cached handle came from an earlier load and is cached under one name only. */
    ghost predicate Valid()
      reads this, host
    {
      Below(Snapshot(), host.next) && Exclusive(Snapshot())
    }

    /** The static initialisers: four empty dictionaries and null loading-screen fields. */
    constructor (host: Host)
      ensures this.host == host
      ensures Snapshot() == Caches(map[], map[], map[], map[]) && splash == None
      ensures Valid()
    {
      this.host := host;
      fonts, images, sounds, music := map[], map[], map[], map[];
      splash := None;
    }

    /** The indexer of the font cache: the cached handle, or KeyNotFound. */
    function GameFont(font: string): (r: Result<Handle, Error>)
      reads this
      ensures r.Ok? <==> font in fonts
      ensures r.Ok? ==> r.value == fonts[font]
      ensures r.Err? ==> r.error == KeyNotFound(font)
    {
      Get(fonts, font)
    }

    function GameImage(image: string): (r: Result<Handle, Error>)
      reads this
      ensures r.Ok? <==> image in images
      ensures r.Ok? ==> r.value == images[image]
      ensures r.Err? ==> r.error == KeyNotFound(image)
    {
      Get(images, image)
    }

    function GameSound(sound: string): (r: Result<Handle, Error>)
      reads this
      ensures r.Ok? <==> sound in sounds
      ensures r.Ok? ==> r.value == sounds[sound]
      ensures r.Err? ==> r.error == KeyNotFound(sound)
    {
      Get(sounds, sound)
    }

    function GameMusic(music: string): (r: Result<Handle, Error>)
      reads this
      ensures r.Ok? <==> music in this.music
      ensures r.Ok? ==> r.value == this.music[music]
      ensures r.Err? ==> r.error == KeyNotFound(music)
    {
      Get(this.music, music)
    }

    /**
     * Loads the font file at the given size, then adds it under fontName. The load
     * happens (and its handle leaks) even when Add throws for a name already cached.
     */
    method NewFont(fontName: string, filename: string, size: int) returns (o: Outcome<Error>)
      requires Valid()
      modifies this`fonts, host`next, host`trace
      ensures Valid()
      ensures var s := Step(old(RunOf(FontKind)), FontKind, Asset(fontName, filename, PointSize(size)));
        fonts == s.cache && host.trace == s.events && host.next == s.next && o == s.Verdict()
      ensures o == if fontName in old(fonts) then Fail(DuplicateKey(fontName)) else Pass
      ensures fonts == if o.Pass? then old(fonts)[fontName := Handle(old(host.next))] else old(fonts)
      ensures host.trace == old(host.trace) + [Loaded(FontKind, filename, PointSize(size), Handle(old(host.next)))]
      ensures o.Pass? ==> GameFont(fontName) == Ok(Handle(old(host.next)))
      ensures forall other :: other != fontName ==> GameFont(other) == old(GameFont(other))
    {
      ghost var c, r := Snapshot(), RunOf(FontKind);
      var h := host.Load(FontKind, filename, PointSize(size));
      match Add(fonts, fontName, h) {
        case Ok(m) => fonts := m; o := Pass;
        case Err(e) => o := Fail(e);
      }
      StepKeepsValid(c, FontKind, r, Asset(fontName, filename, PointSize(size)));
    }

    method NewImage(imageName: string, filename: string) returns (o: Outcome<Error>)
      requires Valid()
      modifies this`images, host`next, host`trace
      ensures Valid()
      ensures var s := Step(old(RunOf(BitmapKind)), BitmapKind, Asset(imageName, filename, Plain));
        images == s.cache && host.trace == s.events && host.next == s.next && o == s.Verdict()
      ensures o == if imageName in old(images) then Fail(DuplicateKey(imageName)) else Pass
      ensures images == if o.Pass? then old(images)[imageName := Handle(old(host.next))] else old(images)
      ensures host.trace == old(host.trace) + [Loaded(BitmapKind, filename, Plain, Handle(old(host.next)))]
      ensures o.Pass? ==> GameImage(imageName) == Ok(Handle(old(host.next)))
      ensures forall other :: other != imageName ==> GameImage(other) == old(GameImage(other))
    {
      ghost var c, r := Snapshot(), RunOf(BitmapKind);
      var h := host.Load(BitmapKind, filename, Plain);
      match Add(images, imageName, h) {
        case Ok(m) => images := m; o := Pass;
        case Err(e) => o := Fail(e);
      }
      StepKeepsValid(c, BitmapKind, r, Asset(imageName, filename, Plain));
    }

    /** Loads a bitmap with a transparent colour key, then adds it under imageName. */
    method NewTransparentColorImage(imageName: string, fileName: string, transColor: Colour)
      returns (o: Outcome<Error>)
      requires Valid()
      modifies this`images, host`next, host`trace
      ensures Valid()
      ensures var s := Step(old(RunOf(BitmapKind)), BitmapKind, Asset(imageName, fileName, ColourKey(transColor)));
        images == s.cache && host.trace == s.events && host.next == s.next && o == s.Verdict()
      ensures o == if imageName in old(images) then Fail(DuplicateKey(imageName)) else Pass
      ensures images == if o.Pass? then old(images)[imageName := Handle(old(host.next))] else old(images)
      ensures host.trace == old(host.trace) + [Loaded(BitmapKind, fileName, ColourKey(transColor), Handle(old(host.next)))]
      ensures o.Pass? ==> GameImage(imageName) == Ok(Handle(old(host.next)))
      ensures forall other :: other != imageName ==> GameImage(other) == old(GameImage(other))
    {
      ghost var c, r := Snapshot(), RunOf(BitmapKind);
      var h := host.Load(BitmapKind, fileName, ColourKey(transColor));
      match Add(images, imageName, h) {
        case Ok(m) => images := m; o := Pass;
        case Err(e) => o := Fail(e);
      }
      StepKeepsValid(c, BitmapKind, r, Asset(imageName, fileName, ColourKey(transColor)));
    }

    /** The British spelling, which forwards to NewTransparentColorImage. */
    method NewTransparentColourImage(imageName: string, fileName: string, transColor: Colour)
      returns (o: Outcome<Error>)
      requires Valid()
      modifies this`images, host`next, host`trace
      ensures Valid()
      ensures var s := Step(old(RunOf(BitmapKind)), BitmapKind, Asset(imageName, fileName, ColourKey(transColor)));
        images == s.cache && host.trace == s.events && host.next == s.next && o == s.Verdict()
      ensures o.Pass? ==> GameImage(imageName) == Ok(Handle(old(host.next)))
      ensures forall other :: other != imageName ==> GameImage(other) == old(GameImage(other))
    {
      o := NewTransparentColorImage(imageName, fileName, transColor);
    }

    method NewSound(soundName: string, filename: string) returns (o: Outcome<Error>)
      requires Valid()
      modifies this`sounds, host`next, host`trace
      ensures Valid()
      ensures var s := Step(old(RunOf(SoundKind)), SoundKind, Asset(soundName, filename, Plain));
        sounds == s.cache && host.trace == s.events && host.next == s.next && o == s.Verdict()
      ensures o == if soundName in old(sounds) then Fail(DuplicateKey(soundName)) else Pass
      ensures sounds == if o.Pass? then old(sounds)[soundName := Handle(old(host.next))] else old(sounds)
      ensures host.trace == old(host.trace) + [Loaded(SoundKind, filename, Plain, Handle(old(host.next)))]
      ensures o.Pass? ==> GameSound(soundName) == Ok(Handle(old(host.next)))
      ensures forall other :: other != soundName ==> GameSound(other) == old(GameSound(other))
    {
      ghost var c, r := Snapshot(), RunOf(SoundKind);
      var h := host.Load(SoundKind, filename, Plain);
      match Add(sounds, soundName, h) {
        case Ok(m) => sounds := m; o := Pass;
        case Err(e) => o := Fail(e);
      }
      StepKeepsValid(c, SoundKind, r, Asset(soundName, filename, Plain));
    }

    method NewMusic(musicName: string, filename: string) returns (o: Outcome<Error>)
      requires Valid()
      modifies this`music, host`next, host`trace
      ensures Valid()
      ensures var s := Step(old(RunOf(MusicKind)), MusicKind, Asset(musicName, filename, Plain));
        music == s.cache && host.trace == s.events && host.next == s.next && o == s.Verdict()
      ensures o == if musicName in old(music) then Fail(DuplicateKey(musicName)) else Pass
      ensures music == if o.Pass? then old(music)[musicName := Handle(old(host.next))] else old(music)
      ensures host.trace == old(host.trace) + [Loaded(MusicKind, filename, Plain, Handle(old(host.next)))]
      ensures o.Pass? ==> GameMusic(musicName) == Ok(Handle(old(host.next)))
      ensures forall other :: other != musicName ==> GameMusic(other) == old(GameMusic(other))
    {
      ghost var c, r := Snapshot(), RunOf(MusicKind);
      var h := host.Load(MusicKind, filename, Plain);
      match Add(music, musicName, h) {
        case Ok(m) => music := m; o := Pass;
        case Err(e) => o := Fail(e);
      }
      StepKeepsValid(c, MusicKind, r, Asset(musicName, filename, Plain));
    }

    /**
     * The New* call of a category for one manifest line: NewFont with the line's
     * point size, NewTransparentColorImage for a keyed bitmap, NewImage, NewSound or
     * NewMusic otherwise. Only that category's cache can change.
     */
    method Register(kind: Kind, a: Asset) returns (o: Outcome<Error>)
      requires Valid() && Fits(kind, a)
      modifies this`fonts, this`images, this`sounds, this`music, host`next, host`trace
      ensures Valid()
      ensures var s := Step(old(RunOf(kind)), kind, a);
        Snapshot() == old(Snapshot()).With(kind, s.cache) && host.trace == s.events && host.next == s.next
        && o == s.Verdict()
    {
      match kind {
        case FontKind => o := NewFont(a.name, a.file, a.option.size);
        case BitmapKind =>
          if a.option.ColourKey? {
            o := NewTransparentColorImage(a.name, a.file, a.option.key);
          } else {
            o := NewImage(a.name, a.file);
          }
        case SoundKind => o := NewSound(a.name, a.file);
        case MusicKind => o := NewMusic(a.name, a.file);
      }
    }

    /** The New* calls for a list of manifest lines, in order, up to the first exception. */
    method RegisterAll(kind: Kind, assets: seq<Asset>) returns (o: Outcome<Error>)
      requires Valid() && forall i :: 0 <= i < |assets| ==> Fits(kind, assets[i])
      modifies this`fonts, this`images, this`sounds, this`music, host`next, host`trace
      ensures Valid()
      ensures var r := Apply(old(RunOf(kind)), kind, assets);
        Snapshot() == old(Snapshot()).With(kind, r.cache) && host.trace == r.events && host.next == r.next
        && o == r.Verdict()
    {
      ghost var c0, r0 := Snapshot(), RunOf(kind);
      o := Pass;
      var k := 0;
      while k < |assets|
        invariant k <= |assets| && Valid() && o.Pass?
        invariant Snapshot() == c0.With(kind, Snapshot().Of(kind))
        invariant RunOf(kind) == Apply(r0, kind, assets[..k])
      {
        o := RegisterNext(kind, assets, k, c0, r0);
        if o.Fail? {
          return;
        }
        k := k + 1;
      }
      assert assets[..k] == assets;
    }

    /** One pass of RegisterAll's loop: the next line's New* call. */
    method RegisterNext(kind: Kind, assets: seq<Asset>, k: nat, ghost c0: Caches, ghost r0: Run) returns (o: Outcome<Error>)
      requires Valid() && k < |assets| && Fits(kind, assets[k])
      requires Snapshot() == c0.With(kind, Snapshot().Of(kind)) && RunOf(kind) == Apply(r0, kind, assets[..k])
      modifies this`fonts, this`images, this`sounds, this`music, host`next, host`trace
      ensures Valid() && Snapshot() == c0.With(kind, Snapshot().Of(kind))
      ensures o.Pass? ==> RunOf(kind) == Apply(r0, kind, assets[..k + 1])
      ensures o.Fail? ==> var r := Apply(r0, kind, assets);
        Snapshot() == c0.With(kind, r.cache) && host.trace == r.events && host.next == r.next && o == r.Verdict()
    {
      ghost var m := Snapshot().Of(kind);
      o := Register(kind, assets[k]);
      WithTwice(c0, kind, m, Snapshot().Of(kind));
      Advance(r0, kind, assets, k);
    }

    /** LoadFonts: NewFont for each line of the font manifest, in order; the first exception ends it. */
    method LoadFonts() returns (o: Outcome<Error>)
      requires Valid()
      modifies this`fonts, this`images, this`sounds, this`music, host`next, host`trace
      ensures Valid()
      ensures var r := Apply(old(RunOf(FontKind)), FontKind, FontManifest);
        Snapshot() == old(Snapshot()).With(FontKind, r.cache) && host.trace == r.events && host.next == r.next
        && o == r.Verdict()
    {
      ManifestsFit(FontKind);
      o := RegisterAll(FontKind, FontManifest);
    }

    /**
     * LoadImages: NewImage for the eleven named images, then the ship loop for ships
     * 1 to 5, then the explosion and splash images. The first exception ends it.
     */
    method LoadImages() returns (o: Outcome<Error>)
      requires Valid()
      modifies this`fonts, this`images, this`sounds, this`music, host`next, host`trace
      ensures Valid()
      ensures var r := Apply(old(RunOf(BitmapKind)), BitmapKind, ImageManifest);
        Snapshot() == old(Snapshot()).With(BitmapKind, r.cache) && host.trace == r.events && host.next == r.next
        && o == r.Verdict()
    {
      ImagePartsFit();
      o := LoadImageLists(NamedImages, 5, TrailingImages);
    }

    /** The body of LoadImages over its lists: the leading images, the ship loop, the trailing images. */
    method LoadImageLists(named: seq<Asset>, ships: nat, trailing: seq<Asset>) returns (o: Outcome<Error>)
      requires Valid()
      requires forall i :: 0 <= i < |named| ==> Fits(BitmapKind, named[i])
      requires forall i :: 0 <= i < |trailing| ==> Fits(BitmapKind, trailing[i])
      modifies this`fonts, this`images, this`sounds, this`music, host`next, host`trace
      ensures Valid()
      ensures var r := Apply(old(RunOf(BitmapKind)), BitmapKind, named + ShipImages(ships) + trailing);
        Snapshot() == old(Snapshot()).With(BitmapKind, r.cache) && host.trace == r.events && host.next == r.next
        && o == r.Verdict()
    {
      ghost var r0 := RunOf(BitmapKind);
      ApplyConcat(r0, BitmapKind, named + ShipImages(ships), trailing);
      ApplyConcat(r0, BitmapKind, named, ShipImages(ships));
      o := RegisterAll(BitmapKind, named);
      if o.Fail? {
        ApplyAfterFailure(Apply(r0, BitmapKind, named), BitmapKind, ShipImages(ships));
        ApplyAfterFailure(Apply(r0, BitmapKind, named), BitmapKind, trailing);
        return;
      }
      o := LoadShipImages(ships);
      if o.Fail? {
        ApplyAfterFailure(Apply(r0, BitmapKind, named + ShipImages(ships)), BitmapKind, trailing);
        return;
      }
      o := RegisterAll(BitmapKind, trailing);
    }

    /** The ship loop of LoadImages: LoadShipPair for i from 1 to count. */
    method LoadShipImages(count: nat) returns (o: Outcome<Error>)
      requires Valid()
      modifies this`images, host`next, host`trace
      ensures Valid()
      ensures var r := Apply(old(RunOf(BitmapKind)), BitmapKind, ShipImages(count));
        images == r.cache && host.trace == r.events && host.next == r.next && o == r.Verdict()
    {
      ghost var r1 := RunOf(BitmapKind);
      o := Pass;
      var i: nat := 1;
      while i <= count
        invariant 1 <= i <= count + 1 && Valid() && o.Pass?
        invariant RunOf(BitmapKind) == Apply(r1, BitmapKind, ShipImages(i - 1))
      {
        ApplyConcat(r1, BitmapKind, ShipImages(i - 1), ShipPair(i));
        o := LoadShipPair(i);
        if o.Fail? {
          ShipsStayFailed(r1, i, count);
          return;
        }
        i := i + 1;
      }
    }

    /**
     * One pass of the ship loop: NewImage for "ShipLR" + i from ship_deploy_horiz_i.png,
     * then for "ShipUD" + i from ship_deploy_vert_i.png.
     */
    method LoadShipPair(i: nat) returns (o: Outcome<Error>)
      requires Valid()
      modifies this`images, host`next, host`trace
      ensures Valid()
      ensures var r := Apply(old(RunOf(BitmapKind)), BitmapKind, ShipPair(i));
        images == r.cache && host.trace == r.events && host.next == r.next && o == r.Verdict()
    {
      ShipPairSteps(RunOf(BitmapKind), i);
      o := NewImage("ShipLR" + DecimalString(i), "ship_deploy_horiz_" + DecimalString(i) + ".png");
      if o.Pass? {
        o := NewImage("ShipUD" + DecimalString(i), "ship_deploy_vert_" + DecimalString(i) + ".png");
      }
    }

    /** LoadSounds: NewSound for each line of the sound manifest, in order. */
    method LoadSounds() returns (o: Outcome<Error>)
      requires Valid()
      modifies this`fonts, this`images, this`sounds, this`music, host`next, host`trace
      ensures Valid()
      ensures var r := Apply(old(RunOf(SoundKind)), SoundKind, SoundManifest);
        Snapshot() == old(Snapshot()).With(SoundKind, r.cache) && host.trace == r.events && host.next == r.next
        && o == r.Verdict()
    {
      ManifestsFit(SoundKind);
      o := RegisterAll(SoundKind, SoundManifest);
    }

    /** LoadMusic: NewMusic for each line of the music manifest, in order. */
    method LoadMusic() returns (o: Outcome<Error>)
      requires Valid()
      modifies this`fonts, this`images, this`sounds, this`music, host`next, host`trace
      ensures Valid()
      ensures var r := Apply(old(RunOf(MusicKind)), MusicKind, MusicManifest);
        Snapshot() == old(Snapshot()).With(MusicKind, r.cache) && host.trace == r.events && host.next == r.next
        && o == r.Verdict()
    {
      ManifestsFit(MusicKind);
      o := RegisterAll(MusicKind, MusicManifest);
    }

    /**
     * LoadResources: remembers the screen size, switches to 800x600, shows the loading
     * screen, runs the font, image, sound and music phases, shows the final message
     * and ends the loading screen at the remembered size. An exception from a phase
     * ends it there, with the loading screen still up.
     */
    method LoadResources() returns (o: Outcome<Error>)
      requires Valid()
      modifies this`fonts, this`images, this`sounds, this`music, this`splash
      modifies host`next, host`trace, host`screenWidth, host`screenHeight
      ensures Valid()
      ensures splash == Some(SplashAt(old(host.next)))
      ensures var q := LoadingRunOf(old(Snapshot()), old(host.trace), old(host.screenWidth), old(host.screenHeight), old(host.next));
        Snapshot() == q.caches && host.trace == q.events && host.next == q.next && o == q.Verdict()
      ensures o.Pass? ==> host.screenWidth == old(host.screenWidth) && host.screenHeight == old(host.screenHeight)
      ensures o.Fail? ==> host.screenWidth == SplashWidth && host.screenHeight == SplashHeight
    {
      var width := host.screenWidth;
      var height := host.screenHeight;
      host.ChangeScreenSize(800, 600);
      ShowLoadingScreen();
      o := LoadPhases();
      if o.Fail? {
        return;
      }
      ShowMessage(LoadedText, 5);
      EndLoadingScreen(width, height);
    }

    /** The four phases of LoadResources, in order; the first that throws ends them. */
    method LoadPhases() returns (o: Outcome<Error>)
      requires Valid() && splash.Some?
      modifies this`fonts, this`images, this`sounds, this`music, host`next, host`trace
      ensures Valid()
      ensures var p := PhasesRun(old(Snapshot()), old(host.trace), old(host.next), splash.value);
        Snapshot() == p.caches && host.trace == p.events && host.next == p.next && o == p.Verdict()
    {
      o := LoadPhase(FontsText, 0, FontKind);
      if o.Fail? {
        return;
      }
      o := LoadPhase(ImagesText, 1, BitmapKind);
      if o.Fail? {
        return;
      }
      o := LoadPhase(SoundsText, 2, SoundKind);
      if o.Fail? {
        return;
      }
      o := LoadPhase(MusicText, 3, MusicKind);
    }

    /** One phase of LoadResources: its ShowMessage, then LoadFonts, LoadImages, LoadSounds or LoadMusic. */
    method LoadPhase(text: string, number: int32, kind: Kind) returns (o: Outcome<Error>)
      requires Valid() && splash.Some?
      modifies this`fonts, this`images, this`sounds, this`music, host`next, host`trace
      ensures Valid()
      ensures var r := PhaseRun(old(Snapshot()), old(host.trace), old(host.next), splash.value, text, number, kind);
        Snapshot() == old(Snapshot()).With(kind, r.cache) && host.trace == r.events && host.next == r.next
        && o == r.Verdict()
    {
      ShowMessage(text, number);
      match kind {
        case FontKind => o := LoadFonts();
        case BitmapKind => o := LoadImages();
        case SoundKind => o := LoadSounds();
        case MusicKind => o := LoadMusic();
      }
    }

    /**
     * ShowLoadingScreen: loads the splash background and shows it, loads the
     * animation sheet, the 12-point font, the start sound and the two bar bitmaps,
     * then plays the intro. The six handles are the next six ids, in that order.
     */
    method ShowLoadingScreen()
      requires Valid()
      modifies this`splash, host`next, host`trace
      ensures Valid()
      ensures splash == Some(SplashAt(old(host.next)))
      ensures host.next == old(host.next) + 6
      ensures host.trace == old(host.trace) + ShowLoadingEvents(SplashAt(old(host.next)))
    {
      var background := host.Load(BitmapKind, "SplashBack.png", Plain);
      host.DrawBitmap(background, 0, 0);
      host.RefreshScreen();
      host.ProcessEvents();
      var animation := host.Load(BitmapKind, "SwinGameAni.jpg", Plain);
      var loadingFont := host.Load(FontKind, "arial.ttf", PointSize(12));
      var startSound := host.Load(SoundKind, "SwinGameStart.ogg", Plain);
      var loaderFull := host.Load(BitmapKind, "loader_full.png", Plain);
      var loaderEmpty := host.Load(BitmapKind, "loader_empty.png", Plain);
      splash := Some(Splash(background, animation, loadingFont, startSound, loaderFull, loaderEmpty));
      BelowGrows(Snapshot(), old(host.next), host.next);
      PlaySwinGameIntro();
      ShowLoadingAppend(old(host.trace), splash.value);
    }

    /**
     * PlaySwinGameIntro: the start sound, then cells 0 to 10 of the animation sheet,
     * each drawing the background, the cell taken from column i / 6 and row i % 6,
     * a refresh and an event pump.
     */
    method PlaySwinGameIntro()
      requires splash.Some?
      modifies host`trace
      ensures host.trace == old(host.trace) + IntroEvents(splash.value)
    {
      var s := splash.value;
      host.PlaySoundEffect(s.startSound);
      var i: nat := 0;
      while i <= AniCellCount - 1
        invariant i <= AniCellCount
        invariant host.trace == old(host.trace) + [SoundPlayed(s.startSound)] + IntroFrames(s, i)
      {
        FrameAppend(host.trace, s, i);
        host.DrawBitmap(s.background, 0, 0);
        host.DrawBitmapPart(s.animation, (i / AniVCellCount) * AniW, (i % AniVCellCount) * AniH, AniW, AniH, AniX, AniY);
        host.RefreshScreen();
        host.ProcessEvents();
        i := i + 1;
      }
    }

    /**
     * ShowMessage: the empty bar, the full bar cut to the stage's width, the message
     * in the loading font, a refresh and an event pump.
     */
    method ShowMessage(message: string, number: int32)
      requires splash.Some?
      modifies host`trace
      ensures host.trace == old(host.trace) + MessageEvents(splash.value, message, number)
    {
      var s := splash.value;
      MessageAppend(host.trace, s, message, number);
      var fullW := CsDiv(Wrap32(BarMaxWidth * number as int), Steps);
      host.DrawBitmap(s.loaderEmpty, BgX, BgY);
      host.DrawBitmapPart(s.loaderFull, 0, 0, fullW, BarHeight, BgX, BgY);
      host.DrawTextLines(message, s.loadingFont, TX, TY, TW, TH);
      host.RefreshScreen();
      host.ProcessEvents();
    }

    /**
     * EndLoadingScreen: an event pump, a cleared and refreshed screen, the frees of
     * the six loading-screen resources, and the screen back at the given size.
     */
    method EndLoadingScreen(width: int, height: int)
      requires splash.Some?
      modifies host`trace, host`screenWidth, host`screenHeight
      ensures host.trace == old(host.trace) + EndEvents(splash.value, width, height)
      ensures host.screenWidth == width && host.screenHeight == height
    {
      var s := splash.value;
      EndAppend(host.trace, s, width, height);
      host.ProcessEvents();
      host.ClearScreen();
      host.RefreshScreen();
      host.Free(FontKind, s.loadingFont);
      host.Free(BitmapKind, s.background);
      host.Free(BitmapKind, s.animation);
      host.Free(BitmapKind, s.loaderEmpty);
      host.Free(BitmapKind, s.loaderFull);
      host.Free(SoundKind, s.startSound);
      host.ChangeScreenSize(width, height);
    }

    /**
     * A loop over one cache's values calling that category's free primitive on each.
     * The dictionary's enumeration order is not modelled: `order` is the order the
     * loop visited the names in, and it lists each cached name exactly once.
     */
    method FreeAll(kind: Kind) returns (ghost order: seq<string>)
      modifies host`trace
      ensures Enumerates(order, Snapshot().Of(kind).Keys)
      ensures host.trace == old(host.trace) + FreeEvents(kind, Snapshot().Of(kind), order)
    {
      var m := Snapshot().Of(kind);
      var rest := m.Keys;
      order := [];
      while rest != {}
        invariant rest <= m.Keys
        invariant forall i, j :: 0 <= i < j < |order| ==> order[i] != order[j]
        invariant forall i :: 0 <= i < |order| ==> order[i] in m && order[i] !in rest
        invariant forall key :: key in m ==> key in rest || key in order
        invariant host.trace == old(host.trace) + FreeEvents(kind, m, order)
        decreases rest
      {
        var key :| key in rest;
        FreeEventsSnoc(kind, m, order, key);
        host.Free(kind, m[key]);
        order := order + [key];
        rest := rest - {key};
      }
    }

    /** FreeFonts: FreeFont on every cached font. */
    method FreeFonts() returns (ghost order: seq<string>)
      modifies host`trace
      ensures Enumerates(order, fonts.Keys)
      ensures host.trace == old(host.trace) + FreeEvents(FontKind, fonts, order)
    {
      order := FreeAll(FontKind);
    }

    /** FreeImages: FreeBitmap on every cached bitmap. */
    method FreeImages() returns (ghost order: seq<string>)
      modifies host`trace
      ensures Enumerates(order, images.Keys)
      ensures host.trace == old(host.trace) + FreeEvents(BitmapKind, images, order)
    {
      order := FreeAll(BitmapKind);
    }

    /** FreeSounds: FreeSoundEffect on every cached sound effect. */
    method FreeSounds() returns (ghost order: seq<string>)
      modifies host`trace
      ensures Enumerates(order, sounds.Keys)
      ensures host.trace == old(host.trace) + FreeEvents(SoundKind, sounds, order)
    {
      order := FreeAll(SoundKind);
    }

    /** FreeMusic: FreeMusic on every cached music track. */
    method FreeMusic() returns (ghost order: seq<string>)
      modifies host`trace
      ensures Enumerates(order, music.Keys)
      ensures host.trace == old(host.trace) + FreeEvents(MusicKind, music, order)
    {
      order := FreeAll(MusicKind);
    }

    /**
     * FreeResources: the fonts, the images, the music and the sounds, then one event
     * pump. The caches keep their entries; the handles in them are released.
     */
    method FreeResources() returns (ghost fontOrder: seq<string>, ghost imageOrder: seq<string>,
                                    ghost musicOrder: seq<string>, ghost soundOrder: seq<string>)
      modifies host`trace
      ensures Enumerates(fontOrder, fonts.Keys) && Enumerates(imageOrder, images.Keys)
      ensures Enumerates(musicOrder, music.Keys) && Enumerates(soundOrder, sounds.Keys)
      ensures host.trace == old(host.trace) + TeardownEvents(Snapshot(), fontOrder, imageOrder, musicOrder, soundOrder)
    {
      ghost var t0 := host.trace;
      fontOrder := FreeFonts();
      imageOrder := FreeImages();
      musicOrder := FreeMusic();
      soundOrder := FreeSounds();
      host.ProcessEvents();
      TeardownAppend(t0, Snapshot(), fontOrder, imageOrder, musicOrder, soundOrder);
    }
  }
}
