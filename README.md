# GameResources: the asset cache and loading screen of the Battleship game

The Battleship game keeps every font, bitmap, sound effect and music track it uses
in one static class, `GameResources`. The class has four pieces of state. Four
dictionaries map names to handles. Six static fields hold the handles of the loading
screen (background, animation sheet, loading font, start sound, full and empty
progress bar).

`LoadResources` does the following, in order:
1. It remembers the screen size and switches to 800x600.
2. It shows the splash screen and plays an eleven-frame intro.
3. It runs four loading phases: fonts, images, sounds and music. Each phase starts
   with a message and a progress bar, then registers every asset of its manifest
   through `NewFont`, `NewImage`, `NewSound` or `NewMusic`.
4. It shows "Game loaded..." with a full bar.
5. It frees the six splash handles and restores the remembered screen size.

The rest of the class:
- `GameFont`, `GameImage`, `GameSound` and `GameMusic` read the caches.
- `FreeResources` frees every cached handle: fonts, images, music, then sounds.

The model has eight modules, one file each:

- `Outcomes` holds `Option`, `Result` and `Outcome`.
- `Host` is the graphics and audio library as the cache sees it.
  - Every call is an `Event` appended to one trace.
  - Loads hand out `Handle`s from a counter `next`.
  - The screen size is two integers.
  - `Project` filters a trace through a function. It is how the lemmas say what
    the trace looks like from a given observer's point of view.
- `Dictionary`: `Dictionary<string, V>.Add`, which throws on a key already present,
  and the indexer, which throws on a missing key. Both are functions that return
  an error value.
- `Manifest` holds the four manifests as constant sequences. The images are built
  from the eleven named images, the ship pairs of the loop, and the two trailing
  images. It also proves that every manifest's names are distinct.
- `Registry`: the four caches as one value `Caches`, plus two views of a loading
  phase.
  - `Step` and `Apply` are the operational view: one `New*` call, then a manifest
    of them, stopping at the first exception.
  - `ManifestMap` and `LoadEvents` are the declarative view: the entries and loads
    a phase that runs to the end produces.
  - It also covers the free events of the teardown loops.
- `LoadingScreen`: the splash handles, and the host calls of `ShowLoadingScreen`,
  `PlaySwinGameIntro`, `ShowMessage` and `EndLoadingScreen`.
  - The progress-bar width is computed with C# 32-bit `int` arithmetic, which wraps
    around, and C# division, which truncates toward zero.
  - The intro's cell offsets use unbounded integers: for frames 0 to 10 they are
    at most 546 and 1635, so the source's `int` arithmetic cannot overflow there.
- `Loading`: the four-phase plan, the whole loading run as a function
  `LoadingRunOf`, and the lemmas about which messages, loads, bar fills, frames,
  resizes and frees the run makes, in which order.
- `GameResources`: class `Resources`, with the four maps and the splash record as
  fields, over one `Host` object.
  - The four lookups `GameFont`, `GameImage`, `GameSound` and `GameMusic` change
    nothing, so they are functions. Every other C# method of the class is a method.
  - Each method is proved against the functions above.
  - Each method that changes the caches or the handle counter keeps `Valid()`.
    These are the `New*` and `Load*` methods, `Register` and `ShowLoadingScreen`.
    `Valid()` says that every cached handle came from an earlier load, and that no
    handle is cached under two names.
  - The drawing, freeing and teardown methods neither require nor ensure
    `Valid()`. Their `modifies` clauses name only the host's `trace` and screen-size
    fields, none of which `Valid()` reads, so they cannot change its value.

A .NET exception becomes a `Fail(DuplicateKey(name))` outcome, and every caller
returns at once on it. This follows the code: `Add` throws after the load call has
run, so the handle is allocated and never freed.

A failed `LoadResources` therefore stops in the middle of its phases. The splash
handles are never freed, and the screen stays at 800x600.

`FreeResources` does not clear the dictionaries: the maps are unchanged after it,
and a second call frees the same handles again (`Registry.TeardownTwice`).

## Model

| member | source | states |
|---|---|---|
| GameResources.Resources.constructor | src/GameResources.cs:138-148 | the four caches start empty, no splash handles are set, and the cache invariant holds |
| GameResources.Resources.GameFont | src/GameResources.cs:100-103 | succeeds exactly when the name is cached and then gives the cached handle; otherwise fails with KeyNotFound for that name |
| GameResources.Resources.GameImage | src/GameResources.cs:111-114 | the image cache's indexer: the cached handle exactly when present, KeyNotFound otherwise |
| GameResources.Resources.GameSound | src/GameResources.cs:122-125 | the sound cache's indexer: the cached handle exactly when present, KeyNotFound otherwise |
| GameResources.Resources.GameMusic | src/GameResources.cs:133-136 | the music cache's indexer: the cached handle exactly when present, KeyNotFound otherwise |
| GameResources.Resources.NewFont | src/GameResources.cs:289-292 | the font is loaded at its size with the next handle whatever happens; DuplicateKey exactly when the name is already cached, and then the cache is unchanged; otherwise exactly that one entry is added, GameFont finds it, and every other name's lookup is unchanged; the other caches cannot change; the invariant holds |
| GameResources.Resources.NewImage | src/GameResources.cs:299-302 | the same as NewFont for a plain bitmap in the image cache |
| GameResources.Resources.NewTransparentColorImage | src/GameResources.cs:310-313 | the same, with the transparent colour key passed to the load |
| GameResources.Resources.NewTransparentColourImage | src/GameResources.cs:321-324 | the same effect as NewTransparentColorImage, one Step on the image cache, with the same round trip through GameImage |
| GameResources.Resources.NewSound | src/GameResources.cs:331-334 | the same as NewFont for the sound cache |
| GameResources.Resources.NewMusic | src/GameResources.cs:341-344 | the same as NewFont for the music cache |
| GameResources.Resources.Register | src/GameResources.cs:289-344 | one manifest line's New* call changes only its own category's cache, by one Step, and keeps the invariant |
| GameResources.Resources.LoadFonts | src/GameResources.cs:14-21 | the five NewFont calls in manifest order, stopping at the first exception; the caches, trace and counter end as Apply over the font manifest says; no other cache changes |
| GameResources.Resources.LoadImages | src/GameResources.cs:26-57 | the eleven named images, the ship loop and the two trailing images, as Apply over the 23-line image manifest; only the image cache changes |
| GameResources.Resources.LoadShipImages | src/GameResources.cs:46-51 | the loop for i from 1 to the count is Apply over the ship pairs 1..count; after an exception the later passes are not run |
| GameResources.Resources.LoadShipPair | src/GameResources.cs:49-50 | ShipLR<i> from ship_deploy_horiz_<i>.png, then ShipUD<i> from ship_deploy_vert_<i>.png, the second only if the first did not throw |
| GameResources.Resources.LoadSounds | src/GameResources.cs:62-81 | the seventeen NewSound calls as Apply over the sound manifest; only the sound cache changes |
| GameResources.Resources.LoadMusic | src/GameResources.cs:86-92 | the four NewMusic calls as Apply over the music manifest; only the music cache changes |
| GameResources.Resources.LoadPhases | src/GameResources.cs:165-179 | the four message-then-load phases in order, up to the first exception, as PhasesRun says |
| GameResources.Resources.LoadResources | src/GameResources.cs:153-185 | the new caches, trace, counter and outcome are LoadingRunOf of the old state (see Loading.LoadingRun); the six splash handles are the next six ids; on success the screen is back at its old size, after an exception it is left at 800x600 |
| GameResources.Resources.ShowLoadingScreen | src/GameResources.cs:190-205 | the background is loaded and shown first; then the sheet, the 12-point font, the start sound and the two bar bitmaps are loaded; then the intro plays; the six handles are the next six ids in that order |
| GameResources.Resources.PlaySwinGameIntro | src/GameResources.cs:210-234 | the start sound, then eleven frames; frame i draws the background, the sheet cell at ((i / 6) * 546, (i % 6) * 327), a refresh and an event pump |
| GameResources.Resources.ShowMessage | src/GameResources.cs:241-261 | the empty bar, the full bar cut to BarFill(number), the message in the loading font, a refresh and an event pump |
| GameResources.Resources.EndLoadingScreen | src/GameResources.cs:268-281 | an event pump, a clear and a refresh, frees of the font, background, sheet, empty bar, full bar and start sound in that order, and the screen set to the given size |
| GameResources.Resources.FreeAll | src/GameResources.cs:352-356 | the loop frees the handle of every cached name, each name exactly once, with the category's free call; no cache changes |
| GameResources.Resources.FreeFonts | src/GameResources.cs:349-357 | one FreeFont per cached font, each font once; the caches unchanged |
| GameResources.Resources.FreeImages | src/GameResources.cs:362-370 | one FreeBitmap per cached image, each once |
| GameResources.Resources.FreeSounds | src/GameResources.cs:375-383 | one FreeSoundEffect per cached sound, each once |
| GameResources.Resources.FreeMusic | src/GameResources.cs:388-396 | one FreeMusic per cached track, each once |
| GameResources.Resources.FreeResources | src/GameResources.cs:401-408 | the trace gains the font, image, music and sound loops in that order, then one event pump; no cache entry is removed |
| Dictionary.AddEffect | src/GameResources.cs:291 | Add fails exactly on a key already present, with DuplicateKey for it; otherwise it adds that key with the value and keeps every other entry |
| Dictionary.AddThenGet | src/GameResources.cs:289-292 | after a successful Add the indexer gives the added value for the added key and the old answer for every other key |
| Dictionary.GetFailsOnlyWhenAbsent | src/GameResources.cs:100-103 | the indexer fails exactly on a missing key, and only with KeyNotFound for it |
| Manifest.DecimalRoundTrip | src/GameResources.cs:49 | Convert.ToString of a natural number reads back as the same number |
| Manifest.ShipImageEntries | src/GameResources.cs:46-51 | the ship loop's pass i puts ShipLR<i> (horizontal file) at image position 9 + 2i and ShipUD<i> (vertical file) right after it, for i from 1 to 5 |
| Manifest.ManifestsDistinct | src/GameResources.cs:14-92 | no manifest names the same asset twice, the generated ship names included |
| Manifest.ManifestsFit | src/GameResources.cs:14-92 | every manifest line suits its category's New* call: fonts carry a point size, images are plain or colour-keyed, sounds and music are plain |
| Manifest.ManifestSizes | src/GameResources.cs:14-92 | the manifests have 5, 23, 17 and 4 lines |
| Registry.ApplyNext | src/GameResources.cs:291 | every New* call of a phase allocates a handle whether or not its Add throws: the counter grows by exactly the number of loads made, including the load of the call that threw; a phase that completes uses exactly one id per line |
| Registry.ApplySucceeds | src/GameResources.cs:14-21 | a phase runs to the end exactly when its names are distinct and none of them is cached yet |
| Registry.ApplyResult | src/GameResources.cs:14-21 | a phase that runs to the end adds exactly the manifest's entries, the k-th with handle first + k, and makes exactly the manifest's loads in order |
| Registry.ApplyFailure | src/GameResources.cs:14-21 | the exception that stops a phase is Add's DuplicateKey, for a manifest name that is already cached or that the manifest itself names twice |
| Registry.ApplyStopsAtFailure | src/GameResources.cs:14-21 | once a phase has thrown, the rest of its manifest changes nothing |
| Registry.ShipsStayFailed | src/GameResources.cs:47-51 | once a pass of the ship loop has thrown, the later passes change nothing |
| Registry.ManifestPhase | src/GameResources.cs:14-92 | each of LoadFonts, LoadImages, LoadSounds and LoadMusic, from any cache and trace, completes exactly when no manifest name is cached yet. It then adds the manifest with consecutive handles and appends its loads. Otherwise it throws DuplicateKey for a cached manifest name |
| Registry.StepKeepsValid | src/GameResources.cs:289-292 | a registration keeps every cached handle older than the counter and stored under one name only |
| Registry.ManifestCounts | src/GameResources.cs:14-92 | a completed phase contributes exactly 5 fonts, 23 images, 17 sounds or 4 tracks |
| Registry.FreeEventsFrees | src/GameResources.cs:349-357 | a free loop over a cache releases each of its handles exactly once and no other handle |
| Registry.TeardownFreesOnce | src/GameResources.cs:401-408 | FreeResources frees every cached handle exactly once, with the free call of the cache holding it, and frees nothing that is not cached |
| Registry.TeardownTwice | src/GameResources.cs:401-408 | since the caches are not cleared, a second FreeResources frees every cached handle a second time, with the same call |
| Loading.PhasesMeaning | src/GameResources.cs:165-179 | the four phases complete exactly when no manifest name is cached yet. They then leave the manifests added with ids from n + 6, n + 11, n + 34 and n + 51, and the messages and loads in order. Otherwise the exception is DuplicateKey for a name already in its manifest's cache |
| Loading.LoadingRun | src/GameResources.cs:153-185 | LoadResources completes exactly when no manifest name is cached yet. It then leaves the loaded caches, ids up to n + 54 and the whole loading trace. Otherwise it stops with DuplicateKey for a cached manifest name |
| Loading.FirstLoad | src/GameResources.cs:153-185 | from the empty caches the program starts with, LoadResources never throws and leaves the loaded caches and the whole loading trace |
| Loading.FirstLoadCaches | src/GameResources.cs:14-92 | loaded from empty caches, each cache holds exactly its manifest's names, one entry per line |
| Loading.LoadedLookup | src/GameResources.cs:165-179 | after the phases, the k-th name of each manifest is cached under the handle of its own load |
| Loading.LoadedAvoidsSplash | src/GameResources.cs:190-205 | no handle the phases cache is one of the six splash handles EndLoadingScreen frees |
| Loading.RunAvoidsSplash | src/GameResources.cs:153-185 | whether LoadResources completes or stops at a DuplicateKey, no cache ever holds one of the six splash handles, provided every handle cached before the run is older than the splash |
| Loading.LoadingMilestones | src/GameResources.cs:163-184 | in LoadResources' trace the six splash loads come first. Then come "Loading fonts..." and 5 font loads, "Loading images..." and 23 image loads, "Loading sounds..." and 17 sound loads, "Loading music..." and 4 music loads, and last "Game loaded..." |
| Loading.LoadingProgress | src/GameResources.cs:165-182 | the bar is drawn with widths 0, 52, 104, 156 and 260 in that order, for stages 0, 1, 2, 3 and 5; stage 4's width is never drawn |
| Loading.TraceFills | src/GameResources.cs:241-261 | for any plan, the bar is drawn once per phase with that phase's stage, then once full, and never on the splash or intro |
| Loading.TraceFrames | src/GameResources.cs:210-234 | the intro's frames are the only parts of the animation sheet ever drawn: cells 0 to 10, in order |
| Loading.TraceResizes | src/GameResources.cs:153-185 | the screen size is set twice, to 800x600 first and back to the remembered size last |
| Loading.EndFrees | src/GameResources.cs:268-281 | the teardown frees each splash handle once, with the free call of its kind, and nothing else |
| Loading.TraceFrees | src/GameResources.cs:153-185 | over a whole run each of the six splash handles is freed exactly once with its own kind's call, and no other handle is freed |
| LoadingScreen.Wrap32 | src/GameResources.cs:253 | C# int arithmetic, which wraps around: the result is a 32-bit value, differs from the exact result by a multiple of 2^32, and equals it whenever it fits |
| LoadingScreen.CsDiv | src/GameResources.cs:253 | C# integer division, truncating toward zero: for a non-negative dividend the largest multiple of the divisor not above it, for a negative one the smallest multiple not below it |
| LoadingScreen.BarFill | src/GameResources.cs:253 | fullW is a 32-bit value; for stages 0 to 5 it lies between 0 and 260, it is 0 at stage 0 and 260 at stage 5 |
| LoadingScreen.BarFillExact | src/GameResources.cs:253 | without overflow every stage adds exactly 52 pixels |
| LoadingScreen.BarFillMonotone | src/GameResources.cs:253 | a later stage never shows less of the bar while 260 * number fits in an int |
| LoadingScreen.BarFillWraps | src/GameResources.cs:253 | past 8259552 the product overflows and the width turns negative |
| LoadingScreen.CellOriginShape | src/GameResources.cs:226 | cell offsets are whole multiples of the cell size; the sheet is read column by column (column * 6 + row gives back i); the eleven cells lie in the first two columns and six rows |
| LoadingScreen.IntroCellsDistinct | src/GameResources.cs:223-230 | two different frames of the intro come from two different cells |
| LoadingScreen.IntroDrawsElevenFrames | src/GameResources.cs:210-234 | PlaySwinGameIntro draws exactly eleven parts of the sheet, frame i from cell i, all eleven cells different |

## Left out

- src/Model/Button.cs is not part of this model. It is a thin wrapper over the sprite library.
- The library itself is not modelled: no decoding of fonts, bitmaps, sounds or music, and no drawing. Every call is an abstract `Event` in one trace, and loads hand out handles from a counter. A load never fails; missing files and the library's own exceptions are not modelled.
- `SwinGame.Delay` is left out: it only paces the screen.
- Colours, text alignment and the transparent background of the message are left out. The text position and size and the bar position are kept, because they are plain integers.
- `PathToResource` is left out: a load records the bare file name and the category.
- `System.Convert.ToInt32` of the screen size is left out: the width and height are kept as integers.
- LoadFonts, LoadSounds and LoadMusic are written in the source as straight-line New* calls, one per line. The model runs them as a loop over constant manifests with `RegisterAll` and `RegisterNext`. The order and the stop at the first exception are the same.
- LoadImages likewise runs its named and trailing images through `RegisterAll`, via `LoadImageLists`. Its counting loop stays a loop (`LoadShipImages`).
- The six splash static fields are one `Option<Splash>` field. It is set once all six loads have run. The source assigns each field as its load returns, but reads only `_Background` in between, which the model takes from a local.
- GameFont, GameImage, GameSound, GameMusic: the KeyNotFoundException is a `Result` error instead of an exception thrown to the caller.
- A .NET exception from Add is an `Outcome` that every caller passes on at once. The model does not show the stack unwinding beyond `LoadResources`.
- FreeFonts, FreeImages, FreeSounds, FreeMusic, FreeAll: the enumeration order of `Dictionary.Values` is not fixed by .NET, so each method returns the order it visited the names in as a ghost value. The contracts hold for every such order.
- BarFillMonotone: stated only while `260 * number` fits in an `int`. Beyond that the source's arithmetic wraps, which BarFillWraps shows.
- An unset (null) splash field is `None`. The methods that draw with the splash handles require it to be set, which in the source holds because only LoadResources calls them, after ShowLoadingScreen.
