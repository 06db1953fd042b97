/**
 * The static asset manifests: for each category the ordered list of
 * (name, file, parameter) triples that LoadFonts, LoadImages, LoadSounds and
 * LoadMusic register.
 */
module Manifest {
  import opened Host

  datatype Asset = Asset(name: string, file: string, option: LoadOption)

  function Names(assets: seq<Asset>): seq<string>
  {
    seq(|assets|, i requires 0 <= i < |assets| => assets[i].name)
  }

  /** No two assets of the list share a name. */
  ghost predicate DistinctNames(assets: seq<Asset>)
  {
    forall i, j :: 0 <= i < j < |assets| ==> assets[i].name != assets[j].name
  }

  /** System.Convert.ToString of a non-negative integer: its decimal digits. */
  function DecimalString(n: nat): (s: string)
    ensures |s| >= 1
    ensures forall i :: 0 <= i < |s| ==> '0' <= s[i] <= '9'
  {
    if n < 10 then [Digit(n)] else DecimalString(n / 10) + [Digit(n % 10)]
  }

  function Digit(d: nat): (c: char)
    requires d < 10
    ensures '0' <= c <= '9'
  {
    (d + '0' as int) as char
  }

  /** The number a string of decimal digits denotes. */
  function DecimalValue(s: string): nat
    requires forall i :: 0 <= i < |s| ==> '0' <= s[i] <= '9'
  {
    if s == [] then 0 else 10 * DecimalValue(s[..|s| - 1]) + (s[|s| - 1] as int - '0' as int)
  }

  /** DecimalString writes a number so that it reads back as the same number. */
  lemma {:induction false} DecimalRoundTrip(n: nat)
    ensures DecimalValue(DecimalString(n)) == n
  {
    if n >= 10 {
      var s := DecimalString(n);
      assert s[..|s| - 1] == DecimalString(n / 10);
      DecimalRoundTrip(n / 10);
    }
  }

  const FontManifest: seq<Asset> := [
    Asset("ArialLarge", "arial.ttf", PointSize(85)),
    Asset("Courier", "cour.ttf", PointSize(18)),
    Asset("CourierSmall", "cour.ttf", PointSize(14)),
    Asset("Menu", "ffaccess.ttf", PointSize(8)),
    Asset("Time", "ffaccess.ttf", PointSize(15))
  ]

  /** The backgrounds, splash screens and deployment buttons, registered before the ships. */
  const NamedImages: seq<Asset> := [
    Asset("Menu", "main_page.jpg", Plain),
    Asset("Discovery", "discover.jpg", Plain),
    Asset("Deploy", "deploy.jpg", Plain),
    Asset("Instructions", "instructions.jpg", Plain),
    Asset("YouLose", "youlose.jpg", Plain),
    Asset("YouWin", "youwin.jpg", Plain),
    Asset("LeftRightButton", "deploy_dir_button_horiz.png", Plain),
    Asset("UpDownButton", "deploy_dir_button_vert.png", Plain),
    Asset("SelectedShip", "deploy_button_hl.png", Plain),
    Asset("PlayButton", "deploy_play_button.png", Plain),
    Asset("RandomButton", "deploy_randomize_button.png", Plain)
  ]

  /** The two ship images of ship size i, horizontal first. */
  function ShipPair(i: nat): seq<Asset>
  {
    [ Asset("ShipLR" + DecimalString(i), "ship_deploy_horiz_" + DecimalString(i) + ".png", Plain),
      Asset("ShipUD" + DecimalString(i), "ship_deploy_vert_" + DecimalString(i) + ".png", Plain) ]
  }

  /** What the ship loop registers after its first `count` iterations. */
  function ShipImages(count: nat): (r: seq<Asset>)
    ensures |r| == 2 * count
  {
    if count == 0 then [] else ShipImages(count - 1) + ShipPair(count)
  }

  const TrailingImages: seq<Asset> := [
    Asset("Explosion", "explosion.png", Plain),
    Asset("Splash", "splash.png", Plain)
  ]

  const ImageManifest: seq<Asset> := NamedImages + ShipImages(5) + TrailingImages

  const SoundManifest: seq<Asset> := [
    Asset("Error", "error.wav", Plain),
    Asset("Hit", "hit.wav", Plain),
    Asset("Sink", "sink.wav", Plain),
    Asset("Siren", "siren.wav", Plain),
    Asset("Miss", "watershot.wav", Plain),
    Asset("Winner", "winner.wav", Plain),
    Asset("Lose", "lose.wav", Plain),
    Asset("Lose1", "Lose1.wav", Plain),
    Asset("Lose2", "Lose2.wav", Plain),
    Asset("Start1", "Start1.wav", Plain),
    Asset("Start2", "Start2.wav", Plain),
    Asset("Start3", "Start3.wav", Plain),
    Asset("Win1", "Win1.wav", Plain),
    Asset("Destroy1", "Destroy1.wav", Plain),
    Asset("Destroy2", "Destroy2.wav", Plain),
    Asset("Destroy3", "HitT1.wav", Plain),
    Asset("Destroy4", "HitT2.wav", Plain)
  ]

  const MusicManifest: seq<Asset> := [
    Asset("Background1", "Halo.mp3", Plain),
    Asset("Background2", "unreal.mp3", Plain),
    Asset("Background3", "shortie.mp3", Plain),
    Asset("Background4", "deepblue.mp3", Plain)
  ]

  function ManifestOf(kind: Kind): seq<Asset>
  {
    match kind
    case FontKind => FontManifest
    case BitmapKind => ImageManifest
    case SoundKind => SoundManifest
    case MusicKind => MusicManifest
  }

  /** An asset a category's New* method can be given: fonts carry a point size, bitmaps at most a colour key. */
  predicate Fits(kind: Kind, a: Asset)
  {
    match kind
    case FontKind => a.option.PointSize?
    case BitmapKind => a.option.Plain? || a.option.ColourKey?
    case SoundKind => a.option.Plain?
    case MusicKind => a.option.Plain?
  }

  lemma ManifestSizes()
    ensures |FontManifest| == 5 && |ImageManifest| == 23 && |SoundManifest| == 17 && |MusicManifest| == 4
  {
  }

  lemma ManifestsFit(kind: Kind)
    ensures forall i :: 0 <= i < |ManifestOf(kind)| ==> Fits(kind, ManifestOf(kind)[i])
  {
    if kind == BitmapKind {
      forall i | 0 <= i < 10 ensures ShipImages(5)[i].option == Plain {
        ShipImagesPlain(5, i);
      }
    }
  }

  /** The named and the trailing images are plain bitmaps. */
  lemma ImagePartsFit()
    ensures forall i :: 0 <= i < |NamedImages| ==> Fits(BitmapKind, NamedImages[i])
    ensures forall i :: 0 <= i < |TrailingImages| ==> Fits(BitmapKind, TrailingImages[i])
  {
  }

  lemma {:induction false} ShipImagesPlain(count: nat, i: nat)
    requires i < 2 * count
    ensures ShipImages(count)[i].option == Plain
  {
    if i < 2 * (count - 1) {
      ShipImagesPlain(count - 1, i);
    }
  }

  /** The ship loop: iteration i registers ShipLR<i> from ship_deploy_horiz_<i>.png and then ShipUD<i> from ship_deploy_vert_<i>.png. */
  lemma {:induction false} ShipImageEntries(i: nat)
    requires 1 <= i <= 5
    ensures ImageManifest[9 + 2 * i] == Asset("ShipLR" + DecimalString(i), "ship_deploy_horiz_" + DecimalString(i) + ".png", Plain)
    ensures ImageManifest[10 + 2 * i] == Asset("ShipUD" + DecimalString(i), "ship_deploy_vert_" + DecimalString(i) + ".png", Plain)
  {
    ShipImagesAt(5, i);
  }

  lemma {:induction false} ShipImagesAt(count: nat, i: nat)
    requires 1 <= i <= count
    ensures ShipImages(count)[2 * i - 2 .. 2 * i] == ShipPair(i)
  {
    if i < count {
      ShipImagesAt(count - 1, i);
      assert ShipImages(count)[2 * i - 2 .. 2 * i] == ShipImages(count - 1)[2 * i - 2 .. 2 * i];
    }
  }

  /** No category's manifest names the same asset twice. */
  lemma ManifestsDistinct(kind: Kind)
    ensures DistinctNames(ManifestOf(kind))
  {
    match kind
    case FontKind => FontNamesDistinct();
    case BitmapKind => ImageNamesDistinct();
    case SoundKind => SoundNamesDistinct();
    case MusicKind => MusicNamesDistinct();
  }

  lemma FontNamesDistinct()
    ensures DistinctNames(FontManifest)
  {
  }

  lemma SoundNamesDistinct()
    ensures DistinctNames(SoundManifest)
  {
    var m := SoundManifest;
    var lengths := [5, 3, 4, 5, 4, 6, 4, 5, 5, 6, 6, 6, 4, 8, 8, 8, 8];
    assert forall i :: 0 <= i < |m| ==> |m[i].name| == lengths[i];
    forall i, j | 0 <= i < j < |m| && lengths[i] == lengths[j] ensures m[i].name != m[j].name {
      assert m[i].name[0] != m[j].name[0] || m[i].name[lengths[i] - 1] != m[j].name[lengths[i] - 1];
    }
  }

  lemma MusicNamesDistinct()
    ensures DistinctNames(MusicManifest)
  {
  }

  lemma ImageNamesDistinct()
    ensures DistinctNames(ImageManifest)
  {
    var fixed, ships := NamedImages + TrailingImages, ShipImages(5);
    FixedImageNames();
    ShipImageNames();
    forall i, k | 0 <= i < |fixed| && 0 <= k < |ships| ensures fixed[i].name != ships[k].name {
    }
    DistinctSplice(NamedImages, ships, TrailingImages);
  }

  lemma FixedImageNames()
    ensures DistinctNames(NamedImages + TrailingImages)
    ensures forall k :: 0 <= k < 13 ==>
      |(NamedImages + TrailingImages)[k].name| != 7 || (NamedImages + TrailingImages)[k].name[0] != 'S'
  {
  }

  lemma ShipImageNames()
    ensures DistinctNames(ShipImages(5))
    ensures forall k :: 0 <= k < 10 ==> |ShipImages(5)[k].name| == 7 && ShipImages(5)[k].name[0] == 'S'
  {
    var ships := ShipImages(5);
    forall k | 0 <= k < 10
      ensures |ships[k].name| == 7 && ships[k].name[0] == 'S'
      ensures ships[k].name[6] == Digit(k / 2 + 1)
      ensures ships[k].name[4] == if k % 2 == 0 then 'L' else 'U'
    {
      ShipNameShape(5, k);
    }
    forall i, j | 0 <= i < j < 10 ensures ships[i].name != ships[j].name {
      if i / 2 == j / 2 {
        assert ships[i].name[4] != ships[j].name[4];
      } else {
        assert ships[i].name[6] != ships[j].name[6];
      }
    }
  }

  /** Splicing a list of fresh names into a list of distinct names keeps them distinct. */
  lemma DistinctSplice(a: seq<Asset>, b: seq<Asset>, c: seq<Asset>)
    requires DistinctNames(a + c) && DistinctNames(b)
    requires forall i, k :: 0 <= i < |a + c| && 0 <= k < |b| ==> (a + c)[i].name != b[k].name
    ensures DistinctNames(a + b + c)
  {
    var all := a + b + c;
    forall i, j | 0 <= i < j < |all| ensures all[i].name != all[j].name {
      var p := if i < |a| then i else i - |b|;
      var q := if j < |a| then j else j - |b|;
      if |a| <= i < |a| + |b| && |a| <= j < |a| + |b| {
        assert all[i] == b[i - |a|] && all[j] == b[j - |a|];
      } else if |a| <= i < |a| + |b| {
        assert all[i] == b[i - |a|] && all[j] == (a + c)[q];
      } else if |a| <= j < |a| + |b| {
        assert all[j] == b[j - |a|] && all[i] == (a + c)[p];
      } else {
        assert all[i] == (a + c)[p] && all[j] == (a + c)[q];
      }
    }
  }

  lemma {:induction false} ShipNameShape(count: nat, k: nat)
    requires count <= 9 && k < 2 * count
    ensures |ShipImages(count)[k].name| == 7 && ShipImages(count)[k].name[0] == 'S'
    ensures ShipImages(count)[k].name[6] == Digit(k / 2 + 1)
    ensures ShipImages(count)[k].name[4] == if k % 2 == 0 then 'L' else 'U'
  {
    var i := k / 2 + 1;
    ShipImagesAt(count, i);
    assert DecimalString(i) == [Digit(i)];
    assert ShipImages(count)[k] == ShipPair(i)[k % 2];
  }
}
