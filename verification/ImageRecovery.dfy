/**
 * The startup prune as it runs: one pass over the image directory and one over the
 * layer directory, each in the order the entries happen to be listed, and what a tag
 * looks like afterwards.
 */
module ImageRecovery {
  import opened Options
  import opened ImageNames
  import opened ImageStore
  import opened ImageSafety
  import opened ImageLayers
  import opened ImageListing

  class Disk {
    var images: map<string, ImageDir>
    var layers: map<LayerName, LayerDir>

    /** The two loops of `prune_build_artifacts` over images and layers; the removals of stuck entries fail. */
    method Prune(imageListing: seq<string>, layerListing: seq<LayerName>, stuckImages: set<string>, stuckLayers: set<LayerName>)
      modifies this
      ensures images == PrunedNames(old(images), imageListing, stuckImages)
      ensures layers == PrunedLayers(old(layers), layerListing, stuckLayers)
    {
      for k := 0 to |imageListing|
        invariant images == PrunedNames(old(images), imageListing[..k], stuckImages) && layers == old(layers)
      {
        assert imageListing[..k + 1][..k] == imageListing[..k];
        PruneOne(imageListing[k], imageListing[k] in stuckImages);
      }
      assert imageListing[..|imageListing|] == imageListing;
      for k := 0 to |layerListing|
        invariant images == PrunedNames(old(images), imageListing, stuckImages)
        invariant layers == PrunedLayers(old(layers), layerListing[..k], stuckLayers)
      {
        var n := layerListing[k];
        assert layerListing[..k + 1][..k] == layerListing[..k];
        if n in layers && (n.Unpacking? || !LayerExists(layers, n.digest)) {
          if n in stuckLayers {
            layers := layers[n := TornLayer(layers[n], true, true)];
          } else {
            layers := layers - {n};
          }
        }
      }
      assert layerListing[..|layerListing|] == layerListing;
    }

    /** The body of the loop over images. */
    method PruneOne(name: string, stuck: bool)
      modifies this`images
      ensures images == if stuck then StallName(old(images), name) else PruneName(old(images), name)
    {
      if name in images {
        match Classify(name)
        case StageEntry => Remove(name, stuck);
        case BackupEntry(base) =>
          if base == "" || base in images {
            Remove(name, stuck);
          } else if !stuck {
            images := (images - {name})[base := images[name]];
          }
        case TagEntry =>
      }
    }

    /** `shutil.rmtree(path, ignore_errors=True)` */
    method Remove(name: string, stuck: bool)
      requires name in images
      modifies this`images
      ensures images == if stuck then old(images)[name := With(old(images)[name], Damage)] else old(images) - {name}
    {
      images := if stuck then images[name := With(images[name], Damage)] else images - {name};
    }
  }

  /** One startup prune: the orders of the two listings, and the entries whose removal or renaming fails. */
  datatype Pass = Pass(
    images: seq<ImageName>, layers: seq<LayerName>, stuckImages: set<ImageName>, stuckLayers: set<LayerName>)

  /** The store after a crash and one prune. */
  function Recovered(s: State, pass: Pass): State {
    State(PrunedImages(s.images, pass.images, pass.stuckImages), PrunedLayers(s.layers, pass.layers, pass.stuckLayers),
          map[], s.started)
  }

  ghost predicate Lists<T>(listing: seq<T>, names: set<T>) {
    forall n :: n in names ==> n in listing
  }

  /** The pass sees every directory. */
  ghost predicate Covers(pass: Pass, s: State) {
    Lists(pass.images, s.images.Keys) && Lists(pass.layers, s.layers.Keys)
  }

  /** `_image_dir_complete(image_dir, expected_ref=ref)` on the directory of this tag. */
  ghost predicate ImageComplete(s: State, tag: Tag, ref: string) {
    && CleanTag(tag)
    && Live(tag) in s.images
    && var d := s.images[Live(tag)];
       d.config && d.ref == Some(ref) && d.rootfs.Merged? && forall x :: x in d.layers ==> LayerExists(s.layers, x)
  }

  // ---------- what is left over ----------

  lemma {:induction false} PrunedImagesLeave(images: map<ImageName, ImageDir>, listing: seq<ImageName>, stuck: set<ImageName>)
    ensures var after := PrunedImages(images, listing, stuck);
            forall n: ImageName :: !n.Live? ==> (n in after <==> n in images && (n !in listing || n in stuck))
  {
    if listing != [] {
      var k := |listing| - 1;
      PrunedImagesLeave(images, listing[..k], stuck);
      assert listing == listing[..k] + [listing[k]];
    }
  }

  /** The two caches show the same complete layers. */
  ghost predicate SameCache(layers: map<LayerName, LayerDir>, layers': map<LayerName, LayerDir>) {
    forall x :: SameLayer(layers, layers', x)
  }

  /** A visit changes no complete layer and removes the residue it is free to remove. */
  lemma VisitLayerLeaves(layers: map<LayerName, LayerDir>, n: LayerName, stuck: set<LayerName>)
    ensures var after := VisitLayer(layers, n, stuck);
            && SameCache(layers, after)
            && (forall m :: LayerResidue(after, m) <==> LayerResidue(layers, m) && (m != n || m in stuck))
  {
  }

  lemma {:induction false} PrunedLayersLeave(layers: map<LayerName, LayerDir>, listing: seq<LayerName>, stuck: set<LayerName>)
    ensures var after := PrunedLayers(layers, listing, stuck);
            && SameCache(layers, after)
            && (forall n :: LayerResidue(after, n) <==> LayerResidue(layers, n) && (n !in listing || n in stuck))
  {
    hide LayerResidue, LayerExists, VisitLayer, SameCache;
    if listing == [] {
      SameAfterBoth(layers, layers, layers);
    } else {
      var k := |listing| - 1;
      var before := PrunedLayers(layers, listing[..k], stuck);
      PrunedLayersLeave(layers, listing[..k], stuck);
      VisitLayerLeaves(before, listing[k], stuck);
      assert listing == listing[..k] + [listing[k]];
      SameAfterBoth(layers, before, VisitLayer(before, listing[k], stuck));
    }
  }

  lemma SameAfterBoth(a: map<LayerName, LayerDir>, b: map<LayerName, LayerDir>, c: map<LayerName, LayerDir>)
    ensures SameCache(a, a)
    ensures SameCache(a, b) && SameCache(b, c) ==> SameCache(a, c)
  {
    hide SameLayer;
    forall x
      ensures SameLayer(a, a, x)
      ensures SameLayer(a, b, x) && SameLayer(b, c, x) ==> SameLayer(a, c, x)
    {
      StillSame(a, b, c, x);
    }
  }

  lemma StillSame(a: map<LayerName, LayerDir>, b: map<LayerName, LayerDir>, c: map<LayerName, LayerDir>, x: Digest)
    ensures SameLayer(a, a, x)
    ensures SameLayer(a, b, x) && SameLayer(b, c, x) ==> SameLayer(a, c, x)
  {
    hide LayerExists;
  }

  /** A stage or backup directory, or a layer directory that is no complete layer, is left exactly when it is stuck. */
  lemma ResidueExact(s: State, pass: Pass)
    requires Covers(pass, s)
    ensures var r := Recovered(s, pass);
            && (forall n: ImageName :: !n.Live? ==> (n in r.images <==> n in s.images && n in pass.stuckImages))
            && (forall n :: LayerResidue(r.layers, n) <==> LayerResidue(s.layers, n) && n in pass.stuckLayers)
  {
    hide LayerResidue, LayerExists;
    PrunedImagesLeave(s.images, pass.images, pass.stuckImages);
    PrunedLayersLeave(s.layers, pass.layers, pass.stuckLayers);
    forall n | LayerResidue(s.layers, n)
      ensures n in pass.layers
    {
      ResidueIsListed(s.layers, n);
    }
  }

  lemma ResidueIsListed(layers: map<LayerName, LayerDir>, n: LayerName)
    requires LayerResidue(layers, n)
    ensures n in layers
  {
  }

  ghost predicate NoResidue(s: State) {
    (forall n :: n in s.images ==> n.Live?) && forall n :: !LayerResidue(s.layers, n)
  }

  /** A prune in which nothing is stuck leaves no residue. */
  lemma FreePruneLeavesNoResidue(s: State, pass: Pass)
    requires Covers(pass, s) && pass.stuckImages == {} && pass.stuckLayers == {}
    ensures NoResidue(Recovered(s, pass))
  {
    hide LayerResidue;
    ResidueExact(s, pass);
  }

  // ---------- tags ----------

  lemma VisitImageSafely(s: State, n: ImageName, stuck: set<ImageName>, tag: Tag)
    requires Sound(s, tag)
    ensures var s' := s.(images := VisitImage(s.images, n, stuck));
            Sound(s', tag) && (Present(s, tag) ==> Present(s', tag))
  {
    hide Genuine;
    if n !in stuck {
      PruneImageSafe(s, n, tag);
    } else if Removable(s.images, n) {
      TearImageSafe(s, n, tag);
    }
  }

  lemma {:induction false} PruneImagesSafely(s: State, listing: seq<ImageName>, stuck: set<ImageName>, tag: Tag)
    requires Sound(s, tag)
    ensures var s' := s.(images := PrunedImages(s.images, listing, stuck));
            Sound(s', tag) && (Present(s, tag) ==> Present(s', tag))
  {
    hide Sound, Present, VisitImage;
    if listing != [] {
      var k := |listing| - 1;
      PruneImagesSafely(s, listing[..k], stuck, tag);
      VisitImageSafely(s.(images := PrunedImages(s.images, listing[..k], stuck)), listing[k], stuck, tag);
    }
  }

  /** Either the tag is live, or one of its backups is free to be renamed back. */
  ghost predicate Restorable(s: State, tag: Tag, stuck: set<ImageName>) {
    Live(tag) in s.images || exists u :: Backup(tag, u) in s.images && Backup(tag, u) !in stuck
  }

  /** A live directory stays where it is. */
  lemma {:induction false} LiveIsKept(images: map<ImageName, ImageDir>, listing: seq<ImageName>, stuck: set<ImageName>, tag: Tag)
    requires Live(tag) in images
    ensures Live(tag) in PrunedImages(images, listing, stuck)
    ensures PrunedImages(images, listing, stuck)[Live(tag)] == images[Live(tag)]
  {
    if listing != [] {
      LiveIsKept(images, listing[..|listing| - 1], stuck, tag);
    }
  }

  /** A backup that can be renamed is there until the tag is live. */
  lemma {:induction false} BackupOrLive(images: map<ImageName, ImageDir>, listing: seq<ImageName>, stuck: set<ImageName>,
                                        tag: Tag, u: Uid)
    requires Backup(tag, u) in images
    ensures var after := PrunedImages(images, listing, stuck);
            Live(tag) in after || Backup(tag, u) in after
  {
    if listing != [] {
      BackupOrLive(images, listing[..|listing| - 1], stuck, tag, u);
    }
  }

  lemma RestoredTag(s: State, pass: Pass, tag: Tag)
    requires Covers(pass, s) && Restorable(s, tag, pass.stuckImages)
    ensures Live(tag) in Recovered(s, pass).images
  {
    if Live(tag) in s.images {
      LiveIsKept(s.images, pass.images, pass.stuckImages, tag);
    } else {
      var u :| Backup(tag, u) in s.images && Backup(tag, u) !in pass.stuckImages;
      BackupOrLive(s.images, pass.images, pass.stuckImages, tag, u);
      PrunedImagesLeave(s.images, pass.images, pass.stuckImages);
      assert Backup(tag, u) in pass.images;
    }
  }

  lemma VisitUsesNothingNew(s: State, n: ImageName, stuck: set<ImageName>)
    requires s.pulls == map[]
    ensures NoNewUses(s, s.(images := VisitImage(s.images, n, stuck)))
  {
    hide NoNewUses, PruneImageStep, Removable, Perform;
    PruneImagesNoNewUses(s, if n in stuck then TearImage(n) else PruneImage(n));
    SameStoreUses(s);
  }

  lemma SameStoreUses(s: State)
    ensures NoNewUses(s, s)
  {
  }

  lemma {:induction false} PruneUsesNothingNew(s: State, listing: seq<ImageName>, stuck: set<ImageName>)
    requires s.pulls == map[]
    ensures NoNewUses(s, s.(images := PrunedImages(s.images, listing, stuck)))
  {
    hide VisitImage, Uses;
    if listing != [] {
      var k := |listing| - 1;
      PruneUsesNothingNew(s, listing[..k], stuck);
      VisitUsesNothingNew(s.(images := PrunedImages(s.images, listing[..k], stuck)), listing[k], stuck);
    }
  }

  /** The layers stay sound through a crash and a prune. */
  lemma RecoveryKeepsLayers(s: State, pass: Pass)
    requires LayersSound(s)
    ensures LayersSound(Recovered(s, pass))
  {
    hide Uses, LayerExists, LayerResidue;
    var crashed := s.(pulls := map[]);
    PruneImagesNoNewUses(s, Crash);
    PruneUsesNothingNew(crashed, pass.images, pass.stuckImages);
    PrunedLayersLeave(s.layers, pass.layers, pass.stuckLayers);
    var r := Recovered(s, pass);
    SameUses(crashed.(images := r.images), r);
    SoundBySameLayers(s, r);
  }

  lemma SoundBySameLayers(s: State, r: State)
    requires LayersSound(s) && NoNewUses(s, r) && SameCache(s.layers, r.layers)
    ensures LayersSound(r)
  {
    hide Uses;
    forall x
      ensures LayerExists(r.layers, x) ==> r.layers[Published(x)].filled
      ensures Uses(r, x) ==> LayerExists(r.layers, x)
    {
      assert SameLayer(s.layers, r.layers, x);
    }
  }

  /**
   * A clean tag with its view intact comes out of every restart live, whole and complete with all
   * its layers, unless renaming its backups back fails.
   */
  lemma RestartShowsTag(s: State, pass: Pass, tag: Tag)
    requires CleanTag(tag) && Sound(s, tag) && LayersSound(s)
    requires Covers(pass, s) && Restorable(s, tag, pass.stuckImages)
    ensures var r := Recovered(s, pass);
            && Live(tag) in r.images
            && Genuine(r.started, tag, r.images[Live(tag)])
            && ImageComplete(r, tag, r.images[Live(tag)].ref.value)
            && forall x :: x in r.images[Live(tag)].layers ==> TreeFilled(r.layers, x)
  {
    hide CleanTag;
    var r := Recovered(s, pass);
    PruneImagesSafely(s.(pulls := map[]), pass.images, pass.stuckImages, tag);
    RestoredTag(s, pass, tag);
    RecoveryKeepsLayers(s, pass);
    forall x | x in r.images[Live(tag)].layers
      ensures LayerExists(r.layers, x) && TreeFilled(r.layers, x)
    {
      assert Uses(r, x);
    }
  }

  // ---------- exactly which tags survive ----------

  /** `os.listdir`: every name once, in some order. */
  ghost predicate IsListing<T(!new)>(listing: seq<T>, names: set<T>) {
    && (forall n :: n in listing <==> n in names)
    && (forall i, j :: 0 <= i < j < |listing| ==> listing[i] != listing[j])
  }

  lemma {:induction false} SomeListing<T(!new)>(names: set<T>) returns (listing: seq<T>)
    ensures IsListing(listing, names)
    decreases names
  {
    if names == {} {
      listing := [];
    } else {
      var n :| n in names;
      var rest := SomeListing(names - {n});
      listing := [n] + rest;
      assert n !in rest;
    }
  }

  lemma {:induction false} FirstBackupWins(images: map<ImageName, ImageDir>, tag: Tag, u: Uid, rest: seq<ImageName>)
    requires Live(tag) !in images && Backup(tag, u) in images
    ensures var after := PrunedImages(images, [Backup(tag, u)] + rest, {});
            Live(tag) in after && after[Live(tag)] == images[Backup(tag, u)]
  {
    var listing := [Backup(tag, u)] + rest;
    if rest == [] {
      assert listing[..0] == [] && listing[0] == Backup(tag, u);
      assert PrunedImages(images, listing[..0], {}) == images;
    } else {
      var k := |rest| - 1;
      assert listing[..|listing| - 1] == [Backup(tag, u)] + rest[..k];
      FirstBackupWins(images, tag, u, rest[..k]);
    }
  }

  /** Of a tag that is not sound, some listing order shows a damaged directory after the restart. */
  lemma UnsoundShowsDamage(s: State, tag: Tag) returns (listing: seq<ImageName>)
    requires !Sound(s, tag)
    ensures IsListing(listing, s.images.Keys)
    ensures var after := PrunedImages(s.images, listing, {});
            Live(tag) in after && !Genuine(s.started, tag, after[Live(tag)])
  {
    if Live(tag) in s.images {
      listing := SomeListing(s.images.Keys);
      LiveIsKept(s.images, listing, {}, tag);
    } else {
      var u :| Backup(tag, u) in s.images && !Genuine(s.started, tag, s.images[Backup(tag, u)]);
      var rest := SomeListing(s.images.Keys - {Backup(tag, u)});
      listing := [Backup(tag, u)] + rest;
      FirstBackupWins(s.images, tag, u, rest);
    }
  }

  /** Without a live directory or a backup nothing brings a tag back. */
  lemma {:induction false} AbsentStaysAbsent(images: map<ImageName, ImageDir>, listing: seq<ImageName>, stuck: set<ImageName>, tag: Tag)
    requires Live(tag) !in images && forall u :: Backup(tag, u) !in images
    ensures var after := PrunedImages(images, listing, stuck);
            Live(tag) !in after && forall u :: Backup(tag, u) !in after
  {
    if listing != [] {
      AbsentStaysAbsent(images, listing[..|listing| - 1], stuck, tag);
    }
  }

  /** The store as some order of listing shows it: the tag is live and whole after a prune that goes through. */
  ghost predicate ShownAfter(dirs: map<string, ImageDir>, started: map<Uid, Order>, listing: seq<string>, tag: Tag) {
    var after := PrunedNames(dirs, listing, {});
    tag in after && Genuine(started, tag, after[tag])
  }

  /** The tag's directory is there and whole after every restart, whatever the listing order. */
  ghost predicate SurvivesRestart(dirs: map<string, ImageDir>, started: map<Uid, Order>, tag: Tag) {
    forall listing :: IsListing(listing, dirs.Keys) ==> ShownAfter(dirs, started, listing, tag)
  }

  lemma ShownByStore(s: State, dirs: map<string, ImageDir>, listing: seq<ImageName>, tag: Tag)
    requires Shows(s.images, dirs) && AllSafe(s.images) && SafeTag(tag) && SafeListing(listing)
    ensures var after := PrunedImages(s.images, listing, {});
            ShownAfter(dirs, s.started, SpellAll(listing), tag) <==>
            Live(tag) in after && Genuine(s.started, tag, after[Live(tag)])
  {
    hide Shows, AllSafe, SafeTag, Genuine;
    PrunedNamesAgree(s.images, dirs, listing, {}, {});
    ShownName(PrunedImages(s.images, listing, {}), PrunedNames(dirs, SpellAll(listing), {}), Live(tag));
    assert Spell(Live(tag)) == tag;
  }

  /** Listing a store and listing its names is the same, one spelling per directory. */
  lemma NamesOfListing(images: map<ImageName, ImageDir>, dirs: map<string, ImageDir>, listing: seq<ImageName>)
    requires Shows(images, dirs) && AllSafe(images) && IsListing(listing, images.Keys)
    ensures IsListing(SpellAll(listing), dirs.Keys) && SafeListing(listing)
  {
    hide Spell, CleanTag, SpellAll;
    var names := SpellAll(listing);
    forall name | name in dirs
      ensures name in names
    {
      assert Spells(images, name);
      var n := Spelled(images, name);
      assert n in listing;
      var k :| 0 <= k < |listing| && listing[k] == n;
      assert names[k] == name;
    }
    forall name | name in names
      ensures name in dirs
    {
      var k :| 0 <= k < |names| && names[k] == name;
      assert listing[k] in images;
    }
    forall i, j | 0 <= i < j < |names|
      ensures names[i] != names[j]
    {
      assert listing[i] in images && listing[j] in images;
      if names[i] == names[j] {
        SpellInjective(listing[i], listing[j]);
      }
    }
  }

  lemma ListingOfNames(images: map<ImageName, ImageDir>, dirs: map<string, ImageDir>, names: seq<string>) returns (listing: seq<ImageName>)
    requires Shows(images, dirs) && AllSafe(images) && IsListing(names, dirs.Keys)
    ensures SpellAll(listing) == names && Lists(listing, images.Keys) && SafeListing(listing)
  {
    hide Spell, CleanTag, SpellAll;
    forall k | 0 <= k < |names|
      ensures Spells(images, names[k])
    {
      assert names[k] in names;
    }
    listing := ListingOf(images, names);
    forall n | n in images
      ensures n in listing
    {
      assert Spell(n) in names;
      var k :| 0 <= k < |names| && names[k] == Spell(n);
      assert listing[k] in listing && Spell(listing[k]) == Spell(n);
      SpellInjective(listing[k], n);
    }
  }

  /**
   * In a store whose other tags have safe names, exactly the clean tags that are sound and present
   * survive every restart.
   */
  lemma SurvivalExact(s: State, dirs: map<string, ImageDir>, tag: Tag)
    requires Shows(s.images, dirs) && tag != "" && forall n :: n in s.images && n.tag != tag ==> SafeTag(n.tag)
    ensures SurvivesRestart(dirs, s.started, tag) <==> CleanTag(tag) && Sound(s, tag) && Present(s, tag)
  {
    hide CleanTag, Sound, Present, Genuine, Shows;
    if !CleanTag(tag) {
      UncleanDies(s, dirs, tag);
    } else if !Sound(s, tag) {
      var listing := UnsoundShowsDamage(s, tag);
      NamesOfListing(s.images, dirs, listing);
      ShownByStore(s, dirs, listing, tag);
    } else if !Present(s, tag) {
      AbsentDies(s, dirs, tag);
    } else {
      forall names | IsListing(names, dirs.Keys)
        ensures ShownAfter(dirs, s.started, names, tag)
      {
        SoundSurvives(s, dirs, names, tag);
      }
    }
  }

  lemma UncleanDies(s: State, dirs: map<string, ImageDir>, tag: Tag)
    requires !CleanTag(tag)
    ensures !SurvivesRestart(dirs, s.started, tag)
  {
    hide CleanTag, Genuine;
    var names := SomeListing(dirs.Keys);
    UncleanTagIsPruned(dirs, names, {}, tag);
    assert !ShownAfter(dirs, s.started, names, tag);
  }

  lemma AbsentDies(s: State, dirs: map<string, ImageDir>, tag: Tag)
    requires Shows(s.images, dirs) && AllSafe(s.images) && SafeTag(tag) && !Present(s, tag)
    ensures !SurvivesRestart(dirs, s.started, tag)
  {
    hide CleanTag, Genuine, Shows, AllSafe, SafeTag;
    var listing := SomeListing(s.images.Keys);
    NamesOfListing(s.images, dirs, listing);
    ShownByStore(s, dirs, listing, tag);
    AbsentStaysAbsent(s.images, listing, {}, tag);
  }

  lemma SoundSurvives(s: State, dirs: map<string, ImageDir>, names: seq<string>, tag: Tag)
    requires Shows(s.images, dirs) && AllSafe(s.images) && SafeTag(tag) && IsListing(names, dirs.Keys)
    requires Sound(s, tag) && Present(s, tag)
    ensures ShownAfter(dirs, s.started, names, tag)
  {
    hide CleanTag, Genuine, Shows, AllSafe, SafeTag;
    var listing := ListingOfNames(s.images, dirs, names);
    ShownByStore(s, dirs, listing, tag);
    PruneImagesSafely(s.(pulls := map[]), listing, {}, tag);
    var pass := Pass(listing, [], {}, {});
    PrunedImagesLeave(s.images, listing, {});
    if Live(tag) in s.images {
      LiveIsKept(s.images, listing, {}, tag);
    } else {
      var u :| Backup(tag, u) in s.images;
      BackupOrLive(s.images, listing, {}, tag, u);
    }
  }
}
