/**
 * The image directory as the prune sees it: directories under plain names. For clean tags the
 * names say which stage, backup or live directory they belong to, and pruning by name is the
 * prune of ImageStore; for any other tag it removes the published directory.
 */
module ImageListing {
  import opened Options
  import opened Text
  import opened ImageNames
  import opened ImageStore

  /** Stands for the `uuid4().hex` of one pull: different for different pulls and without a dot. */
  function Suffix(u: Uid): string {
    Digits(u)
  }

  /** The name a directory has on disk. */
  function Spell(n: ImageName): string {
    match n
    case Live(tag) => tag
    case Stage(tag, u) => StageName(tag, Suffix(u))
    case Backup(tag, u) => BackupName(tag, Suffix(u))
  }

  /** A directory name that `image_to_path` can give and the prune does not misread. */
  predicate SafeTag(tag: Tag) {
    tag != "" && CleanTag(tag)
  }

  // ---------- the prune by name ----------

  /** `os.path.exists` of a name in the image directory; the empty name is the image directory itself. */
  predicate Exists(dirs: map<string, ImageDir>, name: string) {
    name == "" || name in dirs
  }

  /** What one entry of the listing makes the prune do. */
  function PruneName(dirs: map<string, ImageDir>, name: string): map<string, ImageDir> {
    if name !in dirs then dirs
    else match Classify(name)
      case StageEntry => dirs - {name}
      case BackupEntry(base) => if Exists(dirs, base) then dirs - {name} else (dirs - {name})[base := dirs[name]]
      case TagEntry => dirs
  }

  /** A removal that ends with something left damages the directory; a renaming that fails changes nothing. */
  function StallName(dirs: map<string, ImageDir>, name: string): map<string, ImageDir> {
    if name !in dirs then dirs
    else match Classify(name)
      case StageEntry => dirs[name := With(dirs[name], Damage)]
      case BackupEntry(base) => if Exists(dirs, base) then dirs[name := With(dirs[name], Damage)] else dirs
      case TagEntry => dirs
  }

  function VisitName(dirs: map<string, ImageDir>, name: string, stuck: set<string>): map<string, ImageDir> {
    if name in stuck then StallName(dirs, name) else PruneName(dirs, name)
  }

  /** The whole pass over a listing; the removals and renamings of the stuck names fail. */
  function PrunedNames(dirs: map<string, ImageDir>, listing: seq<string>, stuck: set<string>): map<string, ImageDir> {
    if listing == [] then dirs
    else VisitName(PrunedNames(dirs, listing[..|listing| - 1], stuck), listing[|listing| - 1], stuck)
  }

  // ---------- names of clean tags can be read back ----------

  lemma SuffixesDiffer(u: Uid, v: Uid)
    requires Suffix(u) == Suffix(v)
    ensures u == v
  {
    DigitsRoundTrip(u);
    DigitsRoundTrip(v);
  }

  lemma SuffixHasNoDot(u: Uid)
    ensures DotFree(Suffix(u))
  {
  }

  /** In the stage name of a clean tag the marker occurs once, right after the tag. */
  lemma OneMarker(tag: Tag, u: Uid, i: nat)
    requires CleanTag(tag)
    ensures OccursAt(StageName(tag, Suffix(u)), PULL, i) <==> i == |tag|
  {
    SuffixHasNoDot(u);
    OccursWhenChars(StageName(tag, Suffix(u)), PULL, |tag|);
    if OccursAt(StageName(tag, Suffix(u)), PULL, i) {
      MarkerPlace(tag, PULL, Suffix(u), PULL, i);
    }
  }

  lemma StagesDiffer(tag: Tag, u: Uid, other: Tag, v: Uid)
    requires CleanTag(tag) && CleanTag(other) && StageName(tag, Suffix(u)) == StageName(other, Suffix(v))
    ensures tag == other && u == v
  {
    hide CleanTag;
    OneMarker(tag, u, |tag|);
    OneMarker(other, v, |tag|);
    var name := StageName(tag, Suffix(u));
    assert name[..|tag|] == tag && name[|tag| + |PULL|..] == Suffix(u);
    assert name[..|other|] == other && name[|other| + |PULL|..] == Suffix(v);
    SuffixesDiffer(u, v);
  }

  lemma BackupsDiffer(tag: Tag, u: Uid, other: Tag, v: Uid)
    requires CleanTag(tag) && CleanTag(other) && BackupName(tag, Suffix(u)) == BackupName(other, Suffix(v))
    ensures tag == other && u == v
  {
    hide CleanTag, Classify;
    SuffixHasNoDot(u);
    SuffixHasNoDot(v);
    BackupNamesItsTag(tag, Suffix(u));
    BackupNamesItsTag(other, Suffix(v));
    var name := BackupName(tag, Suffix(u));
    assert name[|tag| + |OLD|..] == Suffix(u);
    assert BackupName(other, Suffix(v))[|other| + |OLD|..] == Suffix(v);
    SuffixesDiffer(u, v);
  }

  /** What the prune makes of the name of a clean tag's directory. */
  function EntryOf(n: ImageName): Entry {
    match n
    case Live(_) => TagEntry
    case Stage(_, _) => StageEntry
    case Backup(tag, _) => BackupEntry(tag)
  }

  lemma ReadsBack(n: ImageName)
    requires CleanTag(n.tag)
    ensures Classify(Spell(n)) == EntryOf(n)
  {
    hide CleanTag, Classify;
    match n
    case Live(tag) => TagIsKept(tag);
    case Stage(tag, u) => StageIsStage(tag, Suffix(u));
    case Backup(tag, u) => SuffixHasNoDot(u); BackupNamesItsTag(tag, Suffix(u));
  }

  /** Different directories of clean tags have different names. */
  lemma SpellInjective(n: ImageName, m: ImageName)
    requires CleanTag(n.tag) && CleanTag(m.tag) && Spell(n) == Spell(m)
    ensures n == m
  {
    hide CleanTag, Classify, StageName, BackupName;
    ReadsBack(n);
    ReadsBack(m);
    match n
    case Live(_) =>
    case Stage(tag, u) => StagesDiffer(tag, u, m.tag, m.uid);
    case Backup(tag, u) => BackupsDiffer(tag, u, m.tag, m.uid);
  }

  // ---------- pruning by name is pruning ----------

  ghost predicate AllSafe(images: map<ImageName, ImageDir>) {
    forall n :: n in images ==> SafeTag(n.tag)
  }

  ghost predicate Spells(images: map<ImageName, ImageDir>, name: string) {
    exists n :: n in images && Spell(n) == name
  }

  /** The directories on disk are those of the store under their names. */
  ghost predicate Shows(images: map<ImageName, ImageDir>, dirs: map<string, ImageDir>) {
    && (forall n :: n in images ==> Spell(n) in dirs && dirs[Spell(n)] == images[n])
    && (forall name :: name in dirs ==> Spells(images, name))
  }

  /** On safe names presence on disk is presence in the store. */
  lemma ShownName(images: map<ImageName, ImageDir>, dirs: map<string, ImageDir>, n: ImageName)
    requires Shows(images, dirs) && AllSafe(images) && SafeTag(n.tag)
    ensures Spell(n) in dirs <==> n in images
    ensures n in images ==> dirs[Spell(n)] == images[n]
  {
    hide CleanTag, Spell;
    if Spell(n) in dirs {
      assert Spells(images, Spell(n));
      var m :| m in images && Spell(m) == Spell(n);
      SpellInjective(n, m);
    }
  }

  /** A change on both sides: what is removed, and what is put under a new name. */
  lemma ShowsRemoved(images: map<ImageName, ImageDir>, dirs: map<string, ImageDir>, n: ImageName)
    requires Shows(images, dirs) && AllSafe(images) && n in images
    ensures Shows(images - {n}, dirs - {Spell(n)}) && AllSafe(images - {n})
  {
    hide CleanTag, Spell;
    var images', dirs' := images - {n}, dirs - {Spell(n)};
    forall m | m in images'
      ensures Spell(m) in dirs' && dirs'[Spell(m)] == images'[m]
    {
      if Spell(m) == Spell(n) {
        SpellInjective(m, n);
      }
    }
    forall name | name in dirs'
      ensures Spells(images', name)
    {
      assert Spells(images, name);
      var m :| m in images && Spell(m) == name;
      assert m in images';
    }
  }

  lemma ShowsPut(images: map<ImageName, ImageDir>, dirs: map<string, ImageDir>, n: ImageName, d: ImageDir)
    requires Shows(images, dirs) && AllSafe(images) && SafeTag(n.tag)
    ensures Shows(images[n := d], dirs[Spell(n) := d]) && AllSafe(images[n := d])
  {
    hide CleanTag, Spell;
    var images', dirs' := images[n := d], dirs[Spell(n) := d];
    forall m | m in images'
      ensures Spell(m) in dirs' && dirs'[Spell(m)] == images'[m]
    {
      if Spell(m) == Spell(n) {
        SpellInjective(m, n);
      }
    }
    forall name | name in dirs'
      ensures Spells(images', name)
    {
      if name == Spell(n) {
        assert n in images';
      } else {
        assert Spells(images, name);
        var m :| m in images && Spell(m) == name;
        assert m in images';
      }
    }
  }

  /** What the prune sees of one directory of a safe tag. */
  lemma SeenByName(images: map<ImageName, ImageDir>, dirs: map<string, ImageDir>, n: ImageName)
    requires Shows(images, dirs) && AllSafe(images) && SafeTag(n.tag)
    ensures Classify(Spell(n)) == EntryOf(n)
    ensures Spell(n) in dirs <==> n in images
    ensures n in images ==> dirs[Spell(n)] == images[n]
    ensures Exists(dirs, n.tag) <==> Live(n.tag) in images
    ensures Spell(Live(n.tag)) == n.tag && SafeTag(Live(n.tag).tag)
  {
    ReadsBack(n);
    ShownName(images, dirs, n);
    ShownName(images, dirs, Live(n.tag));
  }

  /** One listed directory of a safe tag. */
  lemma PruneNameAgrees(images: map<ImageName, ImageDir>, dirs: map<string, ImageDir>, n: ImageName)
    requires Shows(images, dirs) && AllSafe(images) && SafeTag(n.tag)
    ensures Shows(PruneImageStep(images, n), PruneName(dirs, Spell(n)))
    ensures AllSafe(PruneImageStep(images, n))
  {
    hide Classify, SafeTag, AllSafe, Spell, Shows, Exists;
    SeenByName(images, dirs, n);
    if n in images && !n.Live? {
      ShowsRemoved(images, dirs, n);
      if n.Backup? && Live(n.tag) !in images {
        ShowsPut(images - {n}, dirs - {Spell(n)}, Live(n.tag), images[n]);
      }
    }
  }

  lemma StallNameAgrees(images: map<ImageName, ImageDir>, dirs: map<string, ImageDir>, n: ImageName)
    requires Shows(images, dirs) && AllSafe(images) && SafeTag(n.tag)
    ensures Shows(StallImageStep(images, n), StallName(dirs, Spell(n)))
    ensures AllSafe(StallImageStep(images, n))
  {
    hide Classify, SafeTag, AllSafe, Spell, Shows, Exists, With;
    SeenByName(images, dirs, n);
    if n in images {
      ShowsPut(images, dirs, n, With(images[n], Damage));
    }
  }

  /** The names of a listing of the store. */
  function SpellAll(listing: seq<ImageName>): (names: seq<string>)
    ensures |names| == |listing|
    ensures forall k :: 0 <= k < |listing| ==> names[k] == Spell(listing[k])
  {
    seq(|listing|, k requires 0 <= k < |listing| => Spell(listing[k]))
  }

  ghost predicate SafeListing(listing: seq<ImageName>) {
    forall n :: n in listing ==> SafeTag(n.tag)
  }

  /** The names under which the stuck entries are listed. */
  ghost predicate SameStuck(listing: seq<ImageName>, stuck: set<ImageName>, stuckNames: set<string>) {
    forall n :: n in listing ==> (n in stuck <==> Spell(n) in stuckNames)
  }

  /** Over any listing of safe tags, pruning by name shows what pruning the store gives. */
  lemma {:induction false} PrunedNamesAgree(images: map<ImageName, ImageDir>, dirs: map<string, ImageDir>,
                                            listing: seq<ImageName>, stuck: set<ImageName>, stuckNames: set<string>)
    requires Shows(images, dirs) && AllSafe(images) && SafeListing(listing) && SameStuck(listing, stuck, stuckNames)
    ensures Shows(PrunedImages(images, listing, stuck), PrunedNames(dirs, SpellAll(listing), stuckNames))
    ensures AllSafe(PrunedImages(images, listing, stuck))
  {
    hide Shows, AllSafe, PruneImageStep, PruneName, StallImageStep, StallName, SafeTag, Spell;
    var names := SpellAll(listing);
    if listing != [] {
      var k := |listing| - 1;
      assert names[..k] == SpellAll(listing[..k]);
      PrunedNamesAgree(images, dirs, listing[..k], stuck, stuckNames);
      var before, dirsBefore := PrunedImages(images, listing[..k], stuck), PrunedNames(dirs, names[..k], stuckNames);
      assert listing[k] in listing;
      PruneNameAgrees(before, dirsBefore, listing[k]);
      StallNameAgrees(before, dirsBefore, listing[k]);
    } else {
      assert names == [];
    }
  }

  /** Every listing of the names of a store is the spelling of a listing of the store. */
  lemma {:induction false} ListingOf(images: map<ImageName, ImageDir>, names: seq<string>) returns (listing: seq<ImageName>)
    requires forall k :: 0 <= k < |names| ==> Spells(images, names[k])
    ensures SpellAll(listing) == names && forall n :: n in listing ==> n in images
  {
    hide Spell, SpellAll, Spells;
    if names == [] {
      listing := [];
      assert SpellAll(listing) == names;
    } else {
      var k := |names| - 1;
      var before := ListingOf(images, names[..k]);
      var n := Spelled(images, names[k]);
      listing := before + [n];
      SpellAppend(before, n);
      assert names == names[..k] + [names[k]];
    }
  }

  lemma Spelled(images: map<ImageName, ImageDir>, name: string) returns (n: ImageName)
    requires Spells(images, name)
    ensures n in images && Spell(n) == name
  {
    n :| n in images && Spell(n) == name;
  }

  lemma SpellAppend(listing: seq<ImageName>, n: ImageName)
    ensures SpellAll(listing + [n]) == SpellAll(listing) + [Spell(n)]
  {
    hide Spell;
  }

  // ---------- other tags ----------

  /** A name the prune restores to is always clean. */
  lemma BasesAreClean(name: string)
    requires Classify(name).BackupEntry?
    ensures CleanTag(Classify(name).base) && |Classify(name).base| < |name|
  {
    var at := Find(name, OLD, 0);
    var base := name[..at];
    if Contains(base, PULL) {
      var i: nat :| OccursAt(base, PULL, i);
      assert name == base + name[at..];
      InsideTag(base, name[at..], PULL, i);
    }
    if Contains(base, OLD) {
      var i: nat :| OccursAt(base, OLD, i);
      assert name == base + name[at..];
      InsideTag(base, name[at..], OLD, i);
    }
  }

  /** Nothing is ever put under an unclean name. */
  lemma UncleanNotPut(dirs: map<string, ImageDir>, name: string, stuck: set<string>, tag: Tag)
    requires !CleanTag(tag)
    ensures tag in VisitName(dirs, name, stuck) ==> tag in dirs && (name == tag ==> tag in stuck)
  {
    TagIsKept(tag);
    if Classify(name).BackupEntry? {
      BasesAreClean(name);
    }
    hide Classify, CleanTag;
  }

  /** The published directory of an unclean tag is gone after every prune that lists it, unless it is stuck. */
  lemma {:induction false} UncleanTagIsPruned(dirs: map<string, ImageDir>, listing: seq<string>, stuck: set<string>, tag: Tag)
    requires !CleanTag(tag)
    ensures var after := PrunedNames(dirs, listing, stuck);
            tag in after ==> tag in dirs && (tag in listing ==> tag in stuck)
  {
    hide CleanTag, VisitName;
    if listing != [] {
      var k := |listing| - 1;
      UncleanTagIsPruned(dirs, listing[..k], stuck, tag);
      UncleanNotPut(PrunedNames(dirs, listing[..k], stuck), listing[k], stuck, tag);
      assert listing == listing[..k] + [listing[k]];
    }
  }
}
