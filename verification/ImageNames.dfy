/**
 * Directory names of the image store: a tag's own directory, its pull stages and
 * its backups, and how the startup prune tells them apart by their names alone.
 */
module ImageNames {
  import opened Options
  import opened Text

  const PULL := ".pull-"
  const OLD := ".old-"

  function StageName(tag: string, uid: string): string {
    tag + PULL + uid
  }

  function BackupName(tag: string, uid: string): string {
    tag + OLD + uid
  }

  /** What the prune takes an entry of the image directory for. */
  datatype Entry = StageEntry | BackupEntry(base: string) | TagEntry

  function Classify(name: string): Entry {
    if Contains(name, PULL) then StageEntry
    else
      var at := Find(name, OLD, 0);
      if at >= 0 then BackupEntry(name[..at]) else TagEntry
  }

  /** A tag directory whose name carries neither marker. */
  predicate CleanTag(tag: string) {
    !Contains(tag, PULL) && !Contains(tag, OLD)
  }

  /** The suffixes come from `uuid4().hex`, which has no dot. */
  predicate DotFree(s: string) {
    forall k :: 0 <= k < |s| ==> s[k] != '.'
  }

  /** A marker is a dot followed by characters other than a dot. */
  predicate Marker(m: string) {
    |m| > 0 && m[0] == '.' && forall k :: 1 <= k < |m| ==> m[k] != '.'
  }

  lemma OccursChars(s: string, needle: string, i: nat)
    requires OccursAt(s, needle, i)
    ensures forall k :: 0 <= k < |needle| ==> s[i + k] == needle[k]
    ensures forall j :: i <= j < i + |needle| ==> s[j] == needle[j - i]
  {
    var part := s[i..i + |needle|];
    assert forall k :: 0 <= k < |needle| ==> part[k] == s[i + k];
    assert forall j :: i <= j < i + |needle| ==> part[j - i] == s[j];
  }

  lemma OccursWhenChars(s: string, needle: string, i: nat)
    requires i + |needle| <= |s| && forall k :: 0 <= k < |needle| ==> s[i + k] == needle[k]
    ensures OccursAt(s, needle, i)
  {
    assert s[i..i + |needle|] == needle;
  }

  /** In tag + m + uid a marker starts inside the tag and ends there, or starts where m does. */
  lemma MarkerPlace(tag: string, m: string, uid: string, needle: string, i: nat)
    requires Marker(m) && Marker(needle) && DotFree(uid)
    requires OccursAt(tag + m + uid, needle, i)
    ensures i <= |tag|
    ensures i < |tag| ==> OccursAt(tag, needle, i)
    ensures i == |tag| && |needle| <= |m| ==> needle == m[..|needle|]
  {
    var name := tag + m + uid;
    OccursChars(name, needle, i);
    assert name[i] == '.' by {
      assert name[i + 0] == needle[0];
    }
    assert forall k :: |tag| < k < |tag| + |m| ==> name[k] == m[k - |tag|];
    assert forall k :: |tag| + |m| <= k < |name| ==> name[k] == uid[k - |tag| - |m|];
    assert name[|tag|] == '.';
    if i < |tag| {
      assert i + |needle| <= |tag|;
      OccursWhenChars(tag, needle, i);
    }
  }

  /** The prune keeps a published tag directory exactly when its name carries no marker. */
  lemma TagIsKept(tag: string)
    ensures Classify(tag) == TagEntry <==> CleanTag(tag)
  {
    if Contains(tag, OLD) {
      var i: nat :| OccursAt(tag, OLD, i);
    }
    var at := Find(tag, OLD, 0);
    if at >= 0 {
      assert OccursAt(tag, OLD, at);
    }
  }

  /** Every stage of every tag is recognised as a stage. */
  lemma StageIsStage(tag: string, uid: string)
    ensures Classify(StageName(tag, uid)) == StageEntry
  {
    assert PULL[0..|PULL|] == PULL;
    OccursInMiddle(tag, PULL, uid, PULL, 0);
  }

  lemma CleanBackup(tag: string, uid: string)
    requires DotFree(uid) && CleanTag(tag)
    ensures Classify(BackupName(tag, uid)) == BackupEntry(tag)
  {
    var name := BackupName(tag, uid);
    forall i: nat
      ensures !OccursAt(name, PULL, i)
    {
      if OccursAt(name, PULL, i) {
        NoPullInBackup(tag, uid, i);
      }
    }
    OldInBackup(tag, uid);
    var at := Find(name, OLD, 0);
    MarkerPlace(tag, OLD, uid, OLD, at);
    assert name[..|tag|] == tag;
  }

  lemma UncleanBackup(tag: string, uid: string)
    requires !CleanTag(tag)
    ensures Classify(BackupName(tag, uid)) != BackupEntry(tag)
  {
    var name := BackupName(tag, uid);
    assert name == tag + (OLD + uid);
    if Contains(tag, PULL) {
      var i: nat :| OccursAt(tag, PULL, i);
      InsideTag(tag, OLD + uid, PULL, i);
    } else {
      var i: nat :| OccursAt(tag, OLD, i);
      InsideTag(tag, OLD + uid, OLD, i);
      var at := Find(name, OLD, 0);
      assert |name[..at]| <= i < |tag|;
    }
  }

  /** A backup is read back as a backup of its own tag exactly when the tag name is clean. */
  lemma BackupNamesItsTag(tag: string, uid: string)
    requires DotFree(uid)
    ensures Classify(BackupName(tag, uid)) == BackupEntry(tag) <==> CleanTag(tag)
  {
    hide Classify, CleanTag;
    if CleanTag(tag) {
      CleanBackup(tag, uid);
    } else {
      UncleanBackup(tag, uid);
    }
  }

  // ---------- from references to directories ----------

  predicate Has(s: string, c: char) {
    exists k :: 0 <= k < |s| && s[k] == c
  }

  function AfterLast(s: string, c: char): string {
    if s == "" || s[|s| - 1] == c then "" else AfterLast(s[..|s| - 1], c) + [s[|s| - 1]]
  }

  function BeforeLast(s: string, c: char): string {
    if s == "" then "" else if s[|s| - 1] == c then s[..|s| - 1] else BeforeLast(s[..|s| - 1], c)
  }

  function BeforeFirst(s: string, c: char): string {
    if s == "" || s[0] == c then "" else [s[0]] + BeforeFirst(s[1..], c)
  }

  const LATEST := ":latest"
  const LIBRARY := "library/"
  const REGISTRY := "docker.io/"

  /** `normalize_image` */
  function Normalize(name: string): string {
    if Has(name, '@') then name
    else
      var full := if Has(AfterLast(name, '/'), ':') then name else name + LATEST;
      var tag, repo := AfterLast(full, ':'), BeforeLast(full, ':');
      var inLibrary := if Has(repo, '/') then repo else LIBRARY + repo;
      var host := BeforeFirst(inLibrary, '/');
      (if Has(host, '.') || Has(host, ':') then inLibrary else REGISTRY + inLibrary) + ":" + tag
  }

  function PathChar(c: char): char {
    if c == '/' || c == ':' then '_' else c
  }

  /** `image_to_path` */
  function PathOf(ref: string): (r: string)
    ensures |r| == |ref|
    ensures forall k :: 0 <= k < |ref| ==> r[k] == PathChar(ref[k])
  {
    seq(|ref|, k requires 0 <= k < |ref| => PathChar(ref[k]))
  }

  /** The characters `image_to_path` rewrites, and what it writes. */
  predicate Plain(needle: string) {
    forall k :: 0 <= k < |needle| ==> needle[k] != '/' && needle[k] != ':' && needle[k] != '_'
  }

  lemma PathKeepsNeedle(ref: string, needle: string, i: nat)
    requires Plain(needle)
    ensures OccursAt(PathOf(ref), needle, i) <==> OccursAt(ref, needle, i)
  {
    if OccursAt(ref, needle, i) {
      OccursChars(ref, needle, i);
      OccursWhenChars(PathOf(ref), needle, i);
    }
    if OccursAt(PathOf(ref), needle, i) {
      OccursChars(PathOf(ref), needle, i);
      forall k | 0 <= k < |needle|
        ensures ref[i + k] == needle[k]
      {
        assert PathOf(ref)[i + k] == PathChar(ref[i + k]);
      }
      OccursWhenChars(ref, needle, i);
    }
  }

  /** Whether a directory name is clean can be read off the reference. */
  lemma CleanReference(ref: string)
    ensures CleanTag(PathOf(ref)) <==> CleanTag(ref)
  {
    forall i: nat
      ensures OccursAt(PathOf(ref), PULL, i) <==> OccursAt(ref, PULL, i)
      ensures OccursAt(PathOf(ref), OLD, i) <==> OccursAt(ref, OLD, i)
    {
      PathKeepsNeedle(ref, PULL, i);
      PathKeepsNeedle(ref, OLD, i);
    }
  }

  lemma {:induction false} CutAtLast(left: string, c: char, right: string)
    requires !Has(right, c)
    ensures AfterLast(left + [c] + right, c) == right && BeforeLast(left + [c] + right, c) == left
  {
    var s := left + [c] + right;
    if right == "" {
      assert s[..|s| - 1] == left;
    } else {
      var shorter := right[..|right| - 1];
      assert s[..|s| - 1] == left + [c] + shorter;
      assert right[|right| - 1] != c;
      CutAtLast(left, c, shorter);
      assert shorter + [right[|right| - 1]] == right;
    }
  }

  lemma {:induction false} NothingToCut(s: string, c: char)
    requires !Has(s, c)
    ensures AfterLast(s, c) == s
  {
    if s != "" {
      assert s[|s| - 1] != c;
      NothingToCut(s[..|s| - 1], c);
    }
  }

  /** A repository name without registry or path. */
  predicate ShortName(repo: string) {
    !Has(repo, '/') && !Has(repo, ':') && !Has(repo, '@') && !Has(repo, '.')
  }

  predicate TagText(tag: string) {
    !Has(tag, '/') && !Has(tag, ':') && !Has(tag, '@')
  }

  lemma LibraryHost(repo: string)
    ensures BeforeFirst(LIBRARY + repo, '/') == "library" && !Has("library", '.') && !Has("library", ':')
  {
    var s := LIBRARY + repo;
    forall k: nat | k <= 7
      ensures BeforeFirst(s[k..], '/') == "library"[k..]
    {
      HostTail(s, k);
    }
    assert s[0..] == s && "library"[0..] == "library";
  }

  lemma {:induction false} HostTail(s: string, k: nat)
    requires |s| >= 8 && s[..8] == LIBRARY && k <= 7
    ensures BeforeFirst(s[k..], '/') == "library"[k..]
    decreases 7 - k
  {
    assert forall j :: 0 <= j < 8 ==> s[j] == s[..8][j];
    if k < 7 {
      HostTail(s, k + 1);
      assert s[k..][1..] == s[k + 1..];
      assert "library"[k..] == ["library"[k]] + "library"[k + 1..];
    }
  }

  /** A short name with a tag becomes a docker.io library reference. */
  lemma NormalizeShort(repo: string, tag: string)
    requires ShortName(repo) && TagText(tag)
    ensures Normalize(repo + ":" + tag) == REGISTRY + LIBRARY + repo + ":" + tag
  {
    var name := repo + ":" + tag;
    assert !Has(name, '@') && !Has(name, '/');
    assert name[|repo|] == ':';
    NothingToCut(name, '/');
    CutAtLast(repo, ':', tag);
    LibraryHost(repo);
  }

  lemma MarkedTagText(a: string, b: string)
    requires TagText(a) && TagText(b)
    ensures TagText(a + PULL + b)
  {
    assert !Has(PULL, '/') && !Has(PULL, ':') && !Has(PULL, '@');
  }

  /**
   * Every reference whose tag holds the stage marker, such as `app:1.pull-2`, is published in a
   * directory that the prune takes for a stage and removes.
   */
  lemma LegalTagTakenForAStage(repo: string, a: string, b: string)
    requires ShortName(repo) && TagText(a) && TagText(b)
    ensures var dir := PathOf(Normalize(repo + ":" + (a + PULL + b)));
            Classify(dir) == StageEntry && !CleanTag(dir)
  {
    hide TagText, ShortName, Normalize;
    MarkedTagText(a, b);
    NormalizeShort(repo, a + PULL + b);
    MarkedPath(REGISTRY + LIBRARY + repo + ":" + a, b);
    assert REGISTRY + LIBRARY + repo + ":" + (a + PULL + b) == REGISTRY + LIBRARY + repo + ":" + a + PULL + b;
  }

  lemma MarkedPath(before: string, after: string)
    ensures Contains(PathOf(before + PULL + after), PULL)
  {
    var ref := before + PULL + after;
    assert OccursAt(PULL, PULL, 0);
    OccursInMiddle(before, PULL, after, PULL, 0);
    PathKeepsNeedle(ref, PULL, |before| + 0);
  }

  const LEGAL_TAG := "1.pull-2"

  /** The directory of one such reference. */
  lemma LegalTagExample()
    ensures PathOf(Normalize("app:1.pull-2")) == "docker.io_library_app_1.pull-2"
    ensures Classify("docker.io_library_app_1.pull-2") == StageEntry
  {
    hide Normalize, Classify, PathOf;
    ShortExample();
    NormalizeShort("app", LEGAL_TAG);
    LegalTagTakenForAStage("app", "1", "2");
    assert "1" + PULL + "2" == LEGAL_TAG;
    assert "app" + ":" + LEGAL_TAG == "app:1.pull-2";
    PathExample();
  }

  lemma ShortExample()
    ensures ShortName("app") && TagText("1") && TagText("2") && TagText(LEGAL_TAG)
  {
  }

  lemma PathJoin(a: string, b: string)
    ensures PathOf(a + b) == PathOf(a) + PathOf(b)
  {
  }

  lemma PathExample()
    ensures PathOf(REGISTRY + LIBRARY + "app" + ":" + LEGAL_TAG) == "docker.io_library_app_1.pull-2"
  {
    PathJoin(REGISTRY + LIBRARY + "app" + ":", LEGAL_TAG);
    PathJoin(REGISTRY + LIBRARY + "app", ":");
    PathJoin(REGISTRY + LIBRARY, "app");
    PathJoin(REGISTRY, LIBRARY);
    assert PathOf(REGISTRY) == "docker.io_";
    assert PathOf(LIBRARY) == "library_";
    assert PathOf("app") == "app";
    assert PathOf(":") == "_";
    assert PathOf(LEGAL_TAG) == LEGAL_TAG;
    hide PathOf;
    assert "docker.io_" + "library_" + "app" + "_" + LEGAL_TAG == "docker.io_library_app_1.pull-2";
  }

  lemma OldInBackup(tag: string, uid: string)
    ensures OccursAt(BackupName(tag, uid), OLD, |tag|)
  {
    var name := BackupName(tag, uid);
    OccursWhenChars(name, OLD, |tag|);
  }

  lemma InsideTag(tag: string, rest: string, needle: string, i: nat)
    requires OccursAt(tag, needle, i)
    ensures OccursAt(tag + rest, needle, i)
  {
    assert (tag + rest)[i..i + |needle|] == tag[i..i + |needle|];
  }

  lemma NoPullInBackup(tag: string, uid: string, i: nat)
    requires DotFree(uid) && OccursAt(BackupName(tag, uid), PULL, i)
    ensures OccursAt(tag, PULL, i)
  {
    MarkerPlace(tag, OLD, uid, PULL, i);
    if i == |tag| {
      PullIsNotOld(tag, uid);
    }
  }

  lemma PullIsNotOld(tag: string, uid: string)
    ensures !OccursAt(BackupName(tag, uid), PULL, |tag|)
  {
    var name := BackupName(tag, uid);
    assert name[|tag| + 1] == OLD[1] == 'o' != PULL[1];
    if OccursAt(name, PULL, |tag|) {
      OccursChars(name, PULL, |tag|);
    }
  }
}
