/**
 * The image store as concurrent pulls, failures, crashes and the startup prune
 * change it. A pull is a little program over directories; each renaming is atomic,
 * each recursive removal may be cut short, and nothing is locked.
 */
module ImageStore {
  import opened Options

  /** The directory name of an image, which `image_to_path` makes from its reference. */
  type Tag = string
  type Digest = string
  type Uid = nat

  datatype ImageName = Live(tag: Tag) | Stage(tag: Tag, uid: Uid) | Backup(tag: Tag, uid: Uid)

  datatype LayerName = Published(digest: Digest) | Unpacking(digest: Digest, uid: Uid)

  /** Which layers a rootfs was merged from, and whether each was complete whenever it was read. */
  datatype Rootfs = NoRootfs | Merged(layers: seq<Digest>, whole: bool)

  /** What one image directory holds, and which pull wrote it. */
  datatype ImageDir = ImageDir(
    source: Uid, layers: seq<Digest>, config: bool, manifest: bool, rootfs: Rootfs, ref: Option<string>, torn: bool)

  datatype LayerDir = LayerDir(tree: bool, filled: bool, meta: Option<Digest>)

  /** What a pull was asked for. */
  datatype Order = Order(tag: Tag, ref: string, layers: seq<Digest>)

  datatype Pc =
    | MakeStage
    | WriteConfig
    | NextLayer
    | Fetch
    | Recheck
    | ClearTest
    | Clear
    | MakeTmp
    | Unpack
    | WriteMeta
    | PublishLayer
    | DropTmp
    | WriteManifest
    | Merge
    | MergeTest
    | MergeCopy
    | WriteRef
    | LiveTest
    | MoveOld
    | Publish
    | ExceptTest
    | Restore
    | DropStage
    | DropBackup

  /** How many layers are in the cache, and how many are merged into the stage. */
  datatype Pull = Pull(order: Order, pc: Pc, next: nat, merged: nat)

  datatype State = State(
    images: map<ImageName, ImageDir>,
    layers: map<LayerName, LayerDir>,
    pulls: map<Uid, Pull>,
    started: map<Uid, Order>)

  datatype Event =
    | Start(uid: Uid, order: Order)
    | Advance(uid: Uid)
    | Fail(uid: Uid)
    | Tear(uid: Uid, keepTree: bool, keepMeta: bool)
    | GiveUp(uid: Uid)
    | Read(uid: Uid)
    | Skip(uid: Uid)
    | Crash
    | PruneImage(image: ImageName)
    | TearImage(image: ImageName)
    | PruneLayer(layer: LayerName)
    | TearLayer(layer: LayerName, keepTree: bool, keepMeta: bool)

  // ---------- one pull ----------

  /** `_layer_exists`: a tree directory and metadata naming the same digest. */
  predicate LayerExists(layers: map<LayerName, LayerDir>, x: Digest) {
    var n := Published(x);
    n in layers && layers[n].tree && layers[n].meta == Some(x)
  }

  predicate TreeExists(layers: map<LayerName, LayerDir>, x: Digest) {
    Published(x) in layers && layers[Published(x)].tree
  }

  /** Everything of the layer is there to be read. */
  predicate TreeFilled(layers: map<LayerName, LayerDir>, x: Digest) {
    TreeExists(layers, x) && layers[Published(x)].filled
  }

  // ---------- directory operations ----------

  /** What one write into an image directory adds, or a torn removal damages. */
  datatype Part =
    | ConfigFile
    | ManifestFile
    | RootTree
    | SomeOfLayer(whole: bool)
    | RestOfLayer(layer: Digest, whole: bool)
    | RefFile(ref: string)
    | Damage

  function Grown(r: Rootfs, more: seq<Digest>, whole: bool): Rootfs {
    if r.Merged? then Merged(r.layers + more, r.whole && whole) else r
  }

  function With(d: ImageDir, part: Part): ImageDir {
    match part
    case ConfigFile => d.(config := true)
    case ManifestFile => d.(manifest := true)
    case RootTree => d.(rootfs := Merged([], true))
    case SomeOfLayer(whole) => d.(rootfs := Grown(d.rootfs, [], whole))
    case RestOfLayer(x, whole) => d.(rootfs := Grown(d.rootfs, [x], whole))
    case RefFile(ref) => d.(ref := Some(ref))
    case Damage => d.(torn := true)
  }

  datatype ImageOp =
    | Nothing
    | Create(name: ImageName, dir: ImageDir)
    | Write(name: ImageName, part: Part)
    | Move(from: ImageName, to: ImageName)
    | Remove(name: ImageName)

  /** `os.replace`, `shutil.rmtree` and the writes, on names that exist; otherwise nothing. */
  function Perform(images: map<ImageName, ImageDir>, op: ImageOp): map<ImageName, ImageDir> {
    match op
    case Nothing => images
    case Create(n, d) => images[n := d]
    case Write(n, part) => if n in images then images[n := With(images[n], part)] else images
    case Move(from, to) => if from in images then (images - {from})[to := images[from]] else images
    case Remove(n) => images - {n}
  }

  datatype LayerOp =
    | Keep
    | Put(name: LayerName, dir: LayerDir)
    | MoveLayer(from: LayerName, to: LayerName)
    | RemoveLayer(name: LayerName)

  function PerformLayer(layers: map<LayerName, LayerDir>, op: LayerOp): map<LayerName, LayerDir> {
    match op
    case Keep => layers
    case Put(n, d) => layers[n := d]
    case MoveLayer(from, to) => if from in layers then (layers - {from})[to := layers[from]] else layers
    case RemoveLayer(n) => layers - {n}
  }

  /** Where a pull goes on after an action. */
  datatype Then = To(pc: Pc) | LayerDone | LayerMerged | Over

  function Moved(p: Pull, after: Then): Pull {
    match after
    case To(pc) => p.(pc := pc)
    case LayerDone => p.(pc := NextLayer, next := p.next + 1)
    case LayerMerged => p.(pc := MergeTest, merged := p.merged + 1)
    case Over => p
  }

  function Continue(pulls: map<Uid, Pull>, u: Uid, after: Then): map<Uid, Pull>
    requires u in pulls
  {
    if after.Over? then pulls - {u} else pulls[u := Moved(pulls[u], after)]
  }

  datatype Action = Action(op: ImageOp, after: Then)

  datatype LayerAction = LayerAction(op: LayerOp, after: Then)

  // ---------- one pull ----------

  predicate IsLayerPc(pc: Pc) {
    pc.Fetch? || pc.Recheck? || pc.ClearTest? || pc.Clear? || pc.MakeTmp? || pc.Unpack? || pc.WriteMeta?
    || pc.PublishLayer? || pc.DropTmp?
  }

  /** The next action on the layer a pull is working on. */
  function LayerActionOf(layers: map<LayerName, LayerDir>, u: Uid, pc: Pc, x: Digest): LayerAction
    requires IsLayerPc(pc)
  {
    var published, tmp := Published(x), Unpacking(x, u);
    match pc
    case Fetch => LayerAction(Keep, To(Recheck))
    case Recheck => LayerAction(Keep, if LayerExists(layers, x) then LayerDone else To(ClearTest))
    case ClearTest => LayerAction(Keep, To(if published in layers then Clear else MakeTmp))
    case Clear => LayerAction(RemoveLayer(published), To(MakeTmp))
    case MakeTmp => LayerAction(Put(tmp, LayerDir(true, false, None)), To(Unpack))
    case Unpack => LayerAction(Put(tmp, LayerDir(true, true, None)), To(WriteMeta))
    case WriteMeta => LayerAction(Put(tmp, LayerDir(true, true, Some(x))), To(PublishLayer))
    case PublishLayer =>
      if published in layers || tmp !in layers then LayerAction(Keep, To(DropTmp))
      else LayerAction(MoveLayer(tmp, published), LayerDone)
    case DropTmp => LayerAction(RemoveLayer(tmp), To(ExceptTest))
  }

  /** The next action of a pull that is building its stage. */
  function BuildAction(layers: map<LayerName, LayerDir>, u: Uid, p: Pull): Action
    requires Rank(p.pc) <= 5 && !IsLayerPc(p.pc)
  {
    var stage := Stage(p.order.tag, u);
    match p.pc
    case MakeStage =>
      Action(Create(stage, ImageDir(u, p.order.layers, false, false, NoRootfs, None, false)), To(WriteConfig))
    case WriteConfig => Action(Write(stage, ConfigFile), To(NextLayer))
    case WriteManifest => Action(Write(stage, ManifestFile), To(Merge))
    case Merge => Action(Write(stage, RootTree), To(MergeTest))
    case MergeTest =>
      if p.merged >= |p.order.layers| then Action(Nothing, To(WriteRef))
      else if TreeExists(layers, p.order.layers[p.merged]) then Action(Nothing, To(MergeCopy))
      else Action(Nothing, To(ExceptTest))
    case MergeCopy =>
      if p.merged >= |p.order.layers| then Action(Nothing, To(MergeTest))
      else
        var x := p.order.layers[p.merged];
        Action(Write(stage, RestOfLayer(x, TreeFilled(layers, x))), LayerMerged)
    case WriteRef => Action(Write(stage, RefFile(p.order.ref)), To(LiveTest))
    case NextLayer =>
      if p.next >= |p.order.layers| then Action(Nothing, To(WriteManifest))
      else if LayerExists(layers, p.order.layers[p.next]) then Action(Nothing, LayerDone)
      else Action(Nothing, To(Fetch))
  }

  /** The next action of a pull that is publishing its stage or cleaning up. */
  function PublishAction(images: map<ImageName, ImageDir>, u: Uid, p: Pull): Action
    requires Rank(p.pc) >= 6
  {
    var tag := p.order.tag;
    var live, stage, backup := Live(tag), Stage(tag, u), Backup(tag, u);
    match p.pc
    case LiveTest => Action(Nothing, To(if live in images then MoveOld else Publish))
    case MoveOld => if live in images then Action(Move(live, backup), To(Publish)) else Action(Nothing, To(ExceptTest))
    case Publish =>
      if live in images || stage !in images then Action(Nothing, To(ExceptTest))
      else Action(Move(stage, live), To(DropBackup))
    case ExceptTest => Action(Nothing, To(if backup in images && live !in images then Restore else DropStage))
    case Restore =>
      if live in images || backup !in images then Action(Nothing, To(DropBackup))
      else Action(Move(backup, live), To(DropStage))
    case DropStage => Action(Remove(stage), To(DropBackup))
    case DropBackup => Action(Remove(backup), Over)
  }

  function LayerStep(s: State, u: Uid): State
    requires u in s.pulls && IsLayerPc(s.pulls[u].pc)
  {
    var p := s.pulls[u];
    if p.next >= |p.order.layers| then s
    else
      var a := LayerActionOf(s.layers, u, p.pc, p.order.layers[p.next]);
      s.(layers := PerformLayer(s.layers, a.op), pulls := Continue(s.pulls, u, a.after))
  }

  function ImageAction(s: State, u: Uid): Action
    requires u in s.pulls && !IsLayerPc(s.pulls[u].pc)
  {
    var p := s.pulls[u];
    if Rank(p.pc) <= 5 then BuildAction(s.layers, u, p) else PublishAction(s.images, u, p)
  }

  function ImageStep(s: State, u: Uid): State
    requires u in s.pulls && !IsLayerPc(s.pulls[u].pc)
  {
    var a := ImageAction(s, u);
    s.(images := Perform(s.images, a.op), pulls := Continue(s.pulls, u, a.after))
  }

  /** How far a pull has come; work on the cached layers is one phase, and so is what follows making the rootfs. */
  function Rank(pc: Pc): nat {
    match pc
    case MakeStage => 0
    case WriteConfig => 1
    case WriteManifest => 3
    case Merge => 4
    case MergeTest => 5
    case MergeCopy => 5
    case WriteRef => 5
    case LiveTest => 6
    case MoveOld => 7
    case Publish => 8
    case ExceptTest => 9
    case Restore => 10
    case DropStage => 11
    case DropBackup => 12
    case _ => 2
  }

  function Edit(s: State, n: ImageName, part: Part): State {
    s.(images := Perform(s.images, Write(n, part)))
  }

  /** Where an exception raised by the current action takes the pull. */
  function FailTarget(pc: Pc): Option<Pc> {
    match pc
    case WriteConfig | Fetch | MakeTmp | WriteManifest | Merge | MergeTest | MergeCopy | WriteRef | MoveOld | Publish => Some(ExceptTest)
    case Unpack | WriteMeta | PublishLayer => Some(DropTmp)
    case Restore => Some(DropBackup)
    case _ => None
  }

  /** Where `ignore_errors=True` goes on when a recursive removal ends with something left. */
  function GiveUpTarget(pc: Pc): Option<Then> {
    match pc
    case Clear => Some(To(MakeTmp))
    case DropTmp => Some(To(ExceptTest))
    case DropStage => Some(To(DropBackup))
    case DropBackup => Some(Over)
    case _ => None
  }

  predicate IsMishap(e: Event) {
    e.Fail? || e.Tear? || e.GiveUp? || e.Read? || e.Skip?
  }

  /** What a merge that has read some more of its layer, or passed over an entry, leaves in the stage. */
  function MergeRead(layers: map<LayerName, LayerDir>, u: Uid, p: Pull, copied: bool): ImageOp {
    if p.pc.MergeCopy? && p.merged < |p.order.layers|
    then Write(Stage(p.order.tag, u), SomeOfLayer(copied && TreeFilled(layers, p.order.layers[p.merged])))
    else Nothing
  }

  /**
   * What can happen inside an action: an exception, a removal that has got part of the way or ends
   * early, a merge that has read part of a layer, or one that passes over an entry it can neither
   * link nor copy, which `_hardlink_clone_tree` does in silence.
   */
  function MishapAction(layers: map<LayerName, LayerDir>, u: Uid, p: Pull, e: Event): Action
    requires IsMishap(e)
  {
    match e
    case Fail(_) =>
      // Making the stage directory is outside the try block, so its failure ends the pull at once.
      if p.pc.MakeStage? then Action(Nothing, Over)
      else Action(Nothing, To(if FailTarget(p.pc).Some? then FailTarget(p.pc).value else p.pc))
    case Tear(_, _, _) =>
      Action(if p.pc.DropStage? then Write(Stage(p.order.tag, u), Damage)
             else if p.pc.DropBackup? then Write(Backup(p.order.tag, u), Damage)
             else Nothing,
             To(p.pc))
    case GiveUp(_) => Action(Nothing, if GiveUpTarget(p.pc).Some? then GiveUpTarget(p.pc).value else To(p.pc))
    case Read(_) => Action(MergeRead(layers, u, p, true), To(p.pc))
    case Skip(_) => Action(MergeRead(layers, u, p, false), To(p.pc))
  }

  function TornLayer(d: LayerDir, keepTree: bool, keepMeta: bool): LayerDir {
    LayerDir(d.tree && keepTree, false, if keepMeta then d.meta else None)
  }

  /** The layer directory a pull is removing, when it is removing one. */
  function RemovedLayer(u: Uid, p: Pull): Option<LayerName> {
    if p.next >= |p.order.layers| then None
    else if p.pc.Clear? then Some(Published(p.order.layers[p.next]))
    else if p.pc.DropTmp? then Some(Unpacking(p.order.layers[p.next], u))
    else None
  }

  function TornLayers(layers: map<LayerName, LayerDir>, u: Uid, p: Pull, e: Event): map<LayerName, LayerDir> {
    var n := RemovedLayer(u, p);
    if e.Tear? && n.Some? && n.value in layers
    then layers[n.value := TornLayer(layers[n.value], e.keepTree, e.keepMeta)]
    else layers
  }

  function MishapStep(s: State, e: Event): State
    requires IsMishap(e) && e.uid in s.pulls
  {
    var u, p := e.uid, s.pulls[e.uid];
    var a := MishapAction(s.layers, u, p, e);
    s.(images := Perform(s.images, a.op), layers := TornLayers(s.layers, u, p, e), pulls := Continue(s.pulls, u, a.after))
  }

  // ---------- the startup prune ----------

  function PruneImageStep(images: map<ImageName, ImageDir>, n: ImageName): map<ImageName, ImageDir> {
    if n !in images then images
    else match n
      case Stage(_, _) => Perform(images, Remove(n))
      case Backup(tag, _) => if Live(tag) in images then Perform(images, Remove(n)) else Perform(images, Move(n, Live(tag)))
      case Live(_) => images
  }

  predicate LayerResidue(layers: map<LayerName, LayerDir>, n: LayerName) {
    n in layers && (n.Unpacking? || !LayerExists(layers, n.digest))
  }

  function PruneLayerStep(layers: map<LayerName, LayerDir>, n: LayerName): map<LayerName, LayerDir> {
    if LayerResidue(layers, n) then layers - {n} else layers
  }

  /** The prune removes an entry only when nothing is to be restored from it. */
  predicate Removable(images: map<ImageName, ImageDir>, n: ImageName) {
    n in images && (n.Stage? || (n.Backup? && Live(n.tag) in images))
  }

  /** A removal that ends with something left damages the directory; a renaming that fails changes nothing. */
  function StallImageStep(images: map<ImageName, ImageDir>, n: ImageName): map<ImageName, ImageDir> {
    if Removable(images, n) then Perform(images, Write(n, Damage)) else images
  }

  function VisitImage(images: map<ImageName, ImageDir>, n: ImageName, stuck: set<ImageName>): map<ImageName, ImageDir> {
    if n in stuck then StallImageStep(images, n) else PruneImageStep(images, n)
  }

  /** The whole pass over a listing; the removals and renamings of the stuck entries fail. */
  function PrunedImages(images: map<ImageName, ImageDir>, listing: seq<ImageName>, stuck: set<ImageName>)
    : map<ImageName, ImageDir>
  {
    if listing == [] then images
    else VisitImage(PrunedImages(images, listing[..|listing| - 1], stuck), listing[|listing| - 1], stuck)
  }

  function VisitLayer(layers: map<LayerName, LayerDir>, n: LayerName, stuck: set<LayerName>): map<LayerName, LayerDir> {
    if n !in stuck then PruneLayerStep(layers, n)
    else if LayerResidue(layers, n) then layers[n := TornLayer(layers[n], true, true)]
    else layers
  }

  function PrunedLayers(layers: map<LayerName, LayerDir>, listing: seq<LayerName>, stuck: set<LayerName>)
    : map<LayerName, LayerDir>
  {
    if listing == [] then layers
    else VisitLayer(PrunedLayers(layers, listing[..|listing| - 1], stuck), listing[|listing| - 1], stuck)
  }

  // ---------- every event ----------

  function Next(s: State, e: Event): State {
    match e
    case Start(u, order) =>
      if u in s.started then s
      else s.(pulls := s.pulls[u := Pull(order, MakeStage, 0, 0)], started := s.started[u := order])
    case Advance(u) =>
      if u !in s.pulls then s
      else if IsLayerPc(s.pulls[u].pc) then LayerStep(s, u)
      else ImageStep(s, u)
    case Fail(u) => if u in s.pulls then MishapStep(s, e) else s
    case Tear(u, _, _) => if u in s.pulls then MishapStep(s, e) else s
    case GiveUp(u) => if u in s.pulls then MishapStep(s, e) else s
    case Read(u) => if u in s.pulls then MishapStep(s, e) else s
    case Skip(u) => if u in s.pulls then MishapStep(s, e) else s
    case Crash => s.(pulls := map[])
    case PruneImage(n) => if s.pulls == map[] then s.(images := PruneImageStep(s.images, n)) else s
    case TearImage(n) =>
      if s.pulls == map[] && Removable(s.images, n) then Edit(s, n, Damage) else s
    case PruneLayer(n) => if s.pulls == map[] then s.(layers := PruneLayerStep(s.layers, n)) else s
    case TearLayer(n, keepTree, keepMeta) =>
      if s.pulls == map[] && LayerResidue(s.layers, n)
      then s.(layers := s.layers[n := TornLayer(s.layers[n], keepTree, keepMeta)])
      else s
  }

  function Run(s: State, events: seq<Event>): State
    decreases |events|
  {
    if events == [] then s else Run(Next(s, events[0]), events[1..])
  }

  /** The store of a first start. */
  const EMPTY := State(map[], map[], map[], map[])

  // ---------- what holds at every moment of every interleaving ----------

  /** The whole, undamaged output of one pull of this tag. */
  predicate Genuine(started: map<Uid, Order>, tag: Tag, d: ImageDir) {
    && d.config && d.manifest && d.rootfs == Merged(d.layers, true) && !d.torn
    && d.source in started && d.ref.Some? && started[d.source] == Order(tag, d.ref.value, d.layers)
  }

  /** The stage directory at each phase. */
  function StageDir(u: Uid, p: Pull, whole: bool): ImageDir
    requires p.merged <= |p.order.layers|
  {
    var r := Rank(p.pc);
    ImageDir(u, p.order.layers, r > 1, r > 3,
             if r > 4 then Merged(p.order.layers[..p.merged], whole) else NoRootfs,
             if r > 5 then Some(p.order.ref) else None, false)
  }

  predicate WholeSoFar(d: ImageDir) {
    d.rootfs.Merged? && d.rootfs.whole
  }

  /** The bookkeeping of a pull that has come to p, and the stage it has built so far. */
  ghost predicate PullOk(images: map<ImageName, ImageDir>, started: map<Uid, Order>, u: Uid, p: Pull) {
    var r := Rank(p.pc);
    var stage := Stage(p.order.tag, u);
    && u in started && started[u] == p.order
    && p.next <= |p.order.layers|
    && (IsLayerPc(p.pc) ==> p.next < |p.order.layers|)
    && (r >= 3 && r <= 8 ==> p.next == |p.order.layers|)
    && p.merged <= |p.order.layers|
    && (p.pc.MergeCopy? ==> p.merged < |p.order.layers|)
    && (r <= 4 ==> p.merged == 0)
    && (p.pc.WriteRef? || 6 <= r <= 8 ==> p.merged == |p.order.layers|)
    && (1 <= r <= 8 ==> stage in images && images[stage] == StageDir(u, p, WholeSoFar(images[stage])))
  }

  /** Every directory was written by some pull that was started. */
  ghost predicate SourcesKnown(images: map<ImageName, ImageDir>, started: map<Uid, Order>) {
    forall n :: n in images ==> images[n].source in started
  }

  ghost predicate Inv(s: State) {
    && SourcesKnown(s.images, s.started)
    && (forall u :: u in s.pulls ==> PullOk(s.images, s.started, u, s.pulls[u]))
  }

  /** Two stores that differ at most in the three directories a pull of a tag works on. */
  ghost predicate TouchesOnly(images: map<ImageName, ImageDir>, images': map<ImageName, ImageDir>, tag: Tag, u: Uid) {
    forall n :: n != Live(tag) && n != Stage(tag, u) && n != Backup(tag, u) ==>
      (n in images <==> n in images') && (n in images ==> images[n] == images'[n])
  }

  /** The three directories a pull may name in its operations. */
  predicate OwnName(n: ImageName, tag: Tag, u: Uid) {
    n == Live(tag) || n == Stage(tag, u) || n == Backup(tag, u)
  }

  predicate OwnOp(op: ImageOp, tag: Tag, u: Uid) {
    match op
    case Nothing => true
    case Create(n, d) => OwnName(n, tag, u) && d.source == u
    case Write(n, _) => OwnName(n, tag, u)
    case Move(from, to) => OwnName(from, tag, u) && OwnName(to, tag, u)
    case Remove(n) => OwnName(n, tag, u)
  }

  lemma OpTouches(images: map<ImageName, ImageDir>, op: ImageOp, tag: Tag, u: Uid)
    requires OwnOp(op, tag, u)
    ensures TouchesOnly(images, Perform(images, op), tag, u)
  {
  }

  lemma OpKeepsSources(images: map<ImageName, ImageDir>, op: ImageOp, started: map<Uid, Order>)
    requires SourcesKnown(images, started)
    requires op.Create? ==> op.dir.source in started
    ensures SourcesKnown(Perform(images, op), started)
  {
  }

  lemma OwnNamesOnly(s: State, u: Uid)
    requires u in s.pulls && !IsLayerPc(s.pulls[u].pc)
    ensures OwnOp(ImageAction(s, u).op, s.pulls[u].order.tag, u)
  {
    hide LayerExists, TreeExists;
  }

  lemma ImageStepTouches(s: State, u: Uid)
    requires u in s.pulls && !IsLayerPc(s.pulls[u].pc)
    ensures TouchesOnly(s.images, ImageStep(s, u).images, s.pulls[u].order.tag, u)
    ensures var s' := ImageStep(s, u);
            s'.started == s.started && s'.pulls - {u} == s.pulls - {u} && s'.layers == s.layers
  {
    hide Perform, TouchesOnly;
    OwnNamesOnly(s, u);
    OpTouches(s.images, ImageAction(s, u).op, s.pulls[u].order.tag, u);
  }

  lemma LayerStepTouches(s: State, u: Uid)
    requires u in s.pulls && IsLayerPc(s.pulls[u].pc)
    ensures var s' := LayerStep(s, u);
            s'.images == s.images && s'.started == s.started && s'.pulls - {u} == s.pulls - {u}
  {
    hide LayerActionOf, PerformLayer;
  }

  lemma SameImages(images: map<ImageName, ImageDir>, tag: Tag, u: Uid)
    ensures TouchesOnly(images, images, tag, u)
  {
  }

  /** A pull's own bookkeeping survives whatever another pull does. */
  lemma OthersUndisturbed(images: map<ImageName, ImageDir>, images': map<ImageName, ImageDir>, started: map<Uid, Order>,
                          tag: Tag, u: Uid, v: Uid, p: Pull)
    requires PullOk(images, started, v, p) && u != v && TouchesOnly(images, images', tag, u)
    ensures PullOk(images', started, v, p)
  {
    hide StageDir;
  }

  /** The invariant after a step of one pull follows from that pull's part alone. */
  lemma InvFromOwn(s: State, s': State, u: Uid)
    requires Inv(s) && u in s.pulls
    requires s'.started == s.started && s'.pulls - {u} == s.pulls - {u}
    requires TouchesOnly(s.images, s'.images, s.pulls[u].order.tag, u)
    requires SourcesKnown(s'.images, s.started)
    requires u in s'.pulls ==> PullOk(s'.images, s.started, u, s'.pulls[u])
    ensures Inv(s')
  {
    hide PullOk, TouchesOnly, SourcesKnown;
    forall v | v in s'.pulls
      ensures PullOk(s'.images, s.started, v, s'.pulls[v])
    {
      if v != u {
        assert v in s'.pulls - {u};
        assert (s'.pulls - {u})[v] == (s.pulls - {u})[v];
        OthersUndisturbed(s.images, s'.images, s.started, s.pulls[u].order.tag, u, v, s.pulls[v]);
      }
    }
  }

  /** Reading on in the layer being merged keeps the list of merged layers. */
  lemma MergeReadOwn(images: map<ImageName, ImageDir>, started: map<Uid, Order>, u: Uid, p: Pull, whole: bool)
    requires PullOk(images, started, u, p) && p.pc.MergeCopy?
    ensures PullOk(Perform(images, Write(Stage(p.order.tag, u), SomeOfLayer(whole))), started, u, p)
  {
    assert p.order.layers[..p.merged] + [] == p.order.layers[..p.merged];
  }

  /** Finishing a layer appends it to the list of merged layers. */
  lemma MergeRestOwn(images: map<ImageName, ImageDir>, started: map<Uid, Order>, u: Uid, p: Pull, whole: bool)
    requires PullOk(images, started, u, p) && p.pc.MergeCopy? && p.merged < |p.order.layers|
    ensures PullOk(Perform(images, Write(Stage(p.order.tag, u), RestOfLayer(p.order.layers[p.merged], whole))),
                   started, u, Moved(p, LayerMerged))
  {
    assert p.order.layers[..p.merged] + [p.order.layers[p.merged]] == p.order.layers[..p.merged + 1];
  }

  lemma MergeOwn(images: map<ImageName, ImageDir>, layers: map<LayerName, LayerDir>, started: map<Uid, Order>, u: Uid, p: Pull)
    requires PullOk(images, started, u, p) && (p.pc.MergeTest? || p.pc.MergeCopy?)
    ensures var a := BuildAction(layers, u, p);
            !a.after.Over? && PullOk(Perform(images, a.op), started, u, Moved(p, a.after))
  {
    hide TreeExists, LayerExists;
    if p.pc.MergeCopy? && p.merged < |p.order.layers| {
      hide *;
      MergeCopyOwn(images, layers, started, u, p);
    } else {
      assert Perform(images, Nothing) == images;
    }
  }

  lemma MergeCopyOwn(images: map<ImageName, ImageDir>, layers: map<LayerName, LayerDir>, started: map<Uid, Order>, u: Uid, p: Pull)
    requires PullOk(images, started, u, p) && p.pc.MergeCopy? && p.merged < |p.order.layers|
    ensures var a := BuildAction(layers, u, p);
            !a.after.Over? && PullOk(Perform(images, a.op), started, u, Moved(p, a.after))
  {
    hide PullOk, Perform, Moved, TreeExists, LayerExists;
    MergeRestOwn(images, started, u, p, TreeFilled(layers, p.order.layers[p.merged]));
  }

  lemma BuildOwn(images: map<ImageName, ImageDir>, layers: map<LayerName, LayerDir>, started: map<Uid, Order>, u: Uid, p: Pull)
    requires PullOk(images, started, u, p) && !IsLayerPc(p.pc) && Rank(p.pc) <= 5
    ensures var a := BuildAction(layers, u, p);
            !a.after.Over? && PullOk(Perform(images, a.op), started, u, Moved(p, a.after))
  {
    hide TreeExists, LayerExists;
    if p.pc.MergeTest? || p.pc.MergeCopy? {
      hide *;
      MergeOwn(images, layers, started, u, p);
    } else {
      assert p.order.layers[..0] == [];
    }
  }

  lemma PublishOwn(images: map<ImageName, ImageDir>, started: map<Uid, Order>, u: Uid, p: Pull)
    requires PullOk(images, started, u, p) && Rank(p.pc) >= 6
    ensures var a := PublishAction(images, u, p);
            !a.after.Over? ==> PullOk(Perform(images, a.op), started, u, Moved(p, a.after))
  {
  }

  lemma LayerOwn(images: map<ImageName, ImageDir>, layers: map<LayerName, LayerDir>, started: map<Uid, Order>, u: Uid, p: Pull, x: Digest)
    requires PullOk(images, started, u, p) && IsLayerPc(p.pc)
    ensures var a := LayerActionOf(layers, u, p.pc, x);
            !a.after.Over? && PullOk(images, started, u, Moved(p, a.after))
  {
    hide LayerExists;
  }

  lemma AdvanceKeepsInv(s: State, u: Uid)
    requires Inv(s) && u in s.pulls
    ensures Inv(Next(s, Advance(u)))
  {
    hide PullOk, TouchesOnly, SourcesKnown, BuildAction, PublishAction, LayerActionOf, Perform, PerformLayer;
    var p := s.pulls[u];
    if IsLayerPc(p.pc) {
      LayerStepTouches(s, u);
      SameImages(s.images, p.order.tag, u);
      if p.next < |p.order.layers| {
        LayerOwn(s.images, s.layers, s.started, u, p, p.order.layers[p.next]);
      }
      InvFromOwn(s, LayerStep(s, u), u);
    } else {
      ImageStepTouches(s, u);
      OwnNamesOnly(s, u);
      PullIsStarted(s.images, s.started, u, p);
      OpKeepsSources(s.images, ImageAction(s, u).op, s.started);
      if Rank(p.pc) <= 5 {
        BuildOwn(s.images, s.layers, s.started, u, p);
      } else {
        PublishOwn(s.images, s.started, u, p);
      }
      InvFromOwn(s, ImageStep(s, u), u);
    }
  }

  lemma PullIsStarted(images: map<ImageName, ImageDir>, started: map<Uid, Order>, u: Uid, p: Pull)
    requires PullOk(images, started, u, p)
    ensures u in started
  {
  }

  lemma MergeReadKeepsOwn(images: map<ImageName, ImageDir>, layers: map<LayerName, LayerDir>, started: map<Uid, Order>, u: Uid,
                          p: Pull, copied: bool)
    requires PullOk(images, started, u, p)
    ensures var op := MergeRead(layers, u, p, copied);
            OwnOp(op, p.order.tag, u) && !op.Create? && PullOk(Perform(images, op), started, u, p)
  {
    hide PullOk, Perform, TreeFilled;
    if p.pc.MergeCopy? && p.merged < |p.order.layers| {
      MergeReadOwn(images, started, u, p, copied && TreeFilled(layers, p.order.layers[p.merged]));
    } else {
      NothingChanges(images);
    }
  }

  lemma NothingChanges(images: map<ImageName, ImageDir>)
    ensures Perform(images, Nothing) == images
  {
  }

  lemma FailOwn(images: map<ImageName, ImageDir>, layers: map<LayerName, LayerDir>, started: map<Uid, Order>, u: Uid, p: Pull, e: Event)
    requires PullOk(images, started, u, p) && (e.Fail? || e.GiveUp?)
    ensures var a := MishapAction(layers, u, p, e);
            a.op.Nothing? && (!a.after.Over? ==> PullOk(images, started, u, Moved(p, a.after)))
  {
  }

  lemma TearOwn(images: map<ImageName, ImageDir>, layers: map<LayerName, LayerDir>, started: map<Uid, Order>, u: Uid, p: Pull, e: Event)
    requires PullOk(images, started, u, p) && e.Tear?
    ensures var op := MishapAction(layers, u, p, e).op;
            OwnOp(op, p.order.tag, u) && !op.Create? && PullOk(Perform(images, op), started, u, p)
  {
  }

  lemma MishapOwn(images: map<ImageName, ImageDir>, layers: map<LayerName, LayerDir>, started: map<Uid, Order>, u: Uid, p: Pull, e: Event)
    requires PullOk(images, started, u, p) && IsMishap(e)
    ensures var a := MishapAction(layers, u, p, e);
            && OwnOp(a.op, p.order.tag, u)
            && !a.op.Create?
            && (!a.after.Over? ==> PullOk(Perform(images, a.op), started, u, Moved(p, a.after)))
  {
    hide PullOk, Perform, MergeRead;
    match e
    case Fail(_) => FailOwn(images, layers, started, u, p, e); NothingChanges(images);
    case GiveUp(_) => FailOwn(images, layers, started, u, p, e); NothingChanges(images);
    case Tear(_, _, _) => TearOwn(images, layers, started, u, p, e);
    case Read(_) => MergeReadKeepsOwn(images, layers, started, u, p, true);
    case Skip(_) => MergeReadKeepsOwn(images, layers, started, u, p, false);
  }

  /** What happens inside an action changes only the pull's own directories too. */
  lemma MishapKeepsInv(s: State, e: Event)
    requires Inv(s) && IsMishap(e)
    ensures Inv(Next(s, e))
  {
    hide TouchesOnly, SourcesKnown, PullOk, MishapAction, Perform, TornLayers, OwnOp;
    var u := e.uid;
    if u in s.pulls {
      var p := s.pulls[u];
      var op := MishapAction(s.layers, u, p, e).op;
      MishapOwn(s.images, s.layers, s.started, u, p, e);
      OpTouches(s.images, op, p.order.tag, u);
      OpKeepsSources(s.images, op, s.started);
      InvFromOwn(s, MishapStep(s, e), u);
    }
  }

  lemma StartKeepsInv(s: State, u: Uid, order: Order)
    requires Inv(s)
    ensures Inv(Next(s, Start(u, order)))
  {
    hide StageDir;
  }

  lemma PruneKeepsInv(s: State, e: Event)
    requires Inv(s) && (e.Crash? || e.PruneImage? || e.TearImage? || e.PruneLayer? || e.TearLayer?)
    ensures Inv(Next(s, e))
  {
    hide PullOk, LayerResidue;
  }

  lemma NextKeepsInv(s: State, e: Event)
    requires Inv(s)
    ensures Inv(Next(s, e))
  {
    hide Inv;
    match e
    case Start(u, order) => StartKeepsInv(s, u, order);
    case Advance(u) => if u in s.pulls { AdvanceKeepsInv(s, u); }
    case Fail(_) => MishapKeepsInv(s, e);
    case Tear(_, _, _) => MishapKeepsInv(s, e);
    case GiveUp(_) => MishapKeepsInv(s, e);
    case Read(_) => MishapKeepsInv(s, e);
    case Skip(_) => MishapKeepsInv(s, e);
    case Crash => PruneKeepsInv(s, e);
    case PruneImage(_) => PruneKeepsInv(s, e);
    case TearImage(_) => PruneKeepsInv(s, e);
    case PruneLayer(_) => PruneKeepsInv(s, e);
    case TearLayer(_, _, _) => PruneKeepsInv(s, e);
  }
}
