/**
 * A way of calling the daemon under which no named step ever occurs: tags carry no marker,
 * pulls that run at the same time share neither a tag nor a layer, none starts while a backup
 * is left over, restoring renames succeed, backups can be removed, and every entry of a layer
 * can be linked or copied.
 */
module ImageDiscipline {
  import opened Options
  import opened ImageStore
  import opened ImageSafety
  import opened ImageLayers
  import opened ImageNames
  import opened ImageListing
  import opened ImageRuns
  import opened ImageRecovery

  ghost predicate Disjoint(a: Order, b: Order) {
    a.tag != b.tag && forall x :: x in a.layers ==> x !in b.layers
  }

  /** What a caller can see to before each event. */
  ghost predicate Guarded(s: State, e: Event) {
    match e
    case Start(u, order) =>
      && u !in s.started && SafeTag(order.tag)
      && (forall n :: n in s.images && n.Backup? ==> n.uid in s.pulls)
      && (forall v :: v in s.pulls ==> Disjoint(order, s.pulls[v].order) && Disjoint(s.pulls[v].order, order))
    case Fail(u) => u in s.pulls ==> !s.pulls[u].pc.Restore?
    case GiveUp(u) => u in s.pulls ==> !s.pulls[u].pc.DropBackup?
    case Skip(u) => u in s.pulls ==> !s.pulls[u].pc.MergeCopy?
    case _ => true
  }

  /** What one pull can rely on when the others keep away from its tag and layers. */
  ghost predicate Careful(images: map<ImageName, ImageDir>, layers: map<LayerName, LayerDir>, u: Uid, p: Pull) {
    var live, backup := Live(p.order.tag), Backup(p.order.tag, u);
    && (p.pc.MakeStage? ==> backup !in images)
    && ((p.pc.ClearTest? || p.pc.Clear?) && p.next < |p.order.layers| ==> !LayerExists(layers, p.order.layers[p.next]))
    && (p.pc.Restore? ==> live !in images && backup in images)
    && (p.pc.DropStage? || p.pc.DropBackup? ==> live in images || backup !in images)
  }

  /** A backup belongs to a running pull of its tag. */
  ghost predicate Owned(images: map<ImageName, ImageDir>, pulls: map<Uid, Pull>) {
    forall n :: n in images && n.Backup? ==> n.uid in pulls && pulls[n.uid].order.tag == n.tag
  }

  ghost predicate Apart(pulls: map<Uid, Pull>) {
    forall u, v :: u in pulls && v in pulls && u != v ==> Disjoint(pulls[u].order, pulls[v].order)
  }

  ghost predicate Orderly(s: State) {
    && Apart(s.pulls)
    && (s.pulls != map[] ==> Owned(s.images, s.pulls))
    && (forall u :: u in s.pulls ==> Careful(s.images, s.layers, u, s.pulls[u]))
  }

  // ---------- no named step can happen ----------

  lemma OrderlyNeverHurts(s: State, e: Event, tag: Tag)
    requires Orderly(s) && WholeStages(s)
    ensures !Corrupts(s, e, tag) && !Loses(s, e, tag)
  {
    hide Genuine, LayerExists, WholeStages;
    if e.Advance? || e.Tear? {
      NothingPartialPublished(s, e.uid, tag);
      if e.uid in s.pulls {
        assert Careful(s.images, s.layers, e.uid, s.pulls[e.uid]);
      }
    }
  }

  lemma OrderlyNeverBreaks(s: State, e: Event)
    requires Orderly(s)
    ensures !Breaks(s, e)
  {
    hide Uses;
    if e.Advance? || e.Tear? {
      if e.uid in s.pulls {
        assert Careful(s.images, s.layers, e.uid, s.pulls[e.uid]);
      }
    }
  }

  // ---------- order is kept ----------

  lemma CarefulImages(images: map<ImageName, ImageDir>, layers: map<LayerName, LayerDir>, started: map<Uid, Order>, u: Uid, p: Pull)
    requires PullOk(images, started, u, p) && Careful(images, layers, u, p) && Rank(p.pc) >= 6
    ensures var a := PublishAction(images, u, p);
            !a.after.Over? ==> Careful(Perform(images, a.op), layers, u, Moved(p, a.after))
  {
    hide LayerExists, StageDir;
  }

  lemma CarefulBuild(images: map<ImageName, ImageDir>, layers: map<LayerName, LayerDir>, u: Uid, p: Pull)
    requires !IsLayerPc(p.pc) && Rank(p.pc) <= 5
    ensures var a := BuildAction(layers, u, p);
            Careful(Perform(images, a.op), layers, u, Moved(p, a.after))
  {
    hide LayerExists, TreeExists;
  }

  lemma CarefulLayer(images: map<ImageName, ImageDir>, layers: map<LayerName, LayerDir>, u: Uid, p: Pull)
    requires IsLayerPc(p.pc) && p.next < |p.order.layers| && Careful(images, layers, u, p)
    ensures var a := LayerActionOf(layers, u, p.pc, p.order.layers[p.next]);
            Careful(images, PerformLayer(layers, a.op), u, Moved(p, a.after))
  {
  }

  lemma CarefulMishap(images: map<ImageName, ImageDir>, layers: map<LayerName, LayerDir>, u: Uid, p: Pull, e: Event)
    requires IsMishap(e) && Careful(images, layers, u, p)
    requires e.Fail? ==> !p.pc.Restore?
    requires e.GiveUp? ==> !p.pc.DropBackup?
    ensures var a := MishapAction(layers, u, p, e);
            !a.after.Over? ==> Careful(Perform(images, a.op), TornLayers(layers, u, p, e), u, Moved(p, a.after))
  {
  }

  /** Another pull's work on another tag and other layers is invisible here. */
  lemma CarefulFrame(images: map<ImageName, ImageDir>, images': map<ImageName, ImageDir>, layers: map<LayerName, LayerDir>,
                     layers': map<LayerName, LayerDir>, tag: Tag, u: Uid, v: Uid, p: Pull)
    requires Careful(images, layers, v, p) && u != v && p.order.tag != tag
    requires TouchesOnly(images, images', tag, u)
    requires forall x :: x in p.order.layers ==> SameLayer(layers, layers', x)
    ensures Careful(images', layers', v, p)
  {
    hide LayerExists;
    if p.next < |p.order.layers| {
      assert SameLayer(layers, layers', p.order.layers[p.next]);
    }
  }

  /** Order after a step of one pull follows from that pull's part alone. */
  lemma OrderlyFromOwn(s: State, s': State, u: Uid)
    requires Orderly(s) && u in s.pulls
    requires s'.pulls - {u} == s.pulls - {u}
    requires u in s'.pulls ==> s'.pulls[u].order == s.pulls[u].order && Careful(s'.images, s'.layers, u, s'.pulls[u])
    requires TouchesOnly(s.images, s'.images, s.pulls[u].order.tag, u)
    requires forall x :: x !in s.pulls[u].order.layers ==> SameLayer(s.layers, s'.layers, x)
    requires u !in s'.pulls ==> Backup(s.pulls[u].order.tag, u) !in s'.images
    ensures Orderly(s')
  {
    hide Careful, SameLayer, TouchesOnly;
    var own := s.pulls[u].order;
    forall v | v in s'.pulls && v != u
      ensures v in s.pulls && s'.pulls[v] == s.pulls[v]
    {
      assert v in s'.pulls - {u};
      assert (s'.pulls - {u})[v] == (s.pulls - {u})[v];
    }
    forall v | v in s.pulls && v != u
      ensures v in s'.pulls
    {
      assert v in s.pulls - {u};
    }
    forall v | v in s'.pulls
      ensures Careful(s'.images, s'.layers, v, s'.pulls[v])
    {
      if v != u {
        assert Disjoint(own, s.pulls[v].order) && Disjoint(s.pulls[v].order, own);
        CarefulFrame(s.images, s'.images, s.layers, s'.layers, own.tag, u, v, s.pulls[v]);
      }
    }
    OwnedAfter(s, s', u);
    assert Apart(s'.pulls);
  }

  lemma OwnedAfter(s: State, s': State, u: Uid)
    requires u in s.pulls && Owned(s.images, s.pulls)
    requires forall v :: v in s.pulls && v != u ==> v in s'.pulls && s'.pulls[v] == s.pulls[v]
    requires u in s'.pulls ==> s'.pulls[u].order == s.pulls[u].order
    requires TouchesOnly(s.images, s'.images, s.pulls[u].order.tag, u)
    requires u !in s'.pulls ==> Backup(s.pulls[u].order.tag, u) !in s'.images
    ensures Owned(s'.images, s'.pulls)
  {
    var tag := s.pulls[u].order.tag;
    forall n | n in s'.images && n.Backup?
      ensures n.uid in s'.pulls && s'.pulls[n.uid].order.tag == n.tag
    {
      if n != Backup(tag, u) {
        assert n in s.images;
      }
    }
  }

  lemma SameLayers(layers: map<LayerName, LayerDir>, x: Digest)
    ensures SameLayer(layers, layers, x)
  {
  }

  lemma AdvanceKeepsOrder(s: State, u: Uid)
    requires Inv(s) && Orderly(s) && u in s.pulls
    ensures Orderly(Next(s, Advance(u)))
  {
    hide Careful, SameLayer, TouchesOnly, PullOk, SourcesKnown, BuildAction, PublishAction, LayerActionOf, Perform, PerformLayer,
         LayersTouched, Orderly, OwnOp, OwnLayerOp;
    var p := s.pulls[u];
    assert PullOk(s.images, s.started, u, p);
    CarefulPull(s, u);
    var s' := Next(s, Advance(u));
    if IsLayerPc(p.pc) {
      LayerStepTouches(s, u);
      SameImages(s.images, p.order.tag, u);
      if p.next < |p.order.layers| {
        var x := p.order.layers[p.next];
        var a := LayerActionOf(s.layers, u, p.pc, x);
        CarefulLayer(s.images, s.layers, u, p);
        OwnLayersOnly(s.layers, u, p.pc, x);
        LayerOpTouches(s.layers, a.op, x, u);
        LayerGoesOn(s.layers, u, p.pc, x);
        forall y | y !in p.order.layers
          ensures SameLayer(s.layers, s'.layers, y)
        {
          OtherLayersSame(s.layers, s'.layers, x, u, y);
        }
        OrderlyFromOwn(s, s', u);
      }
    } else {
      ImageStepTouches(s, u);
      forall y
        ensures SameLayer(s.layers, s'.layers, y)
      {
        SameLayers(s.layers, y);
      }
      if Rank(p.pc) <= 5 {
        CarefulBuild(s.images, s.layers, u, p);
        BuildOwn(s.images, s.layers, s.started, u, p);
      } else {
        CarefulImages(s.images, s.layers, s.started, u, p);
        OverLeavesNothing(s, u);
      }
      OrderlyFromOwn(s, s', u);
    }
  }

  lemma CarefulPull(s: State, u: Uid)
    requires Orderly(s) && u in s.pulls
    ensures Careful(s.images, s.layers, u, s.pulls[u])
  {
  }

  lemma LayerGoesOn(layers: map<LayerName, LayerDir>, u: Uid, pc: Pc, x: Digest)
    requires IsLayerPc(pc)
    ensures !LayerActionOf(layers, u, pc, x).after.Over?
  {
  }

  lemma OverLeavesNothing(s: State, u: Uid)
    requires u in s.pulls && Rank(s.pulls[u].pc) >= 6 && Careful(s.images, s.layers, u, s.pulls[u])
    ensures var s' := ImageStep(s, u);
            u !in s'.pulls ==> Backup(s.pulls[u].order.tag, u) !in s'.images
  {
    hide LayerExists, BuildAction;
  }

  lemma MishapKeepsOrder(s: State, e: Event)
    requires Inv(s) && Orderly(s) && IsMishap(e) && e.uid in s.pulls && Guarded(s, e)
    ensures Orderly(Next(s, e))
  {
    hide Careful, SameLayer, TouchesOnly, PullOk, SourcesKnown, Perform, TornLayers, MishapAction, LayersTouched, Orderly, OwnOp;
    var u := e.uid;
    var p, s' := s.pulls[u], Next(s, e);
    assert PullOk(s.images, s.started, u, p);
    CarefulPull(s, u);
    CarefulMishap(s.images, s.layers, u, p, e);
    MishapOwn(s.images, s.layers, s.started, u, p, e);
    OpTouches(s.images, MishapAction(s.layers, u, p, e).op, p.order.tag, u);
    MishapOver(s, e);
    forall y | y !in p.order.layers
      ensures SameLayer(s.layers, s'.layers, y)
    {
      TornOthersSame(s.layers, u, p, e, y);
    }
    OrderlyFromOwn(s, s', u);
  }

  lemma TornOthersSame(layers: map<LayerName, LayerDir>, u: Uid, p: Pull, e: Event, y: Digest)
    requires y !in p.order.layers
    ensures SameLayer(layers, TornLayers(layers, u, p, e), y)
  {
  }

  lemma MishapOver(s: State, e: Event)
    requires IsMishap(e) && e.uid in s.pulls && Careful(s.images, s.layers, e.uid, s.pulls[e.uid]) && Guarded(s, e)
    ensures var s' := Next(s, e);
            var tag := s.pulls[e.uid].order.tag;
            e.uid !in s'.pulls ==> Backup(tag, e.uid) !in s'.images
  {
    hide LayerExists;
  }

  lemma StartKeepsOrder(s: State, u: Uid, order: Order)
    requires Inv(s) && Orderly(s) && Guarded(s, Start(u, order))
    ensures Orderly(Next(s, Start(u, order)))
  {
    hide Careful;
    var s' := Next(s, Start(u, order));
    assert u !in s.pulls;
    forall v | v in s'.pulls
      ensures Careful(s'.images, s'.layers, v, s'.pulls[v])
    {
      if v == u {
        FreshIsCareful(s, u, order);
      }
    }
    assert s.pulls != map[] ==> Owned(s.images, s.pulls);
    assert Owned(s'.images, s'.pulls);
  }

  lemma FreshIsCareful(s: State, u: Uid, order: Order)
    requires u !in s.pulls && forall n :: n in s.images && n.Backup? ==> n.uid in s.pulls
    ensures Careful(s.images, s.layers, u, Pull(order, MakeStage, 0, 0))
  {
  }

  lemma GuardedKeepsOrder(s: State, e: Event)
    requires Inv(s) && Orderly(s) && Guarded(s, e)
    ensures Orderly(Next(s, e))
  {
    hide Inv, Careful, Orderly;
    match e
    case Start(u, order) => StartKeepsOrder(s, u, order);
    case Advance(u) => if u in s.pulls { AdvanceKeepsOrder(s, u); }
    case Fail(u) => if u in s.pulls { MishapKeepsOrder(s, e); }
    case Tear(u, _, _) => if u in s.pulls { MishapKeepsOrder(s, e); }
    case GiveUp(u) => if u in s.pulls { MishapKeepsOrder(s, e); }
    case Read(u) => if u in s.pulls { MishapKeepsOrder(s, e); }
    case Skip(u) => if u in s.pulls { MishapKeepsOrder(s, e); }
    case Crash => IdleIsOrderly(Next(s, e));
    case PruneImage(_) => if s.pulls == map[] { IdleIsOrderly(Next(s, e)); }
    case TearImage(_) => if s.pulls == map[] { IdleIsOrderly(Next(s, e)); }
    case PruneLayer(_) => if s.pulls == map[] { IdleIsOrderly(Next(s, e)); }
    case TearLayer(_, _, _) => if s.pulls == map[] { IdleIsOrderly(Next(s, e)); }
  }

  /** Between runs there is nothing to keep in order. */
  lemma IdleIsOrderly(s: State)
    requires s.pulls == map[]
    ensures Orderly(s)
  {
  }

  // ---------- tags stay clean ----------

  ghost predicate SafeOrders(pulls: map<Uid, Pull>) {
    forall u :: u in pulls ==> SafeTag(pulls[u].order.tag)
  }

  ghost predicate SafeNames(s: State) {
    AllSafe(s.images) && SafeOrders(s.pulls)
  }

  /** A pull adds directories of its own tag only. */
  lemma OwnNamesAreSafe(s: State, s': State, u: Uid)
    requires SafeNames(s) && u in s.pulls
    requires TouchesOnly(s.images, s'.images, s.pulls[u].order.tag, u)
    requires s'.pulls - {u} == s.pulls - {u} && (u in s'.pulls ==> s'.pulls[u].order == s.pulls[u].order)
    ensures SafeNames(s')
  {
    hide SafeTag;
    var tag := s.pulls[u].order.tag;
    forall n | n in s'.images
      ensures SafeTag(n.tag)
    {
      if n != Live(tag) && n != Stage(tag, u) && n != Backup(tag, u) {
        assert n in s.images;
      }
    }
    forall v | v in s'.pulls
      ensures SafeTag(s'.pulls[v].order.tag)
    {
      if v != u {
        assert v in s'.pulls - {u};
        assert (s'.pulls - {u})[v] == (s.pulls - {u})[v];
      }
    }
  }

  lemma SameOrder(pulls: map<Uid, Pull>, u: Uid, after: Then)
    requires u in pulls
    ensures var pulls' := Continue(pulls, u, after);
            pulls' - {u} == pulls - {u} && (u in pulls' ==> pulls'[u].order == pulls[u].order)
  {
  }

  lemma AdvanceKeepsNames(s: State, u: Uid)
    requires SafeNames(s) && u in s.pulls
    ensures SafeNames(Next(s, Advance(u)))
  {
    hide SafeNames, TouchesOnly, BuildAction, PublishAction, LayerActionOf, Perform, PerformLayer, Continue;
    var p := s.pulls[u];
    if IsLayerPc(p.pc) {
      SameImages(s.images, p.order.tag, u);
      if p.next < |p.order.layers| {
        SameOrder(s.pulls, u, LayerActionOf(s.layers, u, p.pc, p.order.layers[p.next]).after);
      }
      OwnNamesAreSafe(s, LayerStep(s, u), u);
    } else {
      ImageStepTouches(s, u);
      SameOrder(s.pulls, u, ImageAction(s, u).after);
      OwnNamesAreSafe(s, ImageStep(s, u), u);
    }
  }

  lemma MishapKeepsNames(s: State, e: Event)
    requires Inv(s) && SafeNames(s) && IsMishap(e) && e.uid in s.pulls
    ensures SafeNames(Next(s, e))
  {
    hide SafeNames, TouchesOnly, Perform, MishapAction, Next, Continue, Inv;
    MishapTouches(s, e);
    SameOrder(s.pulls, e.uid, MishapAction(s.layers, e.uid, s.pulls[e.uid], e).after);
    OwnNamesAreSafe(s, Next(s, e), e.uid);
  }

  lemma GuardedKeepsNames(s: State, e: Event)
    requires Inv(s) && SafeNames(s) && Guarded(s, e)
    ensures SafeNames(Next(s, e))
  {
    if IsMishap(e) {
      if e.uid in s.pulls {
        MishapKeepsNames(s, e);
      }
    } else if e.Advance? {
      if e.uid in s.pulls {
        AdvanceKeepsNames(s, e.uid);
      }
    } else {
      hide SafeTag, Inv, LayerResidue, PruneLayerStep;
    }
  }

  // ---------- runs ----------

  ghost predicate GuardedRun(s: State, events: seq<Event>)
    decreases |events|
  {
    events != [] ==> Guarded(s, events[0]) && GuardedRun(Next(s, events[0]), events[1..])
  }

  /** A store all of whose tags are whole, with an honest cache and orderly pulls. */
  ghost predicate Healthy(s: State) {
    && Inv(s) && TmpInv(s) && Orderly(s) && SafeNames(s)
    && LayersSound(s) && WholeStages(s) && forall tag :: Sound(s, tag)
  }

  lemma EmptyIsHealthy()
    ensures Healthy(EMPTY)
  {
    forall x
      ensures !Uses(EMPTY, x) && !LayerExists(EMPTY.layers, x)
    {
    }
  }

  lemma GuardedNeverSkips(s: State, e: Event)
    requires Guarded(s, e)
    ensures !Skips(s, e)
  {
  }

  lemma GuardedStep(s: State, e: Event)
    requires Healthy(s) && Guarded(s, e)
    ensures Healthy(Next(s, e))
    ensures forall tag :: Present(s, tag) ==> Present(Next(s, e), tag)
  {
    hide Inv, TmpInv, Orderly, SafeNames, LayersSound, WholeStages, Sound, Present, Next, Guarded;
    NextKeepsInv(s, e);
    NextKeepsTmp(s, e);
    GuardedKeepsOrder(s, e);
    GuardedKeepsNames(s, e);
    OrderlyNeverBreaks(s, e);
    NextLayersExact(s, e);
    GuardedNeverSkips(s, e);
    NextWholeExact(s, e);
    forall tag
      ensures Sound(Next(s, e), tag) && (Present(s, tag) ==> Present(Next(s, e), tag))
    {
      OrderlyNeverHurts(s, e, tag);
      NextExact(s, e, tag);
    }
  }

  /** Every disciplined run keeps the store healthy and loses no tag. */
  lemma {:induction false} GuardedRunIsSafe(s: State, events: seq<Event>)
    requires Healthy(s) && GuardedRun(s, events)
    ensures Healthy(Run(s, events))
    ensures forall tag :: Present(s, tag) ==> Present(Run(s, events), tag)
    decreases |events|
  {
    hide Healthy, Present, Next, Guarded;
    if events != [] {
      var next := Next(s, events[0]);
      GuardedStep(s, events[0]);
      GuardedRunIsSafe(next, events[1..]);
      forall tag | Present(s, tag)
        ensures Present(Run(next, events[1..]), tag)
      {
        assert Present(next, tag);
      }
    }
  }

  /** The prune lists what is there, and can rename every backup it has to rename. */
  ghost predicate FairPass(pass: Pass, s: State) {
    && Covers(pass, s)
    && (forall n :: n in pass.images || n in pass.stuckImages ==> n in s.images)
    && (forall tag :: Present(s, tag) ==> Restorable(s, tag, pass.stuckImages))
  }

  /** The names of the stuck entries. */
  function StuckNames(pass: Pass): set<string> {
    set n | n in pass.stuckImages :: Spell(n)
  }

  /**
   * Stop a disciplined run anywhere and restart: every tag that was there before is live, every
   * directory under any tag is whole and complete with all its layers, only what could not be removed
   * is left over, and the directories on disk, pruned by name, are those of the pruned store.
   */
  lemma CrashAnywhere(s: State, events: seq<Event>, pass: Pass, dirs: map<string, ImageDir>)
    requires Healthy(s) && GuardedRun(s, events)
    requires FairPass(pass, Run(s, events)) && Shows(Run(s, events).images, dirs)
    ensures var last := Run(s, events);
            var r := Recovered(last, pass);
            && (forall tag :: Present(s, tag) ==> Live(tag) in r.images)
            && (forall tag :: Live(tag) in r.images ==> ShownWhole(r, tag))
            && (forall n: ImageName :: !n.Live? ==> (n in r.images <==> n in last.images && n in pass.stuckImages))
            && (forall n :: LayerResidue(r.layers, n) <==> LayerResidue(last.layers, n) && n in pass.stuckLayers)
            && Shows(r.images, PrunedNames(dirs, SpellAll(pass.images), StuckNames(pass)))
  {
    hide Inv, TmpInv, Orderly, SafeNames, LayersSound, WholeStages, Sound, ShownWhole, Guarded, Next, Shows, Restorable,
         LayerResidue;
    var last := Run(s, events);
    var r := Recovered(last, pass);
    GuardedRunIsSafe(s, events);
    ResidueExact(last, pass);
    CrashedNames(last, pass, dirs);
    forall tag
      ensures Present(s, tag) ==> Live(tag) in r.images
      ensures Live(tag) in r.images ==> ShownWhole(r, tag)
    {
      PrunedTag(last, pass, tag);
    }
  }

  /** What a client that asks for this tag is shown: a complete image, whole down to its layers. */
  ghost predicate ShownWhole(r: State, tag: Tag) {
    && Live(tag) in r.images
    && Genuine(r.started, tag, r.images[Live(tag)])
    && ImageComplete(r, tag, r.images[Live(tag)].ref.value)
    && forall x :: x in r.images[Live(tag)].layers ==> TreeFilled(r.layers, x)
  }

  lemma PrunedTag(s: State, pass: Pass, tag: Tag)
    requires SafeNames(s) && Sound(s, tag) && LayersSound(s) && FairPass(pass, s)
    ensures var r := Recovered(s, pass);
            && (Present(s, tag) ==> Live(tag) in r.images)
            && (Live(tag) in r.images ==> ShownWhole(r, tag))
  {
    hide Genuine, CleanTag, LayersSound, Restorable, ImageComplete;
    if Present(s, tag) {
      assert SafeTag(tag);
      RestartShowsTag(s, pass, tag);
    } else {
      AbsentStaysAbsent(s.images, pass.images, pass.stuckImages, tag);
    }
  }

  lemma CrashedNames(s: State, pass: Pass, dirs: map<string, ImageDir>)
    requires SafeNames(s) && Shows(s.images, dirs) && FairPass(pass, s)
    ensures Shows(Recovered(s, pass).images, PrunedNames(dirs, SpellAll(pass.images), StuckNames(pass)))
  {
    hide SafeTag, Shows, Spell, Present, Restorable, CleanTag;
    var names := StuckNames(pass);
    forall n | n in pass.images
      ensures n in pass.stuckImages <==> Spell(n) in names
    {
      if Spell(n) in names {
        var m :| m in pass.stuckImages && Spell(m) == Spell(n);
        assert SafeTag(n.tag) && SafeTag(m.tag);
        SafeIsClean(n.tag);
        SafeIsClean(m.tag);
        SpellInjective(n, m);
      }
    }
    PrunedNamesAgree(s.images, dirs, pass.images, pass.stuckImages, names);
  }

  lemma SafeIsClean(tag: Tag)
    requires SafeTag(tag)
    ensures CleanTag(tag)
  {
    hide CleanTag;
  }
}
