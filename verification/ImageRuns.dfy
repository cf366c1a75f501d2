/**
 * Tags and layers together. While the layer cache is sound a merge reads only complete layers,
 * so a stage can end up partial in one way only: an entry that could not be copied was passed
 * over. With that, the steps that hurt a tag or the cache are named for whole runs.
 */
module ImageRuns {
  import opened Options
  import opened ImageStore
  import opened ImageSafety
  import opened ImageLayers

  /** The rootfs of a stage under construction is whole so far. */
  predicate StageWhole(images: map<ImageName, ImageDir>, u: Uid, p: Pull) {
    5 <= Rank(p.pc) <= 8 ==> Stage(p.order.tag, u) in images && WholeSoFar(images[Stage(p.order.tag, u)])
  }

  ghost predicate WholeStages(s: State) {
    forall u :: u in s.pulls ==> StageWhole(s.images, u, s.pulls[u])
  }

  /** A merge passes over an entry. */
  predicate Skips(s: State, e: Event) {
    e.Skip? && e.uid in s.pulls && s.pulls[e.uid].pc.MergeCopy?
  }

  // ---------- what a merge reads ----------

  /** A pull that is merging counts on every one of its layers, and a sound cache has them complete. */
  lemma MergesFilledLayer(s: State, u: Uid)
    requires Inv(s) && LayersSound(s) && u in s.pulls && s.pulls[u].pc.MergeCopy?
    ensures var p := s.pulls[u];
            p.merged < |p.order.layers| && TreeFilled(s.layers, p.order.layers[p.merged])
  {
    var p := s.pulls[u];
    assert PullOk(s.images, s.started, u, p);
    var x := p.order.layers[p.merged];
    assert p.order.layers[..p.next] == p.order.layers;
    assert PullUses(p, x);
    assert Uses(s, x);
  }

  lemma MergeKeepsWhole(s: State, u: Uid)
    requires Inv(s) && LayersSound(s) && u in s.pulls && StageWhole(s.images, u, s.pulls[u])
    requires s.pulls[u].pc.MergeCopy?
    ensures var a := BuildAction(s.layers, u, s.pulls[u]);
            StageWhole(Perform(s.images, a.op), u, Moved(s.pulls[u], a.after))
  {
    hide Inv, LayersSound, TreeFilled;
    MergesFilledLayer(s, u);
  }

  lemma BuildKeepsWhole(images: map<ImageName, ImageDir>, layers: map<LayerName, LayerDir>, started: map<Uid, Order>, u: Uid, p: Pull)
    requires PullOk(images, started, u, p) && StageWhole(images, u, p)
    requires !IsLayerPc(p.pc) && Rank(p.pc) <= 5 && !p.pc.MergeCopy?
    ensures var a := BuildAction(layers, u, p);
            StageWhole(Perform(images, a.op), u, Moved(p, a.after))
  {
    hide TreeExists, LayerExists;
  }

  lemma PublishKeepsWhole(images: map<ImageName, ImageDir>, u: Uid, p: Pull)
    requires Rank(p.pc) >= 6 && StageWhole(images, u, p)
    ensures var a := PublishAction(images, u, p);
            !a.after.Over? ==> StageWhole(Perform(images, a.op), u, Moved(p, a.after))
  {
  }

  lemma LayerKeepsWhole(images: map<ImageName, ImageDir>, layers: map<LayerName, LayerDir>, u: Uid, p: Pull, x: Digest)
    requires IsLayerPc(p.pc)
    ensures StageWhole(images, u, Moved(p, LayerActionOf(layers, u, p.pc, x).after)) && StageWhole(images, u, p)
  {
    hide LayerExists;
  }

  // ---------- one event ----------

  /** Other pulls' stages are not touched, so only the acting pull has to be looked at. */
  lemma WholeFromOwn(s: State, s': State, u: Uid)
    requires WholeStages(s) && u in s.pulls && s'.pulls - {u} == s.pulls - {u}
    requires TouchesOnly(s.images, s'.images, s.pulls[u].order.tag, u)
    requires u in s'.pulls ==> StageWhole(s'.images, u, s'.pulls[u])
    ensures WholeStages(s')
  {
    forall v | v in s'.pulls
      ensures StageWhole(s'.images, v, s'.pulls[v])
    {
      if v != u {
        assert v in s'.pulls - {u};
        assert (s'.pulls - {u})[v] == (s.pulls - {u})[v];
        assert StageWhole(s.images, v, s.pulls[v]);
      }
    }
  }

  lemma AdvanceKeepsWhole(s: State, u: Uid)
    requires Inv(s) && LayersSound(s) && WholeStages(s) && u in s.pulls
    ensures WholeStages(Next(s, Advance(u)))
  {
    var p := s.pulls[u];
    assert StageWhole(s.images, u, p);
    assert PullOk(s.images, s.started, u, p);
    hide StageWhole, WholeStages, Inv, LayersSound, TouchesOnly, PullOk, BuildAction, PublishAction, LayerActionOf, Perform, PerformLayer;
    if IsLayerPc(p.pc) {
      LayerStepTouches(s, u);
      SameImages(s.images, p.order.tag, u);
      if p.next < |p.order.layers| {
        LayerKeepsWhole(s.images, s.layers, u, p, p.order.layers[p.next]);
      }
      WholeFromOwn(s, LayerStep(s, u), u);
    } else {
      ImageStepTouches(s, u);
      if p.pc.MergeCopy? {
        MergeKeepsWhole(s, u);
      } else if Rank(p.pc) <= 5 {
        BuildKeepsWhole(s.images, s.layers, s.started, u, p);
      } else {
        PublishKeepsWhole(s.images, u, p);
      }
      WholeFromOwn(s, ImageStep(s, u), u);
    }
  }

  /** What happens inside an action leaves the pull's own stage whole unless an entry is passed over. */
  lemma MishapOwnWhole(s: State, e: Event)
    requires Inv(s) && LayersSound(s) && IsMishap(e) && e.uid in s.pulls
    requires StageWhole(s.images, e.uid, s.pulls[e.uid]) && PullOk(s.images, s.started, e.uid, s.pulls[e.uid])
    ensures var u, p := e.uid, s.pulls[e.uid];
            var a := MishapAction(s.layers, u, p, e);
            var images' := Perform(s.images, a.op);
            && (Skips(s, e) ==> a.after == To(p.pc) && !StageWhole(images', u, p))
            && (!Skips(s, e) && !a.after.Over? ==> StageWhole(images', u, Moved(p, a.after)))
  {
    hide Inv, LayersSound, TreeFilled;
    if s.pulls[e.uid].pc.MergeCopy? {
      MergesFilledLayer(s, e.uid);
    }
  }

  lemma MishapTouches(s: State, e: Event)
    requires Inv(s) && IsMishap(e) && e.uid in s.pulls
    ensures var u, p, s' := e.uid, s.pulls[e.uid], Next(s, e);
            var a := MishapAction(s.layers, u, p, e);
            && s'.pulls == Continue(s.pulls, u, a.after) && s'.images == Perform(s.images, a.op)
            && TouchesOnly(s.images, s'.images, p.order.tag, u)
  {
    var u, p := e.uid, s.pulls[e.uid];
    assert PullOk(s.images, s.started, u, p);
    hide Inv, PullOk, TouchesOnly, Perform, MishapAction, TornLayers, OwnOp, Continue;
    MishapOwn(s.images, s.layers, s.started, u, p, e);
    OpTouches(s.images, MishapAction(s.layers, u, p, e).op, p.order.tag, u);
  }

  lemma MishapWhole(s: State, e: Event)
    requires Inv(s) && LayersSound(s) && WholeStages(s) && IsMishap(e) && e.uid in s.pulls
    ensures WholeStages(Next(s, e)) <==> !Skips(s, e)
  {
    var u, p, s' := e.uid, s.pulls[e.uid], Next(s, e);
    assert StageWhole(s.images, u, p);
    assert PullOk(s.images, s.started, u, p);
    hide *;
    MishapTouches(s, e);
    MishapOwnWhole(s, e);
    MishapVerdict(s, s', e, MishapAction(s.layers, u, p, e));
  }

  lemma MishapVerdict(s: State, s': State, e: Event, a: Action)
    requires WholeStages(s) && IsMishap(e) && e.uid in s.pulls
    requires var u, p := e.uid, s.pulls[e.uid];
             && s'.pulls == Continue(s.pulls, u, a.after)
             && TouchesOnly(s.images, s'.images, p.order.tag, u)
             && (Skips(s, e) ==> a.after == To(p.pc) && !StageWhole(s'.images, u, p))
             && (!Skips(s, e) && !a.after.Over? ==> StageWhole(s'.images, u, Moved(p, a.after)))
    ensures WholeStages(s') <==> !Skips(s, e)
  {
    hide StageWhole, TouchesOnly, Skips;
    var u, p := e.uid, s.pulls[e.uid];
    if Skips(s, e) {
      assert u in s'.pulls && s'.pulls[u] == p;
    } else {
      WholeFromOwn(s, s', u);
    }
  }

  /** Over a sound cache, passing over an entry is the only thing that makes a stage partial. */
  lemma NextWholeExact(s: State, e: Event)
    requires Inv(s) && LayersSound(s) && WholeStages(s)
    ensures WholeStages(Next(s, e)) <==> !Skips(s, e)
  {
    if IsMishap(e) {
      if e.uid in s.pulls {
        MishapWhole(s, e);
      }
    } else if e.Advance? {
      if e.uid in s.pulls {
        AdvanceKeepsWhole(s, e.uid);
      }
    } else {
      hide Inv, LayersSound, PruneImageStep, PruneLayerStep, LayerResidue, Removable;
    }
  }

  // ---------- tags and layers at once ----------

  /** The cache is sound, no stage is partial, and the tag is safe whatever happens next. */
  ghost predicate Safe(s: State, tag: Tag) {
    LayersSound(s) && WholeStages(s) && Sound(s, tag) && Present(s, tag)
  }

  /** The named steps. Publishing a partial stage is not among them: it needs one of the others first. */
  ghost predicate Hurts(s: State, e: Event, tag: Tag) {
    || Breaks(s, e)
    || Skips(s, e)
    || (e.Advance? && Exposes(s, e.uid, tag))
    || (e.Tear? && TearsLast(s, e.uid, tag))
    || Loses(s, e, tag)
  }

  /** With whole stages nothing partial is published. */
  lemma NothingPartialPublished(s: State, u: Uid, tag: Tag)
    requires WholeStages(s)
    ensures !PublishesPart(s, u, tag)
  {
    if AtPc(s, u, tag, Publish) {
      assert StageWhole(s.images, u, s.pulls[u]);
    }
  }

  lemma HurtsOrCorrupts(s: State, e: Event, tag: Tag)
    requires WholeStages(s)
    ensures Hurts(s, e, tag) <==> Breaks(s, e) || Skips(s, e) || Corrupts(s, e, tag) || Loses(s, e, tag)
  {
    hide WholeStages, Breaks, Skips, Exposes, TearsLast, Loses, PublishesPart;
    if e.Advance? {
      NothingPartialPublished(s, e.uid, tag);
    }
  }

  /** One event keeps a safe tag and its layers safe exactly when it is not one of the named steps. */
  lemma NextSafeExact(s: State, e: Event, tag: Tag)
    requires Inv(s) && TmpInv(s) && Safe(s, tag)
    ensures Safe(Next(s, e), tag) <==> !Hurts(s, e, tag)
  {
    hide Inv, TmpInv, LayersSound, WholeStages, Sound, Present, Next, Breaks, Skips, Corrupts, Loses, Hurts;
    NextLayersExact(s, e);
    NextWholeExact(s, e);
    NextExact(s, e, tag);
    HurtsOrCorrupts(s, e, tag);
  }

  // ---------- whole runs ----------

  /** The tag and the cache are safe at every moment of the run. */
  ghost predicate AlwaysSafe(s: State, events: seq<Event>, tag: Tag)
    decreases |events|
  {
    Safe(s, tag) && (events != [] ==> AlwaysSafe(Next(s, events[0]), events[1..], tag))
  }

  /** No event of the run is one of the named steps. */
  ghost predicate NeverHurt(s: State, events: seq<Event>, tag: Tag)
    decreases |events|
  {
    events != [] ==> !Hurts(s, events[0], tag) && NeverHurt(Next(s, events[0]), events[1..], tag)
  }

  /**
   * Over every interleaving of pulls, failures, torn removals, partial reads, crashes and prune steps a
   * tag and the layers under every image stay safe exactly when none of the named steps occurs.
   */
  lemma {:induction false} RunExact(s: State, events: seq<Event>, tag: Tag)
    requires Inv(s) && TmpInv(s) && Safe(s, tag)
    ensures AlwaysSafe(s, events, tag) <==> NeverHurt(s, events, tag)
    decreases |events|
  {
    hide Inv, TmpInv, Safe, Hurts, Next;
    if events != [] {
      var next := Next(s, events[0]);
      NextKeepsInv(s, events[0]);
      NextKeepsTmp(s, events[0]);
      NextSafeExact(s, events[0], tag);
      if Safe(next, tag) {
        RunExact(next, events[1..], tag);
      }
    }
  }

  /** A run that breaks no layer and passes over no entry. */
  ghost predicate LayersRespected(s: State, events: seq<Event>)
    decreases |events|
  {
    events != [] ==>
      !Breaks(s, events[0]) && !Skips(s, events[0]) && LayersRespected(Next(s, events[0]), events[1..])
  }

  /** Such a run ends with every used layer complete and every stage whole: nothing partial was merged. */
  lemma {:induction false} RunMergesWhole(s: State, events: seq<Event>)
    requires Inv(s) && TmpInv(s) && LayersSound(s) && WholeStages(s) && LayersRespected(s, events)
    ensures LayersSound(Run(s, events)) && WholeStages(Run(s, events))
    decreases |events|
  {
    hide Inv, TmpInv, LayersSound, WholeStages, Breaks, Skips, Next;
    if events != [] {
      NextKeepsInv(s, events[0]);
      NextKeepsTmp(s, events[0]);
      NextLayersExact(s, events[0]);
      NextWholeExact(s, events[0]);
      RunMergesWhole(Next(s, events[0]), events[1..]);
    }
  }
}
