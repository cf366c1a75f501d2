/**
 * What a pull leaves behind: when its own directories are gone at its end, and when its tag is live with
 * its own output.
 */
module ImageEndings {
  import opened Options
  import opened ImageStore

  /** The stage or the backup of a pull. */
  predicate OwnedBy(n: ImageName, u: Uid) {
    !n.Live? && n.uid == u
  }

  ghost predicate Owns(images: map<ImageName, ImageDir>, u: Uid) {
    exists n :: n in images && OwnedBy(n, u)
  }

  /** Stages and backups carry the tag of the pull they belong to. */
  ghost predicate NamesKnown(s: State) {
    forall n :: n in s.images && !n.Live? ==> n.uid in s.started && s.started[n.uid].tag == n.tag
  }

  // ---------- the directories of a pull ----------

  predicate MayHaveStage(pc: Pc) {
    !pc.MakeStage? && !pc.DropBackup?
  }

  predicate MayHaveBackup(pc: Pc) {
    Rank(pc) >= 8
  }

  predicate TidyAt(images: map<ImageName, ImageDir>, u: Uid, p: Pull) {
    && (Stage(p.order.tag, u) in images ==> MayHaveStage(p.pc))
    && (Backup(p.order.tag, u) in images ==> MayHaveBackup(p.pc))
  }

  /** A pull has no directories before it makes them, none but the backup at its last action, none afterwards. */
  ghost predicate Tidy(s: State, u: Uid) {
    if u in s.pulls then TidyAt(s.images, u, s.pulls[u]) else !Owns(s.images, u)
  }

  /** The event ends the pull, or takes it past its clean-up, with a directory of its own left. */
  ghost predicate Strands(s: State, e: Event, u: Uid) {
    && u in s.pulls
    && var p := s.pulls[u];
       var stage, backup := Stage(p.order.tag, u) in s.images, Backup(p.order.tag, u) in s.images;
       var live := Live(p.order.tag) in s.images;
       match e
       case Crash => stage || backup
       case GiveUp(v) => v == u && ((p.pc.DropStage? && stage) || (p.pc.DropBackup? && backup))
       case Fail(v) => v == u && p.pc.Restore? && stage
       case Advance(v) => v == u && p.pc.Restore? && stage && (live || !backup)
       case _ => false
  }

  lemma OpKeepsNames(s: State, op: ImageOp, tag: Tag, u: Uid)
    requires NamesKnown(s) && OwnOp(op, tag, u) && u in s.started && s.started[u].tag == tag
    ensures NamesKnown(s.(images := Perform(s.images, op)))
  {
  }

  lemma SameNames(s: State, t: State)
    requires NamesKnown(s) && t.images == s.images
    requires forall u :: u in s.started ==> u in t.started && t.started[u] == s.started[u]
    ensures NamesKnown(t)
  {
  }

  lemma StartedAs(s: State, u: Uid)
    requires Inv(s) && u in s.pulls
    ensures u in s.started && s.started[u] == s.pulls[u].order && PullOk(s.images, s.started, u, s.pulls[u])
  {
  }

  lemma AdvanceKeepsNames(s: State, u: Uid)
    requires Inv(s) && NamesKnown(s) && u in s.pulls
    ensures NamesKnown(Next(s, Advance(u)))
  {
    StartedAs(s, u);
    hide NamesKnown, Inv, ImageAction, OwnOp, Perform, LayerActionOf, PerformLayer, Continue;
    if IsLayerPc(s.pulls[u].pc) {
      SameNames(s, LayerStep(s, u));
    } else {
      OwnNamesOnly(s, u);
      var done := s.(images := Perform(s.images, ImageAction(s, u).op));
      OpKeepsNames(s, ImageAction(s, u).op, s.pulls[u].order.tag, u);
      SameNames(done, ImageStep(s, u));
    }
  }

  lemma MishapKeepsNames(s: State, e: Event)
    requires Inv(s) && NamesKnown(s) && IsMishap(e) && e.uid in s.pulls
    ensures NamesKnown(Next(s, e))
  {
    var u := e.uid;
    StartedAs(s, u);
    MishapOwn(s.images, s.layers, s.started, u, s.pulls[u], e);
    hide NamesKnown, Inv, PullOk, OwnOp, Perform, MishapAction, TornLayers, Continue;
    var op := MishapAction(s.layers, u, s.pulls[u], e).op;
    OpKeepsNames(s, op, s.pulls[u].order.tag, u);
    SameNames(s.(images := Perform(s.images, op)), MishapStep(s, e));
  }

  lemma PruneKeepsNames(s: State, e: Event)
    requires NamesKnown(s) && (e.Start? || e.Crash? || e.PruneImage? || e.TearImage? || e.PruneLayer? || e.TearLayer?)
    ensures NamesKnown(Next(s, e))
  {
    hide LayerResidue, PruneLayerStep, TornLayer;
  }

  lemma NextKeepsNames(s: State, e: Event)
    requires Inv(s) && NamesKnown(s)
    ensures NamesKnown(Next(s, e))
  {
    hide NamesKnown, Inv;
    if e.Advance? && e.uid in s.pulls {
      AdvanceKeepsNames(s, e.uid);
    } else if IsMishap(e) && e.uid in s.pulls {
      MishapKeepsNames(s, e);
    } else if e.Start? || e.Crash? || e.PruneImage? || e.TearImage? || e.PruneLayer? || e.TearLayer? {
      PruneKeepsNames(s, e);
    }
  }

  // ---------- one event ----------

  /** Another pull leaves this one's directories alone. */
  lemma OthersKeepTidy(s: State, t: State, u: Uid, v: Uid, tag: Tag)
    requires u != v && TouchesOnly(s.images, t.images, tag, v)
    requires u in t.pulls <==> u in s.pulls
    requires u in s.pulls ==> t.pulls[u] == s.pulls[u]
    ensures Tidy(t, u) <==> Tidy(s, u)
  {
    forall n | OwnedBy(n, u)
      ensures n in s.images <==> n in t.images
    {
    }
    hide MayHaveStage, MayHaveBackup;
  }

  lemma OwnedNames(s: State, u: Uid, tag: Tag)
    requires NamesKnown(s) && u in s.started && s.started[u].tag == tag
    ensures Owns(s.images, u) <==> Stage(tag, u) in s.images || Backup(tag, u) in s.images
  {
    if Stage(tag, u) in s.images {
      assert OwnedBy(Stage(tag, u), u);
    }
    if Backup(tag, u) in s.images {
      assert OwnedBy(Backup(tag, u), u);
    }
  }

  lemma LayerStepTidy(s: State, u: Uid)
    requires u in s.pulls && Tidy(s, u) && IsLayerPc(s.pulls[u].pc)
    ensures Tidy(LayerStep(s, u), u)
  {
    LayerStepTouches(s, u);
    hide LayerExists, PerformLayer;
  }

  lemma BuildTidy(images: map<ImageName, ImageDir>, layers: map<LayerName, LayerDir>, u: Uid, p: Pull)
    requires TidyAt(images, u, p) && Rank(p.pc) <= 5 && !IsLayerPc(p.pc)
    ensures var a := BuildAction(layers, u, p); !a.after.Over? && TidyAt(Perform(images, a.op), u, Moved(p, a.after))
  {
    hide LayerExists, TreeExists, TreeFilled;
  }

  /** At the end of a pull nothing of it is there, and before the end at most what may be there. */
  predicate TidyAfter(images: map<ImageName, ImageDir>, u: Uid, p: Pull, after: Then) {
    if after.Over? then Stage(p.order.tag, u) !in images && Backup(p.order.tag, u) !in images
    else TidyAt(images, u, Moved(p, after))
  }

  lemma PublishTidy(images: map<ImageName, ImageDir>, u: Uid, p: Pull)
    requires TidyAt(images, u, p) && Rank(p.pc) >= 6
    ensures var a := PublishAction(images, u, p);
            var stage := Stage(p.order.tag, u) in images;
            var blocked := Live(p.order.tag) in images || Backup(p.order.tag, u) !in images;
            TidyAfter(Perform(images, a.op), u, p, a.after) <==> !(p.pc.Restore? && stage && blocked)
  {
  }

  lemma AdvanceTidy(s: State, u: Uid)
    requires Inv(s) && NamesKnown(s) && Tidy(s, u) && u in s.pulls
    ensures Tidy(Next(s, Advance(u)), u) <==> !Strands(s, Advance(u), u)
  {
    hide Inv, NamesKnown, PublishAction, BuildAction, Perform, Owns, TidyAt;
    var p := s.pulls[u];
    if IsLayerPc(p.pc) {
      LayerStepTidy(s, u);
    } else if Rank(p.pc) <= 5 {
      BuildTidy(s.images, s.layers, u, p);
    } else {
      PublishTidy(s.images, u, p);
      AdvanceKeepsNames(s, u);
      StartedAs(s, u);
      OwnedNames(ImageStep(s, u), u, p.order.tag);
    }
  }

  lemma MishapTidyAt(images: map<ImageName, ImageDir>, layers: map<LayerName, LayerDir>, u: Uid, p: Pull, e: Event)
    requires TidyAt(images, u, p) && IsMishap(e)
    ensures var a := MishapAction(layers, u, p, e);
            var stage, backup := Stage(p.order.tag, u) in images, Backup(p.order.tag, u) in images;
            TidyAfter(Perform(images, a.op), u, p, a.after) <==>
            !(|| (e.GiveUp? && ((p.pc.DropStage? && stage) || (p.pc.DropBackup? && backup)))
              || (e.Fail? && p.pc.Restore? && stage))
  {
    hide TreeFilled;
  }

  lemma MishapTidy(s: State, e: Event)
    requires Inv(s) && NamesKnown(s) && IsMishap(e) && e.uid in s.pulls && Tidy(s, e.uid)
    ensures Tidy(Next(s, e), e.uid) <==> !Strands(s, e, e.uid)
  {
    hide Inv, NamesKnown, MishapAction, Perform, Owns, TidyAt, TornLayers;
    var u := e.uid;
    MishapTidyAt(s.images, s.layers, u, s.pulls[u], e);
    MishapKeepsNames(s, e);
    StartedAs(s, u);
    OwnedNames(MishapStep(s, e), u, s.pulls[u].order.tag);
  }

  lemma CrashTidy(s: State, u: Uid)
    requires Inv(s) && NamesKnown(s) && Tidy(s, u)
    ensures Tidy(Next(s, Crash), u) <==> !Strands(s, Crash, u)
  {
    hide Inv, NamesKnown, Owns, TidyAt;
    if u in s.pulls {
      StartedAs(s, u);
      OwnedNames(s, u, s.pulls[u].order.tag);
    }
  }

  lemma StartTidy(s: State, v: Uid, order: Order, u: Uid)
    requires Inv(s) && NamesKnown(s) && Tidy(s, u)
    ensures Tidy(Next(s, Start(v, order)), u)
  {
    if v == u && u !in s.started && u in s.pulls {
      StartedAs(s, u);
    }
    if v == u && u !in s.started {
      var stage, backup := Stage(order.tag, u), Backup(order.tag, u);
      assert stage !in s.images && backup !in s.images;
    }
    hide Inv;
  }

  lemma PruneTidy(s: State, e: Event, u: Uid)
    requires Tidy(s, u) && (e.PruneImage? || e.TearImage? || e.PruneLayer? || e.TearLayer?)
    ensures Tidy(Next(s, e), u)
  {
    hide LayerResidue, PruneLayerStep, TornLayer, TidyAt;
  }

  lemma OtherTidy(s: State, e: Event, u: Uid)
    requires Inv(s) && (e.Advance? || IsMishap(e)) && e.uid in s.pulls && e.uid != u
    ensures Tidy(Next(s, e), u) <==> Tidy(s, u)
  {
    hide Inv, Tidy, TouchesOnly, OwnOp, Perform, PullOk, MishapAction, TornLayers, ImageAction, LayerActionOf, PerformLayer;
    var v := e.uid;
    var tag := s.pulls[v].order.tag;
    if IsMishap(e) {
      StartedAs(s, v);
      MishapOwn(s.images, s.layers, s.started, v, s.pulls[v], e);
      OpTouches(s.images, MishapAction(s.layers, v, s.pulls[v], e).op, tag, v);
    } else if IsLayerPc(s.pulls[v].pc) {
      SameImages(s.images, tag, v);
    } else {
      ImageStepTouches(s, v);
    }
    OthersKeepTidy(s, Next(s, e), u, v, tag);
  }

  /**
   * One event of any kind leaves a directory of a pull behind exactly when it is one of these: a crash
   * while there is one, a removal that gives up on one, or a restore that fails while the stage is there.
   */
  lemma TidyExact(s: State, e: Event, u: Uid)
    requires Inv(s) && NamesKnown(s) && Tidy(s, u)
    ensures Tidy(Next(s, e), u) <==> !Strands(s, e, u)
  {
    hide Inv, NamesKnown, Tidy;
    if e.Advance? && e.uid in s.pulls {
      if e.uid == u {
        AdvanceTidy(s, u);
      } else {
        OtherTidy(s, e, u);
      }
    } else if IsMishap(e) && e.uid in s.pulls {
      if e.uid == u {
        MishapTidy(s, e);
      } else {
        OtherTidy(s, e, u);
      }
    } else if e.Crash? {
      CrashTidy(s, u);
    } else if e.Start? {
      StartTidy(s, e.uid, e.order, u);
    } else if e.PruneImage? || e.TearImage? || e.PruneLayer? || e.TearLayer? {
      PruneTidy(s, e, u);
    }
  }

  // ---------- unpacking directories ----------

  predicate MayHaveTmp(pc: Pc) {
    pc.Unpack? || pc.WriteMeta? || pc.PublishLayer? || pc.DropTmp?
  }

  /** A pull has an unpacking directory only for the layer it is working on, from making it to publishing or dropping it. */
  ghost predicate TidyLayers(s: State, u: Uid) {
    forall x :: Unpacking(x, u) in s.layers ==>
      && u in s.pulls && MayHaveTmp(s.pulls[u].pc)
      && s.pulls[u].next < |s.pulls[u].order.layers| && x == s.pulls[u].order.layers[s.pulls[u].next]
  }

  /** The event leaves an unpacking directory of the pull for good. */
  ghost predicate StrandsLayer(s: State, e: Event, u: Uid) {
    && u in s.pulls
    && (e.Crash? || (e == GiveUp(u) && s.pulls[u].pc.DropTmp?))
    && exists x :: Unpacking(x, u) in s.layers
  }

  /** Only the unpacking directory of this layer and pull, and the published layer, differ. */
  ghost predicate LayersTouched(layers: map<LayerName, LayerDir>, layers': map<LayerName, LayerDir>, u: Uid, x: Digest) {
    forall n :: n != Unpacking(x, u) && n.Unpacking? ==> (n in layers <==> n in layers')
  }

  lemma LayerStepOwn(s: State, u: Uid)
    requires Inv(s) && TidyLayers(s, u) && u in s.pulls && IsLayerPc(s.pulls[u].pc)
    ensures TidyLayers(LayerStep(s, u), u)
  {
    StartedAs(s, u);
    hide Inv, LayerExists, StageDir;
    var p := s.pulls[u];
    var x := p.order.layers[p.next];
    var a := LayerActionOf(s.layers, u, p.pc, x);
    LayerActionOwn(s.layers, u, p.pc, x);
    assert forall y :: Unpacking(y, u) in s.layers ==> y == x;
    if a.after.LayerDone? {
      assert Unpacking(x, u) !in PerformLayer(s.layers, a.op);
    }
  }

  /** A layer action changes at most its own unpacking directory, and has one left only where that is in order. */
  lemma LayerActionOwn(layers: map<LayerName, LayerDir>, u: Uid, pc: Pc, x: Digest)
    requires IsLayerPc(pc) && (Unpacking(x, u) in layers ==> MayHaveTmp(pc))
    ensures var a := LayerActionOf(layers, u, pc, x);
            && LayersTouched(layers, PerformLayer(layers, a.op), u, x)
            && !a.after.Over? && !a.after.LayerMerged?
            && (a.after.LayerDone? ==> Unpacking(x, u) !in PerformLayer(layers, a.op))
            && (a.after.To? && Unpacking(x, u) in PerformLayer(layers, a.op) ==> MayHaveTmp(a.after.pc))
  {
    hide LayerExists;
  }

  lemma OtherLayerStep(s: State, u: Uid, v: Uid)
    requires Inv(s) && TidyLayers(s, u) && v in s.pulls && IsLayerPc(s.pulls[v].pc) && u != v
    ensures TidyLayers(LayerStep(s, v), u)
  {
    StartedAs(s, v);
    hide Inv, LayerExists, StageDir;
    LayersOfOthers(s.layers, v, s.pulls[v].pc, s.pulls[v].order.layers[s.pulls[v].next], u);
    hide LayerActionOf, PerformLayer;
  }

  lemma LayersOfOthers(layers: map<LayerName, LayerDir>, v: Uid, pc: Pc, x: Digest, u: Uid)
    requires IsLayerPc(pc) && u != v
    ensures forall y :: Unpacking(y, u) in PerformLayer(layers, LayerActionOf(layers, v, pc, x).op) <==> Unpacking(y, u) in layers
  {
    hide LayerExists;
  }

  /** A pull that works on its image directories has no unpacking directory before or after. */
  lemma ImageStepOwn(s: State, u: Uid)
    requires TidyLayers(s, u) && u in s.pulls && !IsLayerPc(s.pulls[u].pc)
    ensures TidyLayers(ImageStep(s, u), u)
  {
    ImageStepTouches(s, u);
    assert !MayHaveTmp(s.pulls[u].pc);
    hide ImageStep;
  }

  lemma AdvanceTidyLayers(s: State, e: Event, u: Uid)
    requires Inv(s) && TidyLayers(s, u) && e.Advance? && e.uid in s.pulls
    ensures TidyLayers(Next(s, e), u)
  {
    hide Inv;
    var v := e.uid;
    if IsLayerPc(s.pulls[v].pc) {
      hide TidyLayers, LayerStep;
      if v == u {
        LayerStepOwn(s, u);
      } else {
        OtherLayerStep(s, u, v);
      }
    } else if v == u {
      ImageStepOwn(s, u);
    } else {
      ImageStepTouches(s, v);
      hide ImageStep;
      assert u in s.pulls ==> (s.pulls - {v})[u] == s.pulls[u];
    }
  }

  lemma MishapTidyLayers(s: State, e: Event, u: Uid)
    requires TidyLayers(s, u) && IsMishap(e) && e.uid in s.pulls
    ensures TidyLayers(Next(s, e), u) <==> !StrandsLayer(s, e, u)
  {
    TornKeepsKeys(s.layers, e.uid, s.pulls[e.uid], e);
    hide TornLayers, Perform, MergeRead;
    if e.uid == u && e.GiveUp? && s.pulls[u].pc.DropTmp? {
      assert Next(s, e).pulls[u].pc.ExceptTest?;
    }
  }

  lemma TornKeepsKeys(layers: map<LayerName, LayerDir>, u: Uid, p: Pull, e: Event)
    ensures TornLayers(layers, u, p, e).Keys == layers.Keys
  {
    hide TornLayer;
  }

  lemma RestTidyLayers(s: State, e: Event, u: Uid)
    requires Inv(s) && TidyLayers(s, u) && !e.Advance? && !IsMishap(e)
    ensures TidyLayers(Next(s, e), u) <==> !StrandsLayer(s, e, u)
  {
    if e.Start? && e.uid == u && u in s.pulls {
      StartedAs(s, u);
    }
    hide Inv, LayerResidue, PruneImageStep, TornLayer, Edit;
  }

  /** An unpacking directory is left behind exactly by a crash or by its own removal giving up. */
  lemma TidyLayersExact(s: State, e: Event, u: Uid)
    requires Inv(s) && TidyLayers(s, u)
    ensures TidyLayers(Next(s, e), u) <==> !StrandsLayer(s, e, u)
  {
    hide Inv, TidyLayers;
    if e.Advance? && e.uid in s.pulls {
      AdvanceTidyLayers(s, e, u);
    } else if IsMishap(e) && e.uid in s.pulls {
      MishapTidyLayers(s, e, u);
    } else if !e.Advance? && !IsMishap(e) {
      RestTidyLayers(s, e, u);
    }
  }

  // ---------- a pull that goes through ----------

  /** The whole output of a pull with this order. */
  predicate OutputOf(d: ImageDir, u: Uid, order: Order) {
    && d.source == u && d.layers == order.layers && d.ref == Some(order.ref)
    && d.config && d.manifest && !d.torn
    && d.rootfs.Merged? && d.rootfs.layers == order.layers
  }

  ghost predicate TagIsOutput(images: map<ImageName, ImageDir>, u: Uid, order: Order) {
    Live(order.tag) in images && OutputOf(images[Live(order.tag)], u, order)
  }

  /** No directory but its stage comes from the pull yet. */
  ghost predicate Unpublished(images: map<ImageName, ImageDir>, u: Uid, tag: Tag) {
    forall n :: n in images && images[n].source == u ==> n == Stage(tag, u)
  }

  /** Where the actions after an exception take place. */
  predicate Failing(pc: Pc) {
    pc.DropTmp? || pc.ExceptTest? || pc.Restore? || pc.DropStage?
  }

  /** The actions inside the try block that read, write or rename something. */
  predicate CanFail(pc: Pc) {
    || pc.WriteConfig? || pc.Fetch? || pc.MakeTmp? || pc.Unpack? || pc.WriteMeta? || pc.PublishLayer?
    || pc.WriteManifest? || pc.Merge? || pc.MergeTest? || pc.MergeCopy? || pc.WriteRef? || pc.MoveOld? || pc.Publish?
  }

  /** A pull that has not failed: it is building, or its output is live under its tag. */
  ghost predicate OnTrackAt(images: map<ImageName, ImageDir>, u: Uid, p: Pull) {
    && !Failing(p.pc)
    && (if p.pc.DropBackup? then TagIsOutput(images, u, p.order) else Unpublished(images, u, p.order.tag))
  }

  ghost predicate OnTrack(s: State, u: Uid) {
    && u in s.started
    && if u in s.pulls then OnTrackAt(s.images, u, s.pulls[u]) else TagIsOutput(s.images, u, s.started[u])
  }

  /** The next action of the pull raises because of what it finds. */
  ghost predicate Raises(s: State, u: Uid)
    requires u in s.pulls
  {
    var p := s.pulls[u];
    var live := Live(p.order.tag) in s.images;
    || (p.pc.MergeTest? && p.merged < |p.order.layers| && !TreeExists(s.layers, p.order.layers[p.merged]))
    || (p.pc.MoveOld? && !live)
    || (p.pc.Publish? && live)
    || (p.pc.PublishLayer? && p.next < |p.order.layers|
        && (Published(p.order.layers[p.next]) in s.layers || Unpacking(p.order.layers[p.next], u) !in s.layers))
  }

  /** The event makes a running pull fail before its output is live. */
  ghost predicate Derails(s: State, e: Event, u: Uid) {
    && u in s.pulls && !s.pulls[u].pc.DropBackup?
    && match e
       case Crash => true
       case Fail(v) => v == u && (s.pulls[u].pc.MakeStage? || CanFail(s.pulls[u].pc))
       case Advance(v) => v == u && Raises(s, u)
       case _ => false
  }

  /** Another pull of the tag moves its live directory aside. */
  ghost predicate Replaces(s: State, e: Event, u: Uid) {
    && u in s.started && (u in s.pulls ==> s.pulls[u].pc.DropBackup?)
    && e.Advance? && e.uid in s.pulls && e.uid != u
    && s.pulls[e.uid].order.tag == s.started[u].tag && s.pulls[e.uid].pc.MoveOld?
  }

  lemma LayerStepOnTrack(s: State, u: Uid)
    requires Inv(s) && OnTrack(s, u) && u in s.pulls && IsLayerPc(s.pulls[u].pc)
    ensures OnTrack(LayerStep(s, u), u) <==> !Raises(s, u)
  {
    StartedAs(s, u);
    hide Inv, LayerExists, StageDir, PerformLayer, TreeExists, TagIsOutput, Unpublished;
  }

  lemma BuildOnTrack(images: map<ImageName, ImageDir>, layers: map<LayerName, LayerDir>, u: Uid, p: Pull)
    requires OnTrackAt(images, u, p) && Rank(p.pc) <= 5 && !IsLayerPc(p.pc)
    ensures var a := BuildAction(layers, u, p);
            && !a.after.Over?
            && (OnTrackAt(Perform(images, a.op), u, Moved(p, a.after)) <==>
                !(p.pc.MergeTest? && p.merged < |p.order.layers| && !TreeExists(layers, p.order.layers[p.merged])))
  {
    hide TreeFilled, TreeExists, LayerExists, OutputOf;
  }

  lemma StageIsOutput(images: map<ImageName, ImageDir>, started: map<Uid, Order>, u: Uid, p: Pull)
    requires PullOk(images, started, u, p) && p.pc.Publish?
    ensures Stage(p.order.tag, u) in images && OutputOf(images[Stage(p.order.tag, u)], u, p.order)
  {
    assert p.order.layers[..p.merged] == p.order.layers;
  }

  lemma PublishOnTrack(images: map<ImageName, ImageDir>, started: map<Uid, Order>, u: Uid, p: Pull)
    requires PullOk(images, started, u, p) && OnTrackAt(images, u, p) && Rank(p.pc) >= 6
    ensures var a := PublishAction(images, u, p);
            var live := Live(p.order.tag) in images;
            if a.after.Over? then p.pc.DropBackup? && TagIsOutput(Perform(images, a.op), u, p.order)
            else OnTrackAt(Perform(images, a.op), u, Moved(p, a.after)) <==>
                 !((p.pc.MoveOld? && !live) || (p.pc.Publish? && live))
  {
    if p.pc.Publish? {
      StageIsOutput(images, started, u, p);
    }
    hide PullOk, OutputOf;
  }

  lemma AdvanceOnTrack(s: State, u: Uid)
    requires Inv(s) && OnTrack(s, u) && u in s.pulls
    ensures OnTrack(Next(s, Advance(u)), u) <==> !Derails(s, Advance(u), u)
  {
    StartedAs(s, u);
    hide Inv, PullOk, PublishAction, BuildAction, Perform, OnTrackAt, TagIsOutput, TreeExists;
    var p := s.pulls[u];
    if IsLayerPc(p.pc) {
      LayerStepOnTrack(s, u);
    } else if Rank(p.pc) <= 5 {
      BuildOnTrack(s.images, s.layers, u, p);
    } else {
      PublishOnTrack(s.images, s.started, u, p);
    }
  }

  lemma MishapOnTrackAt(images: map<ImageName, ImageDir>, layers: map<LayerName, LayerDir>, u: Uid, p: Pull, e: Event)
    requires OnTrackAt(images, u, p) && IsMishap(e)
    ensures var a := MishapAction(layers, u, p, e);
            if a.after.Over? then
              if p.pc.DropBackup? then TagIsOutput(Perform(images, a.op), u, p.order)
              else p.pc.MakeStage? && e.Fail? && Unpublished(Perform(images, a.op), u, p.order.tag)
            else OnTrackAt(Perform(images, a.op), u, Moved(p, a.after)) <==> !(e.Fail? && CanFail(p.pc))
  {
    hide TreeFilled, OutputOf;
  }

  lemma NotBoth(images: map<ImageName, ImageDir>, u: Uid, order: Order)
    requires Unpublished(images, u, order.tag)
    ensures !TagIsOutput(images, u, order)
  {
  }

  lemma MishapOnTrack(s: State, e: Event)
    requires Inv(s) && IsMishap(e) && e.uid in s.pulls && OnTrack(s, e.uid)
    ensures OnTrack(Next(s, e), e.uid) <==> !Derails(s, e, e.uid)
  {
    var u := e.uid;
    StartedAs(s, u);
    MishapOnTrackAt(s.images, s.layers, u, s.pulls[u], e);
    var images := Perform(s.images, MishapAction(s.layers, u, s.pulls[u], e).op);
    if Unpublished(images, u, s.pulls[u].order.tag) {
      NotBoth(images, u, s.pulls[u].order);
    }
    BackupNeverFails();
    GiveUpIsLate();
    hide Inv, PullOk, MishapAction, Perform, OnTrackAt, TagIsOutput, TornLayers, CanFail, Unpublished;
  }

  lemma BackupNeverFails()
    ensures !CanFail(DropBackup)
  {
  }

  lemma GiveUpIsLate()
    ensures !CanFail(MakeStage)
  {
  }

  // ---------- what other pulls do to it ----------

  lemma OthersKeepUnpublished(images: map<ImageName, ImageDir>, op: ImageOp, u: Uid, tag: Tag, v: Uid, tag': Tag)
    requires Unpublished(images, u, tag) && u != v && OwnOp(op, tag', v)
    ensures Unpublished(Perform(images, op), u, tag)
  {
  }

  /** Whatever a pull does next, a live directory stays as it is unless the pull moves it aside. */
  lemma LiveStays(images: map<ImageName, ImageDir>, layers: map<LayerName, LayerDir>, v: Uid, p: Pull, tag: Tag)
    requires Live(tag) in images && !IsLayerPc(p.pc)
    ensures var op := if Rank(p.pc) <= 5 then BuildAction(layers, v, p).op else PublishAction(images, v, p).op;
            if p.pc.MoveOld? && p.order.tag == tag then Live(tag) !in Perform(images, op)
            else Live(tag) in Perform(images, op) && Perform(images, op)[Live(tag)] == images[Live(tag)]
  {
    hide TreeExists, LayerExists, TreeFilled;
  }

  lemma MishapLiveStays(images: map<ImageName, ImageDir>, layers: map<LayerName, LayerDir>, v: Uid, p: Pull, e: Event, tag: Tag)
    requires Live(tag) in images && IsMishap(e)
    ensures var op := MishapAction(layers, v, p, e).op;
            Live(tag) in Perform(images, op) && Perform(images, op)[Live(tag)] == images[Live(tag)]
  {
    hide TreeFilled;
  }

  lemma OtherAdvanceOnTrack(s: State, u: Uid, v: Uid)
    requires Inv(s) && OnTrack(s, u) && u != v && v in s.pulls
    ensures OnTrack(Next(s, Advance(v)), u) <==> !Replaces(s, Advance(v), u)
  {
    if u in s.pulls {
      StartedAs(s, u);
    }
    hide Inv, PullOk, BuildAction, PublishAction, Perform, OutputOf, LayerActionOf, PerformLayer, Unpublished, OwnOp;
    var p := s.pulls[v];
    var tag := s.started[u].tag;
    if !IsLayerPc(p.pc) {
      OwnNamesOnly(s, v);
      if u in s.pulls && !s.pulls[u].pc.DropBackup? {
        OthersKeepUnpublished(s.images, ImageAction(s, v).op, u, tag, v, p.order.tag);
      } else {
        LiveStays(s.images, s.layers, v, p, tag);
      }
    }
  }

  lemma OtherMishapOnTrack(s: State, e: Event, u: Uid)
    requires Inv(s) && OnTrack(s, u) && IsMishap(e) && e.uid in s.pulls && u != e.uid
    ensures OnTrack(Next(s, e), u)
  {
    var v := e.uid;
    StartedAs(s, v);
    if u in s.pulls {
      StartedAs(s, u);
    }
    MishapOwn(s.images, s.layers, s.started, v, s.pulls[v], e);
    hide Inv, PullOk, MishapAction, Perform, OutputOf, TornLayers, Unpublished, OwnOp;
    var tag := s.started[u].tag;
    if u in s.pulls && !s.pulls[u].pc.DropBackup? {
      OthersKeepUnpublished(s.images, MishapAction(s.layers, v, s.pulls[v], e).op, u, tag, v, s.pulls[v].order.tag);
    } else {
      MishapLiveStays(s.images, s.layers, v, s.pulls[v], e, tag);
    }
  }

  lemma RestOnTrack(s: State, e: Event, u: Uid)
    requires Inv(s) && OnTrack(s, u) && !e.Advance? && !IsMishap(e)
    ensures OnTrack(Next(s, e), u) <==> !Derails(s, e, u)
  {
    if u in s.pulls {
      StartedAs(s, u);
      if Unpublished(s.images, u, s.started[u].tag) {
        NotBoth(s.images, u, s.started[u]);
      }
    }
    hide Inv, PullOk, LayerResidue, PruneLayerStep, TornLayer, OutputOf, Unpublished;
  }

  /**
   * One event of any kind takes a pull that has not failed off its way, or its output from under its tag,
   * exactly when it makes the running pull fail or when another pull of the tag moves the output aside.
   */
  lemma OnTrackExact(s: State, e: Event, u: Uid)
    requires Inv(s) && OnTrack(s, u)
    ensures OnTrack(Next(s, e), u) <==> !Derails(s, e, u) && !Replaces(s, e, u)
  {
    hide Inv, OnTrack, Raises;
    if e.Advance? && e.uid in s.pulls {
      if e.uid == u {
        AdvanceOnTrack(s, u);
      } else {
        OtherAdvanceOnTrack(s, u, e.uid);
      }
    } else if IsMishap(e) && e.uid in s.pulls {
      if e.uid == u {
        MishapOnTrack(s, e);
      } else {
        OtherMishapOnTrack(s, e, u);
      }
    } else if !e.Advance? && !IsMishap(e) {
      RestOnTrack(s, e, u);
    }
  }

  lemma StartOnTrack(s: State, u: Uid, order: Order)
    requires Inv(s) && u !in s.started
    ensures OnTrack(Next(s, Start(u, order)), u)
  {
    hide PullOk;
  }

  // ---------- whole runs ----------

  /** Some event of the run leaves a stage or a backup of the pull behind. */
  ghost predicate Stranded(s: State, events: seq<Event>, u: Uid)
    decreases |events|
  {
    events != [] && (Strands(s, events[0], u) || Stranded(Next(s, events[0]), events[1..], u))
  }

  ghost predicate StrandedLayer(s: State, events: seq<Event>, u: Uid)
    decreases |events|
  {
    events != [] && (StrandsLayer(s, events[0], u) || StrandedLayer(Next(s, events[0]), events[1..], u))
  }

  /** Some event of the run makes the pull fail or moves its output aside. */
  ghost predicate Lost(s: State, events: seq<Event>, u: Uid)
    decreases |events|
  {
    && events != []
    && (Derails(s, events[0], u) || Replaces(s, events[0], u) || Lost(Next(s, events[0]), events[1..], u))
  }

  /** A pull with a directory of its own that no action of it will remove any more. */
  ghost predicate Stuck(s: State, u: Uid) {
    if u in s.pulls then s.pulls[u].pc.DropBackup? && Stage(s.pulls[u].order.tag, u) in s.images
    else Owns(s.images, u)
  }

  lemma StrandedIsStuck(s: State, e: Event, u: Uid)
    requires Strands(s, e, u)
    ensures Stuck(Next(s, e), u)
  {
    var stage, backup := Stage(s.pulls[u].order.tag, u), Backup(s.pulls[u].order.tag, u);
    assert OwnedBy(stage, u) && OwnedBy(backup, u);
  }

  lemma OthersKeepStuck(s: State, t: State, u: Uid, v: Uid, tag: Tag)
    requires u != v && TouchesOnly(s.images, t.images, tag, v) && Stuck(s, u)
    requires u in t.pulls <==> u in s.pulls
    requires u in s.pulls ==> t.pulls[u] == s.pulls[u]
    ensures Stuck(t, u)
  {
    forall n | OwnedBy(n, u)
      ensures n in s.images <==> n in t.images
    {
    }
  }

  lemma OtherStuck(s: State, e: Event, u: Uid)
    requires Inv(s) && (e.Advance? || IsMishap(e)) && e.uid in s.pulls && e.uid != u && Stuck(s, u)
    ensures Stuck(Next(s, e), u)
  {
    hide Inv, Stuck, TouchesOnly, OwnOp, Perform, PullOk, MishapAction, TornLayers, ImageAction, LayerActionOf, PerformLayer;
    var v := e.uid;
    var tag := s.pulls[v].order.tag;
    if IsMishap(e) {
      StartedAs(s, v);
      MishapOwn(s.images, s.layers, s.started, v, s.pulls[v], e);
      OpTouches(s.images, MishapAction(s.layers, v, s.pulls[v], e).op, tag, v);
    } else if IsLayerPc(s.pulls[v].pc) {
      SameImages(s.images, tag, v);
    } else {
      ImageStepTouches(s, v);
    }
    OthersKeepStuck(s, Next(s, e), u, v, tag);
  }

  lemma OwnStuck(s: State, e: Event, u: Uid)
    requires u in s.pulls && Stuck(s, u) && (e.Crash? || ((e.Advance? || IsMishap(e)) && e.uid == u))
    ensures Stuck(Next(s, e), u)
  {
    var stage := Stage(s.pulls[u].order.tag, u);
    assert OwnedBy(stage, u);
    assert stage in Next(s, e).images;
  }

  lemma RestStuck(s: State, e: Event, u: Uid)
    requires u in s.started && Stuck(s, u) && (e.Start? || e.TearImage? || e.PruneLayer? || e.TearLayer? || (e.Crash? && u !in s.pulls))
    ensures Stuck(Next(s, e), u)
  {
    hide LayerResidue, PruneLayerStep, TornLayer;
  }

  /** Only the prune removes what a pull has left behind. */
  lemma StuckStays(s: State, e: Event, u: Uid)
    requires Inv(s) && u in s.started && Stuck(s, u) && !e.PruneImage?
    ensures Stuck(Next(s, e), u) && u in Next(s, e).started
  {
    StartedStays(s, e, u);
    hide Inv, Stuck;
    if (e.Advance? || IsMishap(e)) && e.uid in s.pulls {
      if e.uid == u {
        OwnStuck(s, e, u);
      } else {
        OtherStuck(s, e, u);
      }
    } else if e.Crash? && u in s.pulls {
      OwnStuck(s, e, u);
    } else if !e.Advance? && !IsMishap(e) {
      RestStuck(s, e, u);
    }
  }

  lemma StartedStays(s: State, e: Event, u: Uid)
    requires u in s.started
    ensures u in Next(s, e).started && Next(s, e).started[u] == s.started[u]
  {
    hide PruneImageStep, PruneLayerStep, LayerResidue, TornLayer, Perform, MishapAction, TornLayers, ImageAction, LayerActionOf,
         PerformLayer;
  }

  ghost predicate Unpruned(events: seq<Event>) {
    forall i :: 0 <= i < |events| ==> !events[i].PruneImage?
  }

  lemma {:induction false} RunStuck(s: State, events: seq<Event>, u: Uid)
    requires Inv(s) && u in s.started && Stuck(s, u) && Unpruned(events)
    ensures Stuck(Run(s, events), u)
    decreases |events|
  {
    hide Inv, Stuck, Next;
    if events != [] {
      NextKeepsInv(s, events[0]);
      StuckStays(s, events[0], u);
      RunStuck(Next(s, events[0]), events[1..], u);
    }
  }

  /** Over a whole run a pull stays tidy, or it is stuck from the first stranding event on. */
  lemma {:induction false} RunTidy(s: State, events: seq<Event>, u: Uid)
    requires Inv(s) && NamesKnown(s) && Tidy(s, u)
    ensures !Stranded(s, events, u) ==> Tidy(Run(s, events), u)
    ensures Stranded(s, events, u) && Unpruned(events) ==> Stuck(Run(s, events), u)
    decreases |events|
  {
    hide Inv, NamesKnown, Tidy, Next, Strands, Stuck;
    if events != [] {
      var e := events[0];
      NextKeepsInv(s, e);
      NextKeepsNames(s, e);
      TidyExact(s, e, u);
      if !Strands(s, e, u) {
        RunTidy(Next(s, e), events[1..], u);
      } else if Unpruned(events) {
        StrandedIsStuck(s, e, u);
        StrandedIsStarted(s, e, u);
        RunStuck(Next(s, e), events[1..], u);
      }
    }
  }

  lemma StrandedIsStarted(s: State, e: Event, u: Uid)
    requires Inv(s) && Strands(s, e, u)
    ensures u in Next(s, e).started
  {
    StartedAs(s, u);
    hide Inv, Strands;
    StartedStays(s, e, u);
  }

  lemma {:induction false} RunTidyLayers(s: State, events: seq<Event>, u: Uid)
    requires Inv(s) && TidyLayers(s, u) && !StrandedLayer(s, events, u)
    ensures TidyLayers(Run(s, events), u)
    decreases |events|
  {
    hide Inv, TidyLayers, Next, StrandsLayer;
    if events != [] {
      NextKeepsInv(s, events[0]);
      TidyLayersExact(s, events[0], u);
      RunTidyLayers(Next(s, events[0]), events[1..], u);
    }
  }

  lemma {:induction false} RunOnTrack(s: State, events: seq<Event>, u: Uid)
    requires Inv(s) && OnTrack(s, u) && !Lost(s, events, u)
    ensures OnTrack(Run(s, events), u)
    decreases |events|
  {
    hide Inv, OnTrack, Next, Derails, Replaces;
    if events != [] {
      NextKeepsInv(s, events[0]);
      OnTrackExact(s, events[0], u);
      RunOnTrack(Next(s, events[0]), events[1..], u);
    }
  }

  lemma NothingYet(s: State, u: Uid, order: Order)
    requires Inv(s) && NamesKnown(s) && u !in s.started
    ensures Tidy(s, u)
  {
    if u in s.pulls {
      StartedAs(s, u);
    }
    hide Inv;
  }

  /**
   * A pull that is over has left a stage or a backup exactly when, in a run without a prune, one of the
   * stranding events happened to it: otherwise both are gone, whether it succeeded or failed and
   * whatever other pulls did meanwhile.
   */
  lemma PullCleansUp(s: State, events: seq<Event>, u: Uid)
    requires Inv(s) && NamesKnown(s) && u !in s.started && u !in Run(s, events).pulls
    ensures !Stranded(s, events, u) ==> !Owns(Run(s, events).images, u)
    ensures Unpruned(events) ==> (Owns(Run(s, events).images, u) <==> Stranded(s, events, u))
  {
    NothingYet(s, u, Order("", "", []));
    RunTidy(s, events, u);
    hide Inv, NamesKnown, Stranded, Run, Owns;
  }

  /** No unpacking directory is left by a pull that is over, unless it crashed or its removal gave up. */
  lemma PullCleansLayers(s: State, events: seq<Event>, u: Uid)
    requires Inv(s) && TidyLayers(s, u) && u !in Run(s, events).pulls && !StrandedLayer(s, events, u)
    ensures forall x :: Unpacking(x, u) !in Run(s, events).layers
  {
    RunTidyLayers(s, events, u);
    hide Inv, StrandedLayer, Run;
  }

  /**
   * A pull that is over without having failed, and that no other pull of its tag has replaced, has left
   * its whole output under its tag.
   */
  lemma PullPublishes(s: State, u: Uid, order: Order, events: seq<Event>)
    requires Inv(s) && u !in s.started
    requires var t := Next(s, Start(u, order)); !Lost(t, events, u) && u !in Run(t, events).pulls
    ensures TagIsOutput(Run(Next(s, Start(u, order)), events).images, u, order)
  {
    var t := Next(s, Start(u, order));
    StartOnTrack(s, u, order);
    StartKeepsInv(s, u, order);
    RunOnTrack(t, events, u);
    RunKeepsStarted(t, events, u);
    hide Inv, Lost, Run, TagIsOutput;
  }

  lemma {:induction false} RunKeepsStarted(s: State, events: seq<Event>, u: Uid)
    requires u in s.started
    ensures u in Run(s, events).started && Run(s, events).started[u] == s.started[u]
    decreases |events|
  {
    hide Next;
    if events != [] {
      StartedStays(s, events[0], u);
      RunKeepsStarted(Next(s, events[0]), events[1..], u);
    }
  }

  /** The store of a first start meets all of this for every pull. */
  lemma EmptyIsTidy(u: Uid)
    ensures Inv(EMPTY) && NamesKnown(EMPTY) && Tidy(EMPTY, u) && TidyLayers(EMPTY, u)
  {
  }

  // ---------- every pull comes to its end ----------

  /** How many actions a pull has left at most. */
  function Left(p: Pull): nat {
    var merges := 2 * (if p.merged < |p.order.layers| then |p.order.layers| - p.merged else 0);
    var fetches := 10 * (if p.next < |p.order.layers| then |p.order.layers| - p.next else 0);
    match p.pc
    case DropBackup => 1
    case DropStage => 2
    case Restore => 3
    case ExceptTest => 4
    case DropTmp => 5
    case Publish => 5
    case MoveOld => 6
    case LiveTest => 7
    case WriteRef => 8
    case MergeCopy => 8 + merges
    case MergeTest => 9 + merges
    case Merge => 10 + merges
    case WriteManifest => 11 + merges
    case NextLayer => 20 + merges + fetches
    case Fetch => 19 + merges + fetches
    case Recheck => 18 + merges + fetches
    case ClearTest => 17 + merges + fetches
    case Clear => 16 + merges + fetches
    case MakeTmp => 15 + merges + fetches
    case Unpack => 14 + merges + fetches
    case WriteMeta => 13 + merges + fetches
    case PublishLayer => 12 + merges + fetches
    case WriteConfig => 21 + merges + fetches
    case MakeStage => 22 + merges + fetches
  }

  function LeftOf(s: State, u: Uid): nat {
    if u in s.pulls then Left(s.pulls[u]) else 0
  }

  lemma BuildCounts(images: map<ImageName, ImageDir>, layers: map<LayerName, LayerDir>, started: map<Uid, Order>, u: Uid, p: Pull)
    requires PullOk(images, started, u, p) && !IsLayerPc(p.pc) && Rank(p.pc) <= 5
    ensures var a := BuildAction(layers, u, p); !a.after.Over? && Left(Moved(p, a.after)) < Left(p)
  {
    hide TreeExists, LayerExists, TreeFilled, StageDir;
  }

  lemma PublishCounts(images: map<ImageName, ImageDir>, u: Uid, p: Pull)
    requires Rank(p.pc) >= 6
    ensures var a := PublishAction(images, u, p); !a.after.Over? ==> Left(Moved(p, a.after)) < Left(p)
    ensures Left(p) > 0
  {
  }

  lemma LayerCounts(layers: map<LayerName, LayerDir>, u: Uid, p: Pull)
    requires IsLayerPc(p.pc) && p.next < |p.order.layers|
    ensures var a := LayerActionOf(layers, u, p.pc, p.order.layers[p.next]);
            !a.after.Over? && Left(Moved(p, a.after)) < Left(p)
  {
    hide LayerExists;
  }

  lemma AdvanceCounts(s: State, u: Uid)
    requires Inv(s) && u in s.pulls
    ensures LeftOf(Next(s, Advance(u)), u) < LeftOf(s, u)
  {
    StartedAs(s, u);
    var p := s.pulls[u];
    LayerInRange(s.images, s.started, u, p);
    hide Inv, PullOk, Left, BuildAction, PublishAction, LayerActionOf, Perform, PerformLayer;
    if IsLayerPc(p.pc) {
      LayerCounts(s.layers, u, p);
    } else if Rank(p.pc) <= 5 {
      BuildCounts(s.images, s.layers, s.started, u, p);
    } else {
      PublishCounts(s.images, u, p);
    }
  }

  lemma LayerInRange(images: map<ImageName, ImageDir>, started: map<Uid, Order>, u: Uid, p: Pull)
    requires PullOk(images, started, u, p)
    ensures IsLayerPc(p.pc) ==> p.next < |p.order.layers|
  {
    hide StageDir;
  }

  lemma MishapCounts(layers: map<LayerName, LayerDir>, u: Uid, p: Pull, e: Event)
    requires IsMishap(e)
    ensures var a := MishapAction(layers, u, p, e); !a.after.Over? ==> Left(Moved(p, a.after)) <= Left(p)
  {
    hide TreeFilled;
  }

  /** No event makes a pull longer, and each action of its own makes it shorter. */
  lemma NextCounts(s: State, e: Event, u: Uid)
    requires Inv(s) && u in s.started
    ensures LeftOf(Next(s, e), u) + (if e == Advance(u) && u in s.pulls then 1 else 0) <= LeftOf(s, u)
  {
    if e == Advance(u) && u in s.pulls {
      AdvanceCounts(s, u);
    } else if IsMishap(e) && e.uid == u && u in s.pulls {
      MishapCounts(s.layers, u, s.pulls[u], e);
      hide Inv, Left, MishapAction, Perform, TornLayers;
    } else {
      OthersCount(s, e, u);
    }
  }

  lemma OthersCount(s: State, e: Event, u: Uid)
    requires u in s.started && !(u in s.pulls && (e == Advance(u) || (IsMishap(e) && e.uid == u)))
    ensures LeftOf(Next(s, e), u) <= LeftOf(s, u)
  {
    hide Left, MishapAction, Perform, TornLayers, ImageAction, LayerActionOf, PerformLayer, LayerResidue, PruneLayerStep,
         PruneImageStep, TornLayer;
  }

  /** How often it is this pull's turn in a run. */
  function Turns(events: seq<Event>, u: Uid): nat {
    if events == [] then 0 else (if events[0] == Advance(u) then 1 else 0) + Turns(events[1..], u)
  }

  lemma {:induction false} RunCounts(s: State, events: seq<Event>, u: Uid)
    requires Inv(s) && u in s.started
    ensures LeftOf(Run(s, events), u) == 0 || LeftOf(Run(s, events), u) + Turns(events, u) <= LeftOf(s, u)
    decreases |events|
  {
    hide Inv, Next, Left;
    if events != [] {
      NextKeepsInv(s, events[0]);
      NextCounts(s, events[0], u);
      StartedStays(s, events[0], u);
      RunCounts(Next(s, events[0]), events[1..], u);
      if u !in s.pulls {
        OverIsOver(s, events, u);
      }
    }
  }

  /** A pull that is over stays over. */
  lemma {:induction false} OverIsOver(s: State, events: seq<Event>, u: Uid)
    requires Inv(s) && u in s.started && u !in s.pulls
    ensures u !in Run(s, events).pulls
    decreases |events|
  {
    hide Inv, Next;
    if events != [] {
      NextKeepsInv(s, events[0]);
      StartedStays(s, events[0], u);
      NeverAgain(s, events[0], u);
      OverIsOver(Next(s, events[0]), events[1..], u);
    }
  }

  lemma NeverAgain(s: State, e: Event, u: Uid)
    requires u in s.started && u !in s.pulls
    ensures u !in Next(s, e).pulls
  {
    hide MishapAction, Perform, TornLayers, ImageAction, LayerActionOf, PerformLayer, LayerResidue, PruneLayerStep,
         PruneImageStep, TornLayer;
  }

  lemma LeftIsPositive(p: Pull)
    ensures Left(p) > 0
  {
  }

  lemma WholePull(order: Order)
    ensures Left(Pull(order, MakeStage, 0, 0)) == 22 + 12 * |order.layers|
  {
  }

  /**
   * A pull of n layers is over once it has had its turn 22 + 12 n times, whatever fails and whatever
   * other pulls do in between.
   */
  lemma PullEnds(s: State, u: Uid, order: Order, events: seq<Event>)
    requires Inv(s) && u !in s.started && Turns(events, u) >= 22 + 12 * |order.layers|
    ensures u !in Run(Next(s, Start(u, order)), events).pulls
  {
    var t := Next(s, Start(u, order));
    StartKeepsInv(s, u, order);
    RunCounts(t, events, u);
    WholePull(order);
    hide Inv, Run, Left;
    if u in Run(t, events).pulls {
      LeftIsPositive(Run(t, events).pulls[u]);
    }
  }
}
