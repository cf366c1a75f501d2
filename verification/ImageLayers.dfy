/**
 * The shared layer cache. Every image that can be seen, or restored, needs its
 * layers whole; the exact steps that take a layer away from one are named.
 */
module ImageLayers {
  import opened Options
  import opened ImageStore

  /** A live or backed-up image, or a pull on its way to publish, counts on this layer. */
  ghost predicate Uses(s: State, x: Digest) {
    || (exists n :: n in s.images && !n.Stage? && x in s.images[n].layers)
    || (exists u :: u in s.pulls && PullUses(s.pulls[u], x))
  }

  predicate PullUses(p: Pull, x: Digest) {
    Rank(p.pc) <= 8 && p.next <= |p.order.layers| && x in p.order.layers[..p.next]
  }

  /** Whatever the cache shows is fully unpacked. */
  ghost predicate CacheHonest(layers: map<LayerName, LayerDir>) {
    forall x :: LayerExists(layers, x) ==> layers[Published(x)].filled
  }

  ghost predicate LayersSound(s: State) {
    CacheHonest(s.layers) && forall x :: Uses(s, x) ==> LayerExists(s.layers, x)
  }

  /** The unpacking directory of a pull at each step of a layer. */
  ghost predicate TmpOk(layers: map<LayerName, LayerDir>, u: Uid, p: Pull) {
    IsLayerPc(p.pc) && p.next < |p.order.layers| ==>
      var x := p.order.layers[p.next];
      var tmp := Unpacking(x, u);
      && (p.pc.Unpack? ==> tmp in layers && layers[tmp] == LayerDir(true, false, None))
      && (p.pc.WriteMeta? ==> tmp in layers && layers[tmp] == LayerDir(true, true, None))
      && (p.pc.PublishLayer? ==> tmp in layers && layers[tmp] == LayerDir(true, true, Some(x)))
  }

  ghost predicate TmpInv(s: State) {
    forall u :: u in s.pulls ==> TmpOk(s.layers, u, s.pulls[u])
  }

  /** The layer a pull is clearing, when it is clearing one that is complete. */
  ghost predicate ClearsComplete(s: State, u: Uid, x: Digest) {
    && u in s.pulls && s.pulls[u].pc.Clear?
    && s.pulls[u].next < |s.pulls[u].order.layers| && s.pulls[u].order.layers[s.pulls[u].next] == x
    && LayerExists(s.layers, x)
  }

  /**
   * The steps that break the cache: removing the directory of a complete layer that something
   * uses, or tearing the directory of a complete layer so that it still looks complete.
   */
  ghost predicate Breaks(s: State, e: Event) {
    match e
    case Advance(u) => exists x :: ClearsComplete(s, u, x) && Uses(s, x)
    case Tear(u, keepTree, keepMeta) => exists x :: ClearsComplete(s, u, x) && (Uses(s, x) || (keepTree && keepMeta))
    case _ => false
  }

  // ---------- frames ----------

  /** The layer directories a pull may name while it works on x. */
  ghost predicate LayersTouched(layers: map<LayerName, LayerDir>, layers': map<LayerName, LayerDir>, x: Digest, u: Uid) {
    forall n :: n != Published(x) && n != Unpacking(x, u) ==>
      (n in layers <==> n in layers') && (n in layers ==> layers[n] == layers'[n])
  }

  predicate OwnLayerOp(op: LayerOp, x: Digest, u: Uid) {
    match op
    case Keep => true
    case Put(n, _) => n == Unpacking(x, u)
    case MoveLayer(from, to) => from == Unpacking(x, u) && to == Published(x)
    case RemoveLayer(n) => n == Published(x) || n == Unpacking(x, u)
  }

  lemma OwnLayersOnly(layers: map<LayerName, LayerDir>, u: Uid, pc: Pc, x: Digest)
    requires IsLayerPc(pc)
    ensures OwnLayerOp(LayerActionOf(layers, u, pc, x).op, x, u)
  {
    hide LayerExists;
  }

  lemma LayerOpTouches(layers: map<LayerName, LayerDir>, op: LayerOp, x: Digest, u: Uid)
    requires OwnLayerOp(op, x, u)
    ensures LayersTouched(layers, PerformLayer(layers, op), x, u)
  {
  }

  lemma OtherTmpUndisturbed(layers: map<LayerName, LayerDir>, layers': map<LayerName, LayerDir>, x: Digest, u: Uid, v: Uid, p: Pull)
    requires LayersTouched(layers, layers', x, u) && u != v && TmpOk(layers, v, p)
    ensures TmpOk(layers', v, p)
  {
  }

  lemma OwnTmp(layers: map<LayerName, LayerDir>, u: Uid, p: Pull)
    requires IsLayerPc(p.pc) && p.next < |p.order.layers| && TmpOk(layers, u, p)
    ensures var a := LayerActionOf(layers, u, p.pc, p.order.layers[p.next]);
            TmpOk(PerformLayer(layers, a.op), u, Moved(p, a.after))
  {
    hide LayerExists;
  }

  /** A layer is complete in both caches, with the same directory, or in neither. */
  ghost predicate SameLayer(layers: map<LayerName, LayerDir>, layers': map<LayerName, LayerDir>, y: Digest) {
    && (LayerExists(layers', y) <==> LayerExists(layers, y))
    && (LayerExists(layers, y) ==> layers'[Published(y)] == layers[Published(y)])
  }

  lemma OtherLayersSame(layers: map<LayerName, LayerDir>, layers': map<LayerName, LayerDir>, x: Digest, u: Uid, y: Digest)
    requires LayersTouched(layers, layers', x, u) && y != x
    ensures SameLayer(layers, layers', y)
  {
  }

  // ---------- uses ----------

  /** A step that moves images around without writing new layer lists uses nothing new. */
  ghost predicate NoNewUses(s: State, s': State) {
    forall x :: Uses(s', x) ==> Uses(s, x)
  }

  lemma SoundWithoutNewUses(s: State, s': State)
    requires LayersSound(s) && NoNewUses(s, s') && s'.layers == s.layers
    ensures LayersSound(s')
  {
    hide Uses, LayerExists;
  }

  /** Renames and removals never give a visible image layers that were not counted on before. */
  lemma NoNewImageUses(s: State, s': State)
    requires forall n :: n in s'.images && !n.Stage? ==>
               || (exists m :: m in s.images && !m.Stage? && s.images[m].layers == s'.images[n].layers)
               || (exists u :: u in s.pulls && Rank(s.pulls[u].pc) <= 8 && s.pulls[u].next == |s.pulls[u].order.layers|
                       && s.pulls[u].order.layers == s'.images[n].layers)
    requires forall u, x :: u in s'.pulls && PullUses(s'.pulls[u], x) ==> Uses(s, x)
    ensures NoNewUses(s, s')
  {
    forall x | Uses(s', x)
      ensures Uses(s, x)
    {
      if n :| n in s'.images && !n.Stage? && x in s'.images[n].layers {
        if m :| m in s.images && !m.Stage? && s.images[m].layers == s'.images[n].layers {
        } else {
          var u :| u in s.pulls && Rank(s.pulls[u].pc) <= 8 && s.pulls[u].next == |s.pulls[u].order.layers|
                   && s.pulls[u].order.layers == s'.images[n].layers;
          assert s.pulls[u].order.layers[..s.pulls[u].next] == s.pulls[u].order.layers;
          assert PullUses(s.pulls[u], x);
        }
      }
    }
  }

  // ---------- layer steps ----------

  /** Finishing a layer that exists adds only that layer to what the pull counts on. */
  lemma LayerDoneUses(p: Pull, after: Then, y: Digest)
    requires IsLayerPc(p.pc) || p.pc.NextLayer?
    requires p.next < |p.order.layers| && PullUses(Moved(p, after), y)
    ensures PullUses(p, y) || (after.LayerDone? && y == p.order.layers[p.next])
  {
    if after.LayerDone? {
      assert p.order.layers[..p.next + 1] == p.order.layers[..p.next] + [p.order.layers[p.next]];
    }
  }

  lemma LayerStepUses(s: State, u: Uid)
    requires u in s.pulls && IsLayerPc(s.pulls[u].pc) && s.pulls[u].next < |s.pulls[u].order.layers|
    ensures var p := s.pulls[u];
            var x := p.order.layers[p.next];
            var a := LayerActionOf(s.layers, u, p.pc, x);
            forall y :: Uses(LayerStep(s, u), y) ==> Uses(s, y) || (a.after.LayerDone? && y == x)
  {
    hide LayerActionOf, PerformLayer;
    var p := s.pulls[u];
    var x := p.order.layers[p.next];
    var a := LayerActionOf(s.layers, u, p.pc, x);
    var s' := LayerStep(s, u);
    forall y | Uses(s', y)
      ensures Uses(s, y) || (a.after.LayerDone? && y == x)
    {
      if n :| n in s'.images && !n.Stage? && y in s'.images[n].layers {
        assert n in s.images && y in s.images[n].layers;
      } else {
        var v :| v in s'.pulls && PullUses(s'.pulls[v], y);
        if v == u {
          LayerDoneUses(p, a.after, y);
        } else {
          assert v in s.pulls && PullUses(s.pulls[v], y);
        }
      }
    }
  }

  /** What a layer step does to the layer it works on. */
  lemma LayerStepOnX(layers: map<LayerName, LayerDir>, u: Uid, p: Pull)
    requires IsLayerPc(p.pc) && p.next < |p.order.layers| && TmpOk(layers, u, p)
    ensures var x := p.order.layers[p.next];
            var a := LayerActionOf(layers, u, p.pc, x);
            var layers' := PerformLayer(layers, a.op);
            && (p.pc.Clear? ==> !LayerExists(layers', x))
            && (!p.pc.Clear? && LayerExists(layers, x) ==> LayerExists(layers', x) && layers'[Published(x)] == layers[Published(x)])
            && (!LayerExists(layers, x) && LayerExists(layers', x) ==> layers'[Published(x)].filled)
            && (a.after.LayerDone? ==> LayerExists(layers', x))
  {
  }

  /** The verdict after a change to one layer, from that layer alone. */
  lemma SoundByOneLayer(s: State, s': State, x: Digest)
    requires LayersSound(s)
    requires forall y :: y != x ==> SameLayer(s.layers, s'.layers, y)
    requires LayerExists(s'.layers, x) ==> s'.layers[Published(x)].filled
    requires forall y :: Uses(s', y) && y != x ==> Uses(s, y)
    requires Uses(s', x) ==> LayerExists(s'.layers, x)
    ensures LayersSound(s')
  {
    hide Uses;
    forall y | LayerExists(s'.layers, y)
      ensures s'.layers[Published(y)].filled
    {
      if y != x {
        assert SameLayer(s.layers, s'.layers, y);
      }
    }
    forall y | Uses(s', y)
      ensures LayerExists(s'.layers, y)
    {
      if y != x {
        assert SameLayer(s.layers, s'.layers, y);
      }
    }
  }

  lemma LayerStepExact(s: State, u: Uid)
    requires TmpInv(s) && LayersSound(s) && u in s.pulls && IsLayerPc(s.pulls[u].pc)
    ensures LayersSound(LayerStep(s, u)) <==> !Breaks(s, Advance(u))
  {
    hide Uses, LayerExists, LayerActionOf, PerformLayer, TmpOk, SameLayer;
    var p := s.pulls[u];
    if p.next < |p.order.layers| {
      var x := p.order.layers[p.next];
      var a := LayerActionOf(s.layers, u, p.pc, x);
      var s' := LayerStep(s, u);
      LayerStepUses(s, u);
      LayerStepOnX(s.layers, u, p);
      OwnLayersOnly(s.layers, u, p.pc, x);
      LayerOpTouches(s.layers, a.op, x, u);
      forall y | y != x
        ensures SameLayer(s.layers, s'.layers, y)
      {
        OtherLayersSame(s.layers, s'.layers, x, u, y);
      }
      if !(p.pc.Clear? && Uses(s, x)) {
        SoundByOneLayer(s, s', x);
      }
      if p.pc.Clear? && Uses(s, x) {
        ClearKeepsUses(s, u, x);
      }
    }
  }

  /** Clearing a layer changes nobody's need for it. */
  lemma ClearKeepsUses(s: State, u: Uid, x: Digest)
    requires u in s.pulls && s.pulls[u].pc.Clear? && s.pulls[u].next < |s.pulls[u].order.layers|
    requires Uses(s, x)
    ensures Uses(LayerStep(s, u), x)
  {
    hide PerformLayer;
    var s' := LayerStep(s, u);
    if n :| n in s.images && !n.Stage? && x in s.images[n].layers {
      assert n in s'.images;
    } else {
      var v :| v in s.pulls && PullUses(s.pulls[v], x);
      assert v in s'.pulls && PullUses(s'.pulls[v], x);
    }
  }

  // ---------- image steps ----------

  lemma BuildStepUses(s: State, u: Uid)
    requires LayersSound(s) && u in s.pulls && !IsLayerPc(s.pulls[u].pc) && Rank(s.pulls[u].pc) <= 5
    ensures LayersSound(ImageStep(s, u))
  {
    hide LayerExists, TreeExists, CacheHonest;
    var p, s' := s.pulls[u], ImageStep(s, u);
    var a := BuildAction(s.layers, u, p);
    forall y | Uses(s', y)
      ensures LayerExists(s'.layers, y)
    {
      if n :| n in s'.images && !n.Stage? && y in s'.images[n].layers {
        assert n in s.images && s.images[n] == s'.images[n];
      } else {
        var v :| v in s'.pulls && PullUses(s'.pulls[v], y);
        if v != u {
          assert v in s.pulls && PullUses(s.pulls[v], y);
        } else if p.pc.NextLayer? && p.next < |p.order.layers| {
          LayerDoneUses(p, a.after, y);
          assert PullUses(p, y) ==> Uses(s, y);
        } else {
          assert PullUses(p, y);
        }
      }
    }
  }

  lemma PublishStepUses(s: State, u: Uid)
    requires Inv(s) && LayersSound(s) && u in s.pulls && Rank(s.pulls[u].pc) >= 6
    ensures LayersSound(ImageStep(s, u))
  {
    hide LayersSound, Uses, BuildAction;
    var p, s' := s.pulls[u], ImageStep(s, u);
    var a := PublishAction(s.images, u, p);
    assert PullOk(s.images, s.started, u, p);
    PublishMoves(s.images, u, p);
    forall n | n in s'.images && !n.Stage?
      ensures || (exists m :: m in s.images && !m.Stage? && s.images[m].layers == s'.images[n].layers)
              || (exists v :: v in s.pulls && Rank(s.pulls[v].pc) <= 8 && s.pulls[v].next == |s.pulls[v].order.layers|
                      && s.pulls[v].order.layers == s'.images[n].layers)
    {
      MovedLayers(s.images, a.op, n);
    }
    forall v, y | v in s'.pulls && PullUses(s'.pulls[v], y)
      ensures Uses(s, y)
    {
      PublishKeepsPullUses(s, u, v, y);
    }
    NoNewImageUses(s, s');
    SoundWithoutNewUses(s, s');
  }

  lemma PublishKeepsPullUses(s: State, u: Uid, v: Uid, y: Digest)
    requires u in s.pulls && Rank(s.pulls[u].pc) >= 6
    requires v in ImageStep(s, u).pulls && PullUses(ImageStep(s, u).pulls[v], y)
    ensures Uses(s, y)
  {
    hide Perform;
    assert v in s.pulls && PullUses(s.pulls[v], y);
  }

  /** Publishing only renames: the tag's own stage, backup or live directory, or removes one. */
  lemma PublishMoves(images: map<ImageName, ImageDir>, u: Uid, p: Pull)
    requires Rank(p.pc) >= 6
    ensures var op := PublishAction(images, u, p).op;
            op.Nothing? || op.Remove? || (op.Move? && (op.from.Stage? ==> op.from == Stage(p.order.tag, u) && p.pc.Publish?))
  {
  }

  lemma MovedLayers(images: map<ImageName, ImageDir>, op: ImageOp, n: ImageName)
    requires (op.Nothing? || op.Remove? || op.Move?) && n in Perform(images, op)
    ensures (n in images && Perform(images, op)[n] == images[n])
         || (op.Move? && n == op.to && op.from in images && Perform(images, op)[n] == images[op.from])
  {
  }

  lemma AdvanceLayersExact(s: State, u: Uid)
    requires Inv(s) && TmpInv(s) && LayersSound(s)
    ensures LayersSound(Next(s, Advance(u))) <==> !Breaks(s, Advance(u))
  {
    hide Inv, TmpInv, LayersSound, Uses;
    if u in s.pulls {
      if IsLayerPc(s.pulls[u].pc) {
        LayerStepExact(s, u);
      } else if Rank(s.pulls[u].pc) <= 5 {
        BuildStepUses(s, u);
      } else {
        PublishStepUses(s, u);
      }
    }
  }

  // ---------- mishaps, starts, crashes and the prune ----------

  lemma MishapNoNewUses(s: State, e: Event)
    requires IsMishap(e) && e.uid in s.pulls
    ensures NoNewUses(s, Next(s, e))
  {
    hide TornLayers;
    var u := e.uid;
    var p, s' := s.pulls[u], Next(s, e);
    var op := MishapAction(s.layers, u, p, e).op;
    forall n | n in s'.images && !n.Stage?
      ensures exists m :: m in s.images && !m.Stage? && s.images[m].layers == s'.images[n].layers
    {
      assert n in s.images && s.images[n].layers == s'.images[n].layers;
    }
    forall v, y | v in s'.pulls && PullUses(s'.pulls[v], y)
      ensures Uses(s, y)
    {
      assert v in s.pulls && PullUses(s.pulls[v], y);
    }
    NoNewImageUses(s, s');
  }

  /** Tearing the layer being cleared. */
  lemma TearLayersExact(s: State, e: Event)
    requires LayersSound(s) && e.Tear? && e.uid in s.pulls
    ensures LayersSound(Next(s, e)) <==> !Breaks(s, e)
  {
    hide Uses, Perform;
    var u := e.uid;
    var p, s' := s.pulls[u], Next(s, e);
    MishapNoNewUses(s, e);
    var n := RemovedLayer(u, p);
    if n.Some? && n.value in s.layers && n.value.Published? {
      var x := n.value.digest;
      assert s'.layers == s.layers[n.value := TornLayer(s.layers[n.value], e.keepTree, e.keepMeta)];
      assert forall y :: y != x ==> (LayerExists(s'.layers, y) <==> LayerExists(s.layers, y));
      if Uses(s, x) {
        TearKeepsUses(s, e, x);
      }
    } else {
      assert forall y :: LayerExists(s'.layers, y) <==> LayerExists(s.layers, y);
      assert forall y :: LayerExists(s.layers, y) ==> s'.layers[Published(y)] == s.layers[Published(y)];
    }
  }

  lemma TearKeepsUses(s: State, e: Event, x: Digest)
    requires e.Tear? && e.uid in s.pulls && s.pulls[e.uid].pc.Clear? && Uses(s, x)
    ensures Uses(Next(s, e), x)
  {
    hide TornLayers;
    var s' := Next(s, e);
    if n :| n in s.images && !n.Stage? && x in s.images[n].layers {
      assert n in s'.images;
    } else {
      var v :| v in s.pulls && PullUses(s.pulls[v], x);
      assert v in s'.pulls && PullUses(s'.pulls[v], x);
    }
  }

  lemma MishapLayersExact(s: State, e: Event)
    requires LayersSound(s) && IsMishap(e)
    ensures LayersSound(Next(s, e)) <==> !Breaks(s, e)
  {
    hide LayersSound, Uses;
    if e.uid in s.pulls {
      if e.Tear? {
        TearLayersExact(s, e);
      } else {
        MishapNoNewUses(s, e);
        SoundWithoutNewUses(s, Next(s, e));
      }
    }
  }

  lemma StartNoNewUses(s: State, u: Uid, order: Order)
    requires Inv(s)
    ensures NoNewUses(s, Next(s, Start(u, order)))
  {
    hide SourcesKnown;
    var s' := Next(s, Start(u, order));
    forall y | Uses(s', y)
      ensures Uses(s, y)
    {
      if n :| n in s'.images && !n.Stage? && y in s'.images[n].layers {
      } else {
        var v :| v in s'.pulls && PullUses(s'.pulls[v], y);
        assert v in s.pulls && PullUses(s.pulls[v], y);
      }
    }
  }

  lemma PruneImagesNoNewUses(s: State, e: Event)
    requires e.Crash? || e.PruneImage? || e.TearImage?
    ensures NoNewUses(s, Next(s, e)) && Next(s, e).layers == s.layers
  {
    var s' := Next(s, e);
    forall y | Uses(s', y)
      ensures Uses(s, y)
    {
      if n :| n in s'.images && !n.Stage? && y in s'.images[n].layers {
        if n in s.images {
          assert s.images[n].layers == s'.images[n].layers;
        } else {
          assert s.images[e.image].layers == s'.images[n].layers;
        }
      } else {
        var v :| v in s'.pulls && PullUses(s'.pulls[v], y);
        assert v in s.pulls && PullUses(s.pulls[v], y);
      }
    }
  }

  /** The prune removes and tears only what is not a complete layer. */
  lemma PruneLayersSafe(s: State, e: Event)
    requires LayersSound(s) && (e.PruneLayer? || e.TearLayer?)
    ensures LayersSound(Next(s, e))
  {
    var s' := Next(s, e);
    assert forall y :: LayerExists(s'.layers, y) <==> LayerExists(s.layers, y);
    assert forall y :: LayerExists(s.layers, y) ==> s'.layers[Published(y)] == s.layers[Published(y)];
    assert forall y :: Uses(s', y) <==> Uses(s, y) by {
      hide Uses;
      SameUses(s, s');
    }
  }

  lemma SameUses(s: State, s': State)
    requires s'.images == s.images && s'.pulls == s.pulls
    ensures forall y :: Uses(s', y) <==> Uses(s, y)
  {
  }

  /** One event keeps the layers sound exactly when it is not one of the named steps. */
  lemma NextLayersExact(s: State, e: Event)
    requires Inv(s) && TmpInv(s) && LayersSound(s)
    ensures LayersSound(Next(s, e)) <==> !Breaks(s, e)
  {
    hide Inv, TmpInv, LayersSound, NoNewUses, Next;
    match e
    case Start(u, order) =>
      StartNoNewUses(s, u, order);
      StartKeepsLayers(s, u, order);
      SoundWithoutNewUses(s, Next(s, e));
    case Advance(u) => AdvanceLayersExact(s, u);
    case Fail(_) => MishapLayersExact(s, e);
    case Tear(_, _, _) => MishapLayersExact(s, e);
    case GiveUp(_) => MishapLayersExact(s, e);
    case Read(_) => MishapLayersExact(s, e);
    case Skip(_) => MishapLayersExact(s, e);
    case Crash => PruneImagesNoNewUses(s, e); SoundWithoutNewUses(s, Next(s, e));
    case PruneImage(_) => PruneImagesNoNewUses(s, e); SoundWithoutNewUses(s, Next(s, e));
    case TearImage(_) => PruneImagesNoNewUses(s, e); SoundWithoutNewUses(s, Next(s, e));
    case PruneLayer(_) => PruneLayersSafe(s, e);
    case TearLayer(_, _, _) => PruneLayersSafe(s, e);
  }

  lemma StartKeepsLayers(s: State, u: Uid, order: Order)
    ensures Next(s, Start(u, order)).layers == s.layers
  {
  }

  // ---------- the unpacking directories ----------

  lemma NextKeepsTmp(s: State, e: Event)
    requires Inv(s) && TmpInv(s)
    ensures TmpInv(Next(s, e))
  {
    hide Inv, TmpOk, LayerActionOf, PerformLayer, ImageAction, Perform;
    var s' := Next(s, e);
    match e
    case Advance(u) =>
      if u in s.pulls && IsLayerPc(s.pulls[u].pc) && s.pulls[u].next < |s.pulls[u].order.layers| {
        var p := s.pulls[u];
        var x := p.order.layers[p.next];
        var a := LayerActionOf(s.layers, u, p.pc, x);
        OwnTmp(s.layers, u, p);
        OwnLayersOnly(s.layers, u, p.pc, x);
        LayerOpTouches(s.layers, a.op, x, u);
        forall v | v in s'.pulls
          ensures TmpOk(s'.layers, v, s'.pulls[v])
        {
          if v != u {
            OtherTmpUndisturbed(s.layers, s'.layers, x, u, v, s.pulls[v]);
          }
        }
      } else if u in s.pulls && !IsLayerPc(s.pulls[u].pc) {
        ImageStepTmp(s, u);
      }
    case Start(u, order) => FreshTmp(s.layers, u, Pull(order, MakeStage, 0, 0));
    case Fail(u) => if u in s.pulls { MishapTmp(s, e); }
    case Tear(u, _, _) => if u in s.pulls { MishapTmp(s, e); }
    case GiveUp(u) => if u in s.pulls { MishapTmp(s, e); }
    case Read(u) => if u in s.pulls { MishapTmp(s, e); }
    case Skip(u) => if u in s.pulls { MishapTmp(s, e); }
    case _ =>
  }

  lemma FreshTmp(layers: map<LayerName, LayerDir>, u: Uid, p: Pull)
    requires !p.pc.Unpack? && !p.pc.WriteMeta? && !p.pc.PublishLayer?
    ensures TmpOk(layers, u, p)
  {
  }

  lemma ImageStepTmp(s: State, u: Uid)
    requires TmpInv(s) && u in s.pulls && !IsLayerPc(s.pulls[u].pc)
    ensures TmpInv(ImageStep(s, u))
  {
    hide Perform, LayerExists, TreeExists;
    var p := s.pulls[u];
    var a := ImageAction(s, u);
    FreshTmp(s.layers, u, Moved(p, a.after));
    hide TmpOk;
  }

  lemma MishapTmp(s: State, e: Event)
    requires TmpInv(s) && IsMishap(e) && e.uid in s.pulls
    ensures TmpInv(Next(s, e))
  {
    hide Perform, TmpOk;
    var u := e.uid;
    var p, s' := s.pulls[u], Next(s, e);
    assert TmpOk(s.layers, u, p);
    MishapOwnTmp(s.layers, u, p, e);
    var n := RemovedLayer(u, p);
    forall v | v in s'.pulls
      ensures TmpOk(s'.layers, v, s'.pulls[v])
    {
      if v != u {
        assert TmpOk(s.layers, v, s.pulls[v]);
        if n.Some? && e.Tear? {
          TornTouches(s.layers, u, p, e);
          OtherTmpUndisturbed(s.layers, s'.layers, n.value.digest, u, v, s.pulls[v]);
        }
      }
    }
  }

  lemma TornTouches(layers: map<LayerName, LayerDir>, u: Uid, p: Pull, e: Event)
    requires RemovedLayer(u, p).Some? && e.Tear?
    ensures LayersTouched(layers, TornLayers(layers, u, p, e), RemovedLayer(u, p).value.digest, u)
  {
  }

  lemma MishapOwnTmp(layers: map<LayerName, LayerDir>, u: Uid, p: Pull, e: Event)
    requires TmpOk(layers, u, p) && IsMishap(e)
    ensures var a := MishapAction(layers, u, p, e);
            !a.after.Over? ==> TmpOk(TornLayers(layers, u, p, e), u, Moved(p, a.after))
  {
  }
}
