/**
 * What a crash can do to a tag. A tag is safe when, whatever the startup prune
 * finds first, it ends up live and whole. The exact steps that take this away
 * are named, and no other step of any interleaving does.
 */
module ImageSafety {
  import opened Options
  import opened ImageStore

  /** Nothing partial can ever be seen under this tag, now or after a restart. */
  ghost predicate Sound(s: State, tag: Tag) {
    if Live(tag) in s.images then Genuine(s.started, tag, s.images[Live(tag)])
    else forall u :: Backup(tag, u) in s.images ==> Genuine(s.started, tag, s.images[Backup(tag, u)])
  }

  /** A restart finds something to show under this tag. */
  ghost predicate Present(s: State, tag: Tag) {
    Live(tag) in s.images || exists u :: Backup(tag, u) in s.images
  }

  /** The pull is about to do this to this tag. */
  predicate AtPc(s: State, u: Uid, tag: Tag, pc: Pc) {
    u in s.pulls && s.pulls[u].order.tag == tag && s.pulls[u].pc == pc
  }

  /** Moving the live directory aside while a damaged backup of the same tag is still lying around. */
  ghost predicate Exposes(s: State, u: Uid, tag: Tag) {
    && AtPc(s, u, tag, MoveOld) && Live(tag) in s.images
    && exists v :: v != u && Backup(tag, v) in s.images && !Genuine(s.started, tag, s.images[Backup(tag, v)])
  }

  /** Publishing a stage whose rootfs was merged from layers that were not all there when they were read. */
  predicate PublishesPart(s: State, u: Uid, tag: Tag) {
    && AtPc(s, u, tag, Publish) && Live(tag) !in s.images
    && Stage(tag, u) in s.images && !WholeSoFar(s.images[Stage(tag, u)])
  }

  /** Starting to delete a backup while no live directory exists. */
  predicate TearsLast(s: State, u: Uid, tag: Tag) {
    AtPc(s, u, tag, DropBackup) && Live(tag) !in s.images && Backup(tag, u) in s.images
  }

  /** The steps that make a tag unsound. */
  ghost predicate Corrupts(s: State, e: Event, tag: Tag) {
    match e
    case Advance(u) => Exposes(s, u, tag) || PublishesPart(s, u, tag)
    case Tear(u, _, _) => TearsLast(s, u, tag)
    case _ => false
  }

  /** The one step that loses a tag: deleting its only backup while no live directory exists. */
  ghost predicate Loses(s: State, e: Event, tag: Tag) {
    && e.Advance?
    && AtPc(s, e.uid, tag, DropBackup) && Live(tag) !in s.images && Backup(tag, e.uid) in s.images
    && forall v :: Backup(tag, v) in s.images ==> v == e.uid
  }

  /** Soundness and presence depend only on the tag's live directory and backups. */
  ghost predicate SameView(s: State, s': State, tag: Tag) {
    && (Live(tag) in s.images <==> Live(tag) in s'.images)
    && (Live(tag) in s.images ==> s.images[Live(tag)] == s'.images[Live(tag)])
    && (forall u :: Backup(tag, u) in s.images <==> Backup(tag, u) in s'.images)
    && (forall u :: Backup(tag, u) in s.images ==> s.images[Backup(tag, u)] == s'.images[Backup(tag, u)])
  }

  lemma SameViewSameVerdict(s: State, s': State, tag: Tag)
    requires SameView(s, s', tag) && s'.started == s.started
    ensures Sound(s', tag) <==> Sound(s, tag)
    ensures Present(s', tag) <==> Present(s, tag)
  {
    hide Genuine;
    if exists u :: Backup(tag, u) in s.images {
      var u :| Backup(tag, u) in s.images;
      assert Backup(tag, u) in s'.images;
    }
    if exists u :: Backup(tag, u) in s'.images {
      var u :| Backup(tag, u) in s'.images;
      assert Backup(tag, u) in s.images;
    }
  }

  /** Pulls of other tags do not matter. */
  lemma OtherTags(s: State, s': State, u: Uid, other: Tag, tag: Tag)
    requires TouchesOnly(s.images, s'.images, other, u) && other != tag
    ensures SameView(s, s', tag)
  {
  }

  // ---------- a pull's own step, phase by phase ----------

  lemma BuildStepSafe(s: State, u: Uid, tag: Tag)
    requires u in s.pulls && !IsLayerPc(s.pulls[u].pc) && Rank(s.pulls[u].pc) <= 5
    ensures SameView(s, ImageStep(s, u), tag)
  {
    hide TreeExists, LayerExists;
    StageOpsOnly(s.layers, u, s.pulls[u]);
    StageOpKeepsView(s.images, BuildAction(s.layers, u, s.pulls[u]).op, s.pulls[u].order.tag, u, tag);
  }

  lemma StageOpsOnly(layers: map<LayerName, LayerDir>, u: Uid, p: Pull)
    requires !IsLayerPc(p.pc) && Rank(p.pc) <= 5
    ensures var op := BuildAction(layers, u, p).op;
            op.Nothing? || ((op.Create? || op.Write?) && op.name == Stage(p.order.tag, u))
  {
    hide TreeExists, LayerExists;
  }

  lemma StageOpKeepsView(images: map<ImageName, ImageDir>, op: ImageOp, own: Tag, u: Uid, tag: Tag)
    requires op.Nothing? || ((op.Create? || op.Write? || op.Remove?) && op.name == Stage(own, u))
    ensures var images' := Perform(images, op);
            && (Live(tag) in images <==> Live(tag) in images')
            && (Live(tag) in images ==> images[Live(tag)] == images'[Live(tag)])
            && (forall v :: Backup(tag, v) in images <==> Backup(tag, v) in images')
            && (forall v :: Backup(tag, v) in images ==> images[Backup(tag, v)] == images'[Backup(tag, v)])
  {
  }

  /** What a pull is about to publish is its whole output exactly when every layer was whole as it was merged. */
  lemma StageIsGenuine(s: State, u: Uid)
    requires Inv(s) && u in s.pulls && 6 <= Rank(s.pulls[u].pc) <= 8
    ensures var p := s.pulls[u];
            var stage := Stage(p.order.tag, u);
            stage in s.images && (Genuine(s.started, p.order.tag, s.images[stage]) <==> WholeSoFar(s.images[stage]))
  {
    var p := s.pulls[u];
    assert PullOk(s.images, s.started, u, p);
    assert p.order.layers[..|p.order.layers|] == p.order.layers;
  }

  /** Moving the live directory to this pull's backup. */
  lemma MoveOldSafe(s: State, u: Uid, tag: Tag)
    requires AtPc(s, u, tag, MoveOld) && Sound(s, tag)
    ensures var s' := ImageStep(s, u);
            && (Sound(s', tag) <==> !Exposes(s, u, tag))
            && (Present(s, tag) ==> Present(s', tag))
  {
    hide Genuine;
    var s' := ImageStep(s, u);
    if Live(tag) in s.images {
      assert s'.images == (s.images - {Live(tag)})[Backup(tag, u) := s.images[Live(tag)]];
      assert Live(tag) !in s'.images && Backup(tag, u) in s'.images;
      assert forall v :: v != u ==> (Backup(tag, v) in s'.images <==> Backup(tag, v) in s.images);
      assert forall v :: v != u && Backup(tag, v) in s.images ==> s'.images[Backup(tag, v)] == s.images[Backup(tag, v)];
    } else {
      assert s'.images == s.images;
      SameViewSameVerdict(s, s', tag);
    }
  }

  /** Renaming a whole directory onto the tag, or finding it already there. */
  lemma InstallSafe(s: State, s': State, from: ImageName, tag: Tag)
    requires Sound(s, tag) && s'.started == s.started
    requires if Live(tag) in s.images then s'.images == s.images
             else from in s.images && !from.Live? && s'.images == Perform(s.images, Move(from, Live(tag)))
                  && Genuine(s.started, tag, s.images[from])
    ensures Sound(s', tag) && (Present(s, tag) ==> Present(s', tag))
  {
    hide Genuine;
    if Live(tag) in s.images {
      SameViewSameVerdict(s, s', tag);
    }
  }

  /** Renaming the stage to the tag is safe exactly when the stage is whole. */
  lemma PublishSafe(s: State, u: Uid, tag: Tag)
    requires Inv(s) && AtPc(s, u, tag, Publish) && Sound(s, tag)
    ensures Sound(ImageStep(s, u), tag) <==> !PublishesPart(s, u, tag)
    ensures Present(s, tag) ==> Present(ImageStep(s, u), tag)
  {
    hide Genuine, Inv, WholeSoFar;
    StageIsGenuine(s, u);
    if PublishesPart(s, u, tag) {
      hide Perform;
      PublishShows(s, u, tag);
    } else {
      hide Sound, Present;
      InstallSafe(s, ImageStep(s, u), Stage(tag, u), tag);
    }
  }

  lemma PublishShows(s: State, u: Uid, tag: Tag)
    requires AtPc(s, u, tag, Publish) && Live(tag) !in s.images && Stage(tag, u) in s.images
    ensures var s' := ImageStep(s, u);
            Live(tag) in s'.images && s'.images[Live(tag)] == s.images[Stage(tag, u)]
  {
  }

  lemma RestoreSafe(s: State, u: Uid, tag: Tag)
    requires AtPc(s, u, tag, Restore) && Sound(s, tag)
    ensures Sound(ImageStep(s, u), tag) && (Present(s, tag) ==> Present(ImageStep(s, u), tag))
  {
    hide Genuine;
    if Live(tag) in s.images || Backup(tag, u) !in s.images {
      SameViewSameVerdict(s, ImageStep(s, u), tag);
    } else {
      InstallSafe(s, ImageStep(s, u), Backup(tag, u), tag);
    }
  }

  /** Deleting this pull's backup. */
  lemma DropBackupSafe(s: State, u: Uid, tag: Tag)
    requires AtPc(s, u, tag, DropBackup) && Sound(s, tag)
    ensures var s' := ImageStep(s, u);
            && Sound(s', tag)
            && (Present(s, tag) ==> (Present(s', tag) <==> !Loses(s, Advance(u), tag)))
  {
    hide Genuine;
    var s' := ImageStep(s, u);
    assert s'.images == s.images - {Backup(tag, u)};
    assert forall v :: Backup(tag, v) in s'.images <==> Backup(tag, v) in s.images && v != u;
    assert Live(tag) in s'.images <==> Live(tag) in s.images;
    if Live(tag) !in s.images {
      if Present(s, tag) && !Loses(s, Advance(u), tag) {
        assert exists v :: Backup(tag, v) in s'.images;
      }
    }
  }

  lemma QuietStepSafe(s: State, u: Uid, tag: Tag)
    requires u in s.pulls
    requires s.pulls[u].pc.LiveTest? || s.pulls[u].pc.ExceptTest? || s.pulls[u].pc.DropStage?
    ensures SameView(s, ImageStep(s, u), tag)
  {
    var p := s.pulls[u];
    StageOpKeepsView(s.images, PublishAction(s.images, u, p).op, p.order.tag, u, tag);
  }

  /** Of all the steps a pull can take, exactly the named ones hurt its tag. */
  lemma AdvanceExact(s: State, u: Uid, tag: Tag)
    requires Inv(s) && Sound(s, tag)
    ensures var s' := Next(s, Advance(u));
            && (Sound(s', tag) <==> !Corrupts(s, Advance(u), tag))
            && (Present(s, tag) ==> (Present(s', tag) <==> !Loses(s, Advance(u), tag)))
  {
    hide Inv, Sound, Present, SameView, Genuine, BuildAction, PublishAction, LayerActionOf, Perform, PerformLayer, TouchesOnly;
    if u in s.pulls {
      var p := s.pulls[u];
      if IsLayerPc(p.pc) {
        LayerStepTouches(s, u);
        SameImagesSameView(s, LayerStep(s, u), tag);
        SameViewSameVerdict(s, LayerStep(s, u), tag);
      } else if Rank(p.pc) <= 5 {
        BuildStepSafe(s, u, tag);
        SameViewSameVerdict(s, ImageStep(s, u), tag);
      } else if p.order.tag != tag {
        ImageStepTouches(s, u);
        OtherTags(s, ImageStep(s, u), u, p.order.tag, tag);
        SameViewSameVerdict(s, ImageStep(s, u), tag);
      } else {
        hide Exposes, PublishesPart;
        NamedOnlyThere(s, u, tag);
        match p.pc
        case MoveOld => MoveOldSafe(s, u, tag);
        case Publish => PublishSafe(s, u, tag);
        case Restore => RestoreSafe(s, u, tag);
        case DropBackup => DropBackupSafe(s, u, tag);
        case LiveTest | ExceptTest | DropStage =>
          QuietStepSafe(s, u, tag);
          SameViewSameVerdict(s, ImageStep(s, u), tag);
      }
    } else {
      SameImagesSameView(s, s, tag);
    }
  }

  lemma NamedOnlyThere(s: State, u: Uid, tag: Tag)
    ensures !AtPc(s, u, tag, MoveOld) ==> !Exposes(s, u, tag)
    ensures !AtPc(s, u, tag, Publish) ==> !PublishesPart(s, u, tag)
  {
  }

  lemma SameImagesSameView(s: State, s': State, tag: Tag)
    requires s'.images == s.images
    ensures SameView(s, s', tag)
  {
  }

  // ---------- the other events ----------

  lemma MishapExact(s: State, e: Event, tag: Tag)
    requires IsMishap(e) && Sound(s, tag)
    ensures var s' := Next(s, e);
            && (Sound(s', tag) <==> !Corrupts(s, e, tag))
            && (Present(s, tag) ==> Present(s', tag))
  {
    var u := e.uid;
    var s' := Next(s, e);
    if u in s.pulls && e.Tear? && s.pulls[u].pc.DropBackup? {
      TearBackupExact(s, e, tag);
    } else {
      hide Genuine, Sound, Present, SameView, Perform;
      if u in s.pulls {
        var p := s.pulls[u];
        StageOpKeepsView(s.images, MishapAction(s.layers, u, p, e).op, p.order.tag, u, tag);
        ViewOf(s, s', tag);
      } else {
        SameImagesSameView(s, s', tag);
      }
      SameViewSameVerdict(s, s', tag);
    }
  }

  lemma ViewOf(s: State, s': State, tag: Tag)
    requires Live(tag) in s.images <==> Live(tag) in s'.images
    requires Live(tag) in s.images ==> s.images[Live(tag)] == s'.images[Live(tag)]
    requires forall v :: Backup(tag, v) in s.images <==> Backup(tag, v) in s'.images
    requires forall v :: Backup(tag, v) in s.images ==> s.images[Backup(tag, v)] == s'.images[Backup(tag, v)]
    ensures SameView(s, s', tag)
  {
  }

  lemma TearBackupExact(s: State, e: Event, tag: Tag)
    requires e.Tear? && e.uid in s.pulls && s.pulls[e.uid].pc.DropBackup? && Sound(s, tag)
    ensures var s' := Next(s, e);
            && (Sound(s', tag) <==> !Corrupts(s, e, tag))
            && (Present(s, tag) ==> Present(s', tag))
  {
    var u, p, s' := e.uid, s.pulls[e.uid], Next(s, e);
    var n := Backup(p.order.tag, u);
    if n in s.images {
      assert s'.images == s.images[n := With(s.images[n], Damage)];
      assert forall m :: m in s'.images <==> m in s.images;
      assert forall m :: m in s.images && m != n ==> s'.images[m] == s.images[m];
      assert !Genuine(s.started, p.order.tag, s'.images[n]);
      if p.order.tag != tag {
        SameViewSameVerdict(s, s', tag);
      }
    } else {
      assert s'.images == s.images;
      SameViewSameVerdict(s, s', tag);
    }
  }

  lemma StartSafe(s: State, u: Uid, order: Order, tag: Tag)
    requires Inv(s) && Sound(s, tag)
    ensures Sound(Next(s, Start(u, order)), tag) && (Present(s, tag) ==> Present(Next(s, Start(u, order)), tag))
  {
  }

  /** Each prune step, and each interrupted removal inside it, keeps a safe tag safe. */
  lemma PruneSafe(s: State, e: Event, tag: Tag)
    requires e.Crash? || e.PruneImage? || e.TearImage? || e.PruneLayer? || e.TearLayer?
    requires Sound(s, tag)
    ensures Sound(Next(s, e), tag) && (Present(s, tag) ==> Present(Next(s, e), tag))
  {
    hide Genuine, LayerResidue;
    match e
    case PruneImage(n) =>
      if s.pulls == map[] {
        PruneImageSafe(s, n, tag);
      }
    case TearImage(n) =>
      if s.pulls == map[] && Removable(s.images, n) {
        TearImageSafe(s, n, tag);
      }
    case _ => SameViewSameVerdict(s, Next(s, e), tag);
  }

  lemma PruneImageSafe(s: State, n: ImageName, tag: Tag)
    requires Sound(s, tag)
    ensures var s' := s.(images := PruneImageStep(s.images, n));
            Sound(s', tag) && (Present(s, tag) ==> Present(s', tag))
  {
    hide Genuine;
    var s' := s.(images := PruneImageStep(s.images, n));
    if n in s.images && n.Backup? && n.tag == tag && Live(tag) !in s.images {
      InstallSafe(s, s', n, tag);
    } else if n in s.images && n.Backup? && n.tag == tag {
      assert Live(tag) in s'.images && s'.images[Live(tag)] == s.images[Live(tag)];
    } else {
      SameViewSameVerdict(s, s', tag);
    }
  }

  lemma TearImageSafe(s: State, n: ImageName, tag: Tag)
    requires Removable(s.images, n) && Sound(s, tag)
    ensures Sound(Edit(s, n, Damage), tag) && (Present(s, tag) ==> Present(Edit(s, n, Damage), tag))
  {
    hide Genuine;
    var s' := Edit(s, n, Damage);
    if n.Backup? && n.tag == tag {
      assert Live(tag) in s'.images && s'.images[Live(tag)] == s.images[Live(tag)];
    } else {
      SameViewSameVerdict(s, s', tag);
    }
  }

  /** One event keeps a safe tag safe exactly when it is not one of the named steps. */
  lemma NextExact(s: State, e: Event, tag: Tag)
    requires Inv(s) && Sound(s, tag)
    ensures Sound(Next(s, e), tag) <==> !Corrupts(s, e, tag)
    ensures Present(s, tag) ==> (Present(Next(s, e), tag) <==> !Loses(s, e, tag))
  {
    hide Inv, Sound, Present, Next;
    match e
    case Start(u, order) => StartSafe(s, u, order, tag);
    case Advance(u) => AdvanceExact(s, u, tag);
    case Fail(_) => MishapExact(s, e, tag);
    case Tear(_, _, _) => MishapExact(s, e, tag);
    case GiveUp(_) => MishapExact(s, e, tag);
    case Read(_) => MishapExact(s, e, tag);
    case Skip(_) => MishapExact(s, e, tag);
    case Crash => PruneSafe(s, e, tag);
    case PruneImage(_) => PruneSafe(s, e, tag);
    case TearImage(_) => PruneSafe(s, e, tag);
    case PruneLayer(_) => PruneSafe(s, e, tag);
    case TearLayer(_, _, _) => PruneSafe(s, e, tag);
  }
}
