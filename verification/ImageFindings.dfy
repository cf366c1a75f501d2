/**
 * Runs on which the store loses or damages something, step by step, and runs from the empty store
 * that come to where they start.
 */
module ImageFindings {
  import opened Options
  import opened ImageStore
  import opened ImageSafety
  import opened ImageLayers
  import opened ImageNames
  import opened ImageRecovery

  // ---------- runs put together ----------

  /** One pull goes on for n steps while everything else waits. */
  function Advances(s: State, u: Uid, n: nat): State {
    if n == 0 then s else Next(Advances(s, u, n - 1), Advance(u))
  }

  function Steps(u: Uid, n: nat): seq<Event> {
    if n == 0 then [] else Steps(u, n - 1) + [Advance(u)]
  }

  /** Nothing fails and nothing crashes. */
  predicate Calm(events: seq<Event>) {
    forall e :: e in events ==> e.Start? || e.Advance? || e.Tear?
  }

  lemma {:induction false} CalmSteps(u: Uid, n: nat)
    ensures Calm(Steps(u, n))
  {
    if n > 0 {
      CalmSteps(u, n - 1);
    }
  }

  lemma {:induction false} RunAppend(s: State, events: seq<Event>, e: Event)
    ensures Run(s, events + [e]) == Next(Run(s, events), e)
    decreases |events|
  {
    hide Next;
    if events == [] {
      assert Run(s, [e]) == Run(Next(s, e), [e][1..]);
    } else {
      assert (events + [e])[1..] == events[1..] + [e];
      RunAppend(Next(s, events[0]), events[1..], e);
    }
  }

  lemma {:induction false} RunSteps(s: State, events: seq<Event>, u: Uid, n: nat)
    ensures Run(s, events + Steps(u, n)) == Advances(Run(s, events), u, n)
  {
    hide Next;
    if n == 0 {
      assert events + [] == events;
    } else {
      RunSteps(s, events, u, n - 1);
      RunAppend(s, events + Steps(u, n - 1), Advance(u));
      assert events + Steps(u, n) == events + Steps(u, n - 1) + [Advance(u)];
    }
  }

  /** Going on for m + 1 steps is one step and then m more. */
  lemma {:induction false} AdvancesFrom(s: State, u: Uid, n: nat)
    ensures Advances(s, u, n + 1) == Advances(Next(s, Advance(u)), u, n)
  {
    hide Next;
    if n > 0 {
      AdvancesFrom(s, u, n - 1);
    } else {
      assert Advances(s, u, 1) == Next(Advances(s, u, 0), Advance(u));
    }
  }

  lemma OneAdvance(s: State, u: Uid)
    ensures Advances(s, u, 1) == Next(s, Advance(u))
  {
    hide Next;
    assert Advances(s, u, 0) == s;
  }

  // ---------- one pull building its stage ----------

  /** The store with pull u at p and the stage of u holding d. */
  function Holding(s: State, u: Uid, p: Pull, d: ImageDir): State {
    s.(images := s.images[Stage(p.order.tag, u) := d], pulls := s.pulls[u := p])
  }

  lemma WritesOn(s: State, u: Uid, p: Pull, d: ImageDir, part: Part, after: Then)
    requires !IsLayerPc(p.pc) && Rank(p.pc) <= 5 && !after.Over?
    requires BuildAction(s.layers, u, p) == Action(Write(Stage(p.order.tag, u), part), after)
    ensures Next(Holding(s, u, p, d), Advance(u)) == Holding(s, u, Moved(p, after), With(d, part))
  {
    hide BuildAction, With;
    var t := Holding(s, u, p, d);
    var n := Stage(p.order.tag, u);
    assert t.images[n := With(d, part)] == s.images[n := With(d, part)];
    assert t.pulls[u := Moved(p, after)] == s.pulls[u := Moved(p, after)];
  }

  lemma GoesOn(s: State, u: Uid, p: Pull, d: ImageDir, after: Then)
    requires !IsLayerPc(p.pc) && Rank(p.pc) <= 5 && !after.Over?
    requires BuildAction(s.layers, u, p) == Action(Nothing, after)
    ensures Next(Holding(s, u, p, d), Advance(u)) == Holding(s, u, Moved(p, after), d)
  {
    hide BuildAction;
    var t := Holding(s, u, p, d);
    assert t.pulls[u := Moved(p, after)] == s.pulls[u := Moved(p, after)];
  }

  lemma Begins(s: State, u: Uid, order: Order)
    requires u in s.pulls && s.pulls[u] == Pull(order, MakeStage, 0, 0)
    ensures Next(s, Advance(u)) ==
            Holding(s, u, Pull(order, WriteConfig, 0, 0), ImageDir(u, order.layers, false, false, NoRootfs, None, false))
  {
    hide LayerExists, TreeExists;
  }

  function ConfigOnly(u: Uid, order: Order): ImageDir {
    ImageDir(u, order.layers, true, false, NoRootfs, None, false)
  }

  function Output(u: Uid, order: Order, whole: bool): ImageDir {
    ImageDir(u, order.layers, true, true, Merged(order.layers, whole), Some(order.ref), false)
  }

  lemma ComesToLayers(s: State, u: Uid, order: Order)
    requires u in s.pulls && s.pulls[u] == Pull(order, MakeStage, 0, 0)
    ensures Advances(s, u, 2) == Holding(s, u, Pull(order, NextLayer, 0, 0), ConfigOnly(u, order))
  {
    Begins(s, u, order);
    WritesOn(s, u, Pull(order, WriteConfig, 0, 0), ConfigOnly(u, order).(config := false), ConfigFile, To(NextLayer));
    hide Next, Holding;
    OneAdvance(s, u);
    assert Advances(s, u, 2) == Next(Advances(s, u, 1), Advance(u));
  }

  /** The stage without layers after its manifest is recorded, and with its empty rootfs. */
  function Listed(u: Uid, order: Order): ImageDir {
    ConfigOnly(u, order).(manifest := true)
  }

  function Rooted(u: Uid, order: Order): ImageDir {
    Listed(u, order).(rootfs := Merged([], true))
  }

  lemma ListsLayers(s: State, u: Uid, order: Order)
    requires order.layers == []
    ensures Next(Holding(s, u, Pull(order, NextLayer, 0, 0), ConfigOnly(u, order)), Advance(u)) ==
            Holding(s, u, Pull(order, WriteManifest, 0, 0), ConfigOnly(u, order))
    ensures Next(Holding(s, u, Pull(order, WriteManifest, 0, 0), ConfigOnly(u, order)), Advance(u)) ==
            Holding(s, u, Pull(order, Merge, 0, 0), Listed(u, order))
  {
    hide Next, Holding;
    GoesOn(s, u, Pull(order, NextLayer, 0, 0), ConfigOnly(u, order), To(WriteManifest));
    WritesOn(s, u, Pull(order, WriteManifest, 0, 0), ConfigOnly(u, order), ManifestFile, To(Merge));
  }

  lemma MergesNothing(s: State, u: Uid, order: Order)
    requires order.layers == []
    ensures Next(Holding(s, u, Pull(order, Merge, 0, 0), Listed(u, order)), Advance(u)) ==
            Holding(s, u, Pull(order, MergeTest, 0, 0), Rooted(u, order))
    ensures Next(Holding(s, u, Pull(order, MergeTest, 0, 0), Rooted(u, order)), Advance(u)) ==
            Holding(s, u, Pull(order, WriteRef, 0, 0), Rooted(u, order))
  {
    hide Next, Holding;
    WritesOn(s, u, Pull(order, Merge, 0, 0), Listed(u, order), RootTree, To(MergeTest));
    GoesOn(s, u, Pull(order, MergeTest, 0, 0), Rooted(u, order), To(WriteRef));
  }

  lemma NamesItself(s: State, u: Uid, order: Order)
    requires order.layers == []
    ensures Next(Holding(s, u, Pull(order, WriteRef, 0, 0), Rooted(u, order)), Advance(u)) ==
            Holding(s, u, Pull(order, LiveTest, 0, 0), Output(u, order, true))
  {
    hide Next, Holding;
    WritesOn(s, u, Pull(order, WriteRef, 0, 0), Rooted(u, order), RefFile(order.ref), To(LiveTest));
  }

  /** A pull without layers builds its whole stage. */
  lemma BuildsStage(s: State, u: Uid, order: Order)
    requires u in s.pulls && s.pulls[u] == Pull(order, MakeStage, 0, 0) && order.layers == []
    ensures Advances(s, u, 7) == Holding(s, u, Pull(order, LiveTest, 0, 0), Output(u, order, true))
  {
    hide *;
    ComesToLayers(s, u, order);
    ListsLayers(s, u, order);
    MergesNothing(s, u, order);
    NamesItself(s, u, order);
    FiveMore(s, u, 2);
  }

  lemma FiveMore(s: State, u: Uid, n: nat)
    ensures Advances(s, u, n + 5) ==
            Next(Next(Next(Next(Next(Advances(s, u, n), Advance(u)), Advance(u)), Advance(u)), Advance(u)), Advance(u))
  {
    hide Next;
    assert Advances(s, u, n + 1) == Next(Advances(s, u, n), Advance(u));
    assert Advances(s, u, n + 2) == Next(Advances(s, u, n + 1), Advance(u));
    assert Advances(s, u, n + 3) == Next(Advances(s, u, n + 2), Advance(u));
    assert Advances(s, u, n + 4) == Next(Advances(s, u, n + 3), Advance(u));
    assert Advances(s, u, n + 5) == Next(Advances(s, u, n + 4), Advance(u));
  }

  // ---------- publishing ----------

  /** The first image of a tag: nothing to move aside. */
  lemma PublishesFirst(s: State, u: Uid, p: Pull)
    requires u in s.pulls && s.pulls[u] == p && p.pc.LiveTest?
    requires Stage(p.order.tag, u) in s.images && Live(p.order.tag) !in s.images && Backup(p.order.tag, u) !in s.images
    ensures var live, stage := Live(p.order.tag), Stage(p.order.tag, u);
            Advances(s, u, 3) == s.(images := (s.images - {stage})[live := s.images[stage]], pulls := s.pulls - {u})
  {
    var s1 := Next(s, Advance(u));
    assert s1 == s.(pulls := s.pulls[u := p.(pc := Publish)]);
    PublishesAndDrops(s1, u, p.(pc := Publish));
    assert s1.pulls - {u} == s.pulls - {u};
    hide Next;
    OneAdvance(s, u);
    assert Advances(s, u, 2) == Next(Advances(s, u, 1), Advance(u));
    assert Advances(s, u, 3) == Next(Advances(s, u, 2), Advance(u));
  }

  lemma PublishesAndDrops(s: State, u: Uid, p: Pull)
    requires u in s.pulls && s.pulls[u] == p && p.pc.Publish?
    requires Stage(p.order.tag, u) in s.images && Live(p.order.tag) !in s.images && Backup(p.order.tag, u) !in s.images
    ensures var live, stage := Live(p.order.tag), Stage(p.order.tag, u);
            Next(Next(s, Advance(u)), Advance(u)) ==
            s.(images := (s.images - {stage})[live := s.images[stage]], pulls := s.pulls - {u})
  {
    var live, stage := Live(p.order.tag), Stage(p.order.tag, u);
    Publishes(s, u, p);
    var s1 := Next(s, Advance(u));
    assert s1.images - {Backup(p.order.tag, u)} == s1.images;
    assert s1.pulls - {u} == s.pulls - {u};
  }

  lemma Publishes(s: State, u: Uid, p: Pull)
    requires u in s.pulls && s.pulls[u] == p && p.pc.Publish?
    requires Stage(p.order.tag, u) in s.images && Live(p.order.tag) !in s.images
    ensures var live, stage := Live(p.order.tag), Stage(p.order.tag, u);
            Next(s, Advance(u)) ==
            s.(images := (s.images - {stage})[live := s.images[stage]], pulls := s.pulls[u := p.(pc := DropBackup)])
  {
  }

  lemma MovesAside(s: State, u: Uid, p: Pull)
    requires u in s.pulls && s.pulls[u] == p && p.pc.LiveTest? && Live(p.order.tag) in s.images
    ensures var live, backup := Live(p.order.tag), Backup(p.order.tag, u);
            && Advances(s, u, 1) == s.(pulls := s.pulls[u := p.(pc := MoveOld)])
            && Advances(s, u, 2) ==
               s.(images := (s.images - {live})[backup := s.images[live]], pulls := s.pulls[u := p.(pc := Publish)])
  {
    OneAdvance(s, u);
    var s1 := Next(s, Advance(u));
    assert s1 == s.(pulls := s.pulls[u := p.(pc := MoveOld)]);
    assert Advances(s, u, 2) == Next(s1, Advance(u));
    assert s1.pulls[u := p.(pc := Publish)] == s.pulls[u := p.(pc := Publish)];
  }

  // ---------- the states the findings start from ----------

  /** A reference, and the directory name it is given. */
  function Again(tag: Tag, ref: string): Order {
    Order(tag, ref, [])
  }

  function OneImage(tag: Tag, ref: string): State {
    State(map[Live(tag) := Output(0, Again(tag, ref), true)], map[], map[], map[0 := Again(tag, ref)])
  }

  /** The store once a started pull without layers has its stage ready. */
  function Built(s: State, u: Uid, order: Order): State {
    s.(images := s.images[Stage(order.tag, u) := Output(u, order, true)],
       pulls := s.pulls[u := Pull(order, LiveTest, 0, 0)],
       started := s.started[u := order])
  }

  lemma StartsAndBuilds(s: State, u: Uid, order: Order)
    requires u !in s.started && order.layers == []
    ensures Advances(Next(s, Start(u, order)), u, 7) == Built(s, u, order)
  {
    var s0 := Next(s, Start(u, order));
    assert s0.pulls == s.pulls[u := Pull(order, MakeStage, 0, 0)];
    BuildsStage(s0, u, order);
    hide Next, Advances, Output;
    assert s0.pulls[u := Pull(order, LiveTest, 0, 0)] == s.pulls[u := Pull(order, LiveTest, 0, 0)];
  }

  lemma FirstBuilds(tag: Tag, ref: string)
    ensures Advances(Advances(Next(EMPTY, Start(0, Again(tag, ref))), 0, 7), 0, 3) == OneImage(tag, ref)
  {
    hide Next, Advances, Output;
    var order := Again(tag, ref);
    StartsAndBuilds(EMPTY, 0, order);
    var s1 := Built(EMPTY, 0, order);
    PublishesFirst(s1, 0, Pull(order, LiveTest, 0, 0));
    assert (s1.images - {Stage(tag, 0)})[Live(tag) := s1.images[Stage(tag, 0)]] == OneImage(tag, ref).images;
    assert s1.pulls - {0} == map[];
  }

  lemma FirstImage(tag: Tag, ref: string) returns (events: seq<Event>)
    ensures Run(EMPTY, events) == OneImage(tag, ref)
  {
    hide *;
    var order := Again(tag, ref);
    FirstBuilds(tag, ref);
    events := StartAndGo([], 0, order, 7);
    NothingRun();
    RunSteps(EMPTY, events, 0, 3);
    events := events + Steps(0, 3);
  }

  lemma NothingRun()
    ensures Run(EMPTY, []) == EMPTY
  {
  }

  /** Starting one more pull and letting it go on for n steps. */
  lemma StartAndGo(before: seq<Event>, u: Uid, order: Order, n: nat) returns (events: seq<Event>)
    ensures Run(EMPTY, events) == Advances(Next(Run(EMPTY, before), Start(u, order)), u, n)
    ensures Calm(before) ==> Calm(events)
  {
    hide Run, Next, Advances, Steps;
    CalmSteps(u, n);
    RunAppend(EMPTY, before, Start(u, order));
    RunSteps(EMPTY, before + [Start(u, order)], u, n);
    events := before + [Start(u, order)] + Steps(u, n);
  }

  /** A second pull of the tag has moved the first image aside. */
  function Aside(tag: Tag, ref: string): State {
    var order := Again(tag, ref);
    State(map[Backup(tag, 1) := Output(0, order, true), Stage(tag, 1) := Output(1, order, true)], map[],
          map[1 := Pull(order, Publish, 0, 0)], map[0 := order, 1 := order])
  }

  lemma SecondBuilds(tag: Tag, ref: string)
    ensures Advances(Advances(Next(OneImage(tag, ref), Start(1, Again(tag, ref))), 1, 7), 1, 2) == Aside(tag, ref)
  {
    hide Next, Advances, Output;
    var order := Again(tag, ref);
    StartsAndBuilds(OneImage(tag, ref), 1, order);
    var s1 := Built(OneImage(tag, ref), 1, order);
    MovesAside(s1, 1, Pull(order, LiveTest, 0, 0));
    assert (s1.images - {Live(tag)})[Backup(tag, 1) := s1.images[Live(tag)]] == Aside(tag, ref).images;
    assert s1.pulls[1 := Pull(order, Publish, 0, 0)] == Aside(tag, ref).pulls;
  }

  lemma SecondMovesAside(tag: Tag, ref: string) returns (events: seq<Event>)
    ensures Run(EMPTY, events) == Aside(tag, ref)
  {
    hide *;
    var first := FirstImage(tag, ref);
    SecondBuilds(tag, ref);
    events := StartAndGo(first, 1, Again(tag, ref), 7);
    RunSteps(EMPTY, events, 1, 2);
    events := events + Steps(1, 2);
  }

  // ---------- a failed restore ----------

  /** A pull whose publishing rename fails comes to the restore that `FailedRestoreLosesTag` starts from. */
  lemma RestoreIsReached(tag: Tag, ref: string) returns (events: seq<Event>)
    ensures var s := Run(EMPTY, events);
            AtPc(s, 1, tag, Restore) && Live(tag) !in s.images && forall v :: Backup(tag, v) in s.images <==> v == 1
  {
    events := SecondMovesAside(tag, ref);
    var s := Aside(tag, ref);
    FailsToRestore(s, 1, s.pulls[1]);
    var caught := s.(pulls := s.pulls[1 := s.pulls[1].(pc := Restore)]);
    assert AtPc(caught, 1, tag, Restore);
    hide Next, Aside;
    RunAppend(EMPTY, events, Fail(1));
    RunAppend(EMPTY, events + [Fail(1)], Advance(1));
    events := events + [Fail(1)] + [Advance(1)];
  }

  lemma FailsToRestore(s: State, u: Uid, p: Pull)
    requires u in s.pulls && s.pulls[u] == p && p.pc.Publish?
    requires Backup(p.order.tag, u) in s.images && Live(p.order.tag) !in s.images
    ensures Next(Next(s, Fail(u)), Advance(u)) == s.(pulls := s.pulls[u := p.(pc := Restore)])
  {
    var failed := Next(s, Fail(u));
    assert failed == s.(pulls := s.pulls[u := p.(pc := ExceptTest)]);
    assert failed.pulls[u := p.(pc := Restore)] == s.pulls[u := p.(pc := Restore)];
  }

  /**
   * When the restoring rename fails, the clean-up that follows deletes the only copy of the tag,
   * and no restart brings it back.
   */
  lemma FailedRestoreLosesTag(s: State, u: Uid, tag: Tag, pass: Pass)
    requires AtPc(s, u, tag, Restore) && Live(tag) !in s.images
    requires forall v :: Backup(tag, v) in s.images <==> v == u
    ensures var s' := Run(s, [Fail(u), Advance(u)]);
            && !Present(s', tag)
            && Live(tag) !in Recovered(s', pass).images
  {
    var failed := Next(s, Fail(u));
    assert failed == s.(pulls := s.pulls[u := s.pulls[u].(pc := DropBackup)]);
    var gone := Next(failed, Advance(u));
    assert gone.images == s.images - {Backup(tag, u)};
    TwoEvents(s, Fail(u), Advance(u));
    AbsentStaysAbsent(gone.images, pass.images, pass.stuckImages, tag);
  }

  lemma TwoEvents(s: State, a: Event, b: Event)
    ensures Run(s, [a, b]) == Next(Next(s, a), b)
  {
    hide Next;
    assert [a, b][1..] == [b];
    assert [b][1..] == [];
    assert Run(Next(s, a), [b]) == Run(Next(Next(s, a), b), []);
  }

  // ---------- a leftover backup ----------

  function Leftover(tag: Tag, ref: string): map<ImageName, ImageDir> {
    map[Backup(tag, 1) := Output(0, Again(tag, ref), true).(torn := true), Live(tag) := Output(1, Again(tag, ref), true)]
  }

  /** The second pull publishes, and the removal of its backup stops half way. */
  lemma RemovalStops(tag: Tag, ref: string)
    ensures Next(Next(Next(Aside(tag, ref), Advance(1)), Tear(1, false, false)), GiveUp(1)) == AfterLeftover(tag, ref)
  {
    var order := Again(tag, ref);
    var s := Aside(tag, ref);
    Publishes(s, 1, s.pulls[1]);
    var s1 := Next(s, Advance(1));
    var p := Pull(order, DropBackup, 0, 0);
    assert s1.pulls == map[1 := p];
    TearsBackup(s1, 1, p);
    var torn := s1.images[Backup(tag, 1) := With(s1.images[Backup(tag, 1)], Damage)];
    assert torn == Leftover(tag, ref);
    assert s1.pulls - {1} == map[];
  }

  lemma TearsBackup(s: State, u: Uid, p: Pull)
    requires u in s.pulls && s.pulls[u] == p && p.pc.DropBackup? && Backup(p.order.tag, u) in s.images
    ensures var n := Backup(p.order.tag, u);
            Next(Next(s, Tear(u, false, false)), GiveUp(u)) ==
            s.(images := s.images[n := With(s.images[n], Damage)], pulls := s.pulls - {u})
  {
    hide With;
    var n := Backup(p.order.tag, u);
    var s1 := Next(s, Tear(u, false, false));
    assert s1.pulls == s.pulls[u := p];
    assert s1.images == s.images[n := With(s.images[n], Damage)];
    assert s1.pulls - {u} == s.pulls - {u};
  }

  function AfterLeftover(tag: Tag, ref: string): State {
    State(Leftover(tag, ref), map[], map[], map[0 := Again(tag, ref), 1 := Again(tag, ref)])
  }

  lemma ThirdBuilds(tag: Tag, ref: string)
    ensures var s := Advances(Advances(Next(AfterLeftover(tag, ref), Start(2, Again(tag, ref))), 2, 7), 2, 1);
            && Sound(s, tag) && AtPc(s, 2, tag, MoveOld) && Live(tag) in s.images
            && Backup(tag, 1) in s.images && s.images[Backup(tag, 1)].torn
  {
    hide Next, Advances, Sound, Output;
    var order := Again(tag, ref);
    StartsAndBuilds(AfterLeftover(tag, ref), 2, order);
    var s1 := Built(AfterLeftover(tag, ref), 2, order);
    MovesAside(s1, 2, Pull(order, LiveTest, 0, 0));
    LeftoverIsSound(s1.(pulls := s1.pulls[2 := Pull(order, MoveOld, 0, 0)]), tag, ref);
  }

  /** A third pull of the tag comes to where `LeftoverBackupIsShown` starts. */
  lemma LeftoverIsReached(tag: Tag, ref: string) returns (events: seq<Event>)
    ensures var s := Run(EMPTY, events);
            && Sound(s, tag) && AtPc(s, 2, tag, MoveOld) && Live(tag) in s.images
            && Backup(tag, 1) in s.images && s.images[Backup(tag, 1)].torn
  {
    hide *;
    var second := SecondMovesAside(tag, ref);
    RemovalStops(tag, ref);
    RunAppend(EMPTY, second, Advance(1));
    RunAppend(EMPTY, second + [Advance(1)], Tear(1, false, false));
    RunAppend(EMPTY, second + [Advance(1)] + [Tear(1, false, false)], GiveUp(1));
    ThirdBuilds(tag, ref);
    events := StartAndGo(second + [Advance(1)] + [Tear(1, false, false)] + [GiveUp(1)], 2, Again(tag, ref), 7);
    RunSteps(EMPTY, events, 2, 1);
    events := events + Steps(2, 1);
  }

  lemma LeftoverIsSound(s: State, tag: Tag, ref: string)
    requires Live(tag) in s.images && s.images[Live(tag)] == Output(1, Again(tag, ref), true)
    requires 1 in s.started && s.started[1] == Again(tag, ref)
    ensures Sound(s, tag)
  {
  }

  /**
   * A backup that an earlier clean-up left half deleted: once the next pull of the tag has moved the
   * live directory aside, a crash and some listing order make the damaged directory the tag.
   */
  lemma LeftoverBackupIsShown(s: State, u: Uid, v: Uid, tag: Tag) returns (listing: seq<ImageName>)
    requires AtPc(s, u, tag, MoveOld) && Live(tag) in s.images
    requires u != v && Backup(tag, v) in s.images && s.images[Backup(tag, v)].torn
    ensures var s' := Next(s, Advance(u));
            var r := Recovered(s', Pass(listing, [], {}, {}));
            IsListing(listing, s'.images.Keys) && Live(tag) in r.images && r.images[Live(tag)].torn
  {
    var s' := Next(s, Advance(u));
    assert s'.images == (s.images - {Live(tag)})[Backup(tag, u) := s.images[Live(tag)]];
    var rest := SomeListing(s'.images.Keys - {Backup(tag, v)});
    listing := [Backup(tag, v)] + rest;
    FirstBackupWins(s'.images, tag, v, rest);
  }

  // ---------- two pulls of one layer ----------

  /** At `ClearTest` of layer x, the first layer of this order. */
  predicate AtClearTest(s: State, u: Uid, order: Order, x: Digest) {
    u in s.pulls && s.pulls[u] == Pull(order, ClearTest, 0, 0) && order.layers == [x]
  }

  lemma ComesToClearTest(s: State, u: Uid, order: Order, x: Digest)
    requires u in s.pulls && s.pulls[u] == Pull(order, MakeStage, 0, 0) && order.layers == [x] && !LayerExists(s.layers, x)
    ensures Advances(s, u, 5) == Holding(s, u, Pull(order, ClearTest, 0, 0), ConfigOnly(u, order))
  {
    ComesToLayers(s, u, order);
    var d := ConfigOnly(u, order);
    GoesOn(s, u, Pull(order, NextLayer, 0, 0), d, To(Fetch));
    FetchesAndLooks(s, u, order, x, d);
    hide Next, Holding;
    assert Advances(s, u, 3) == Next(Advances(s, u, 2), Advance(u));
    assert Advances(s, u, 4) == Next(Advances(s, u, 3), Advance(u));
    assert Advances(s, u, 5) == Next(Advances(s, u, 4), Advance(u));
  }

  lemma FetchesAndLooks(s: State, u: Uid, order: Order, x: Digest, d: ImageDir)
    requires order.layers == [x] && !LayerExists(s.layers, x)
    ensures Next(Holding(s, u, Pull(order, Fetch, 0, 0), d), Advance(u)) == Holding(s, u, Pull(order, Recheck, 0, 0), d)
    ensures Next(Holding(s, u, Pull(order, Recheck, 0, 0), d), Advance(u)) == Holding(s, u, Pull(order, ClearTest, 0, 0), d)
  {
    hide LayerExists;
    forall pc: Pc, pc': Pc | pc.Fetch? || pc.Recheck?
      ensures s.pulls[u := Pull(order, pc, 0, 0)][u := Pull(order, pc', 0, 0)] == s.pulls[u := Pull(order, pc', 0, 0)]
    {
    }
  }

  lemma BothComeToClearTest(a: Order, b: Order, x: Digest)
    requires a.layers == [x] && b.layers == [x] && a.tag != b.tag
    ensures Advances(Next(Advances(Next(EMPTY, Start(1, a)), 1, 5), Start(2, b)), 2, 5) == Race(a, b)
  {
    var s1 := Next(EMPTY, Start(1, a));
    assert s1 == State(map[], map[], map[1 := Pull(a, MakeStage, 0, 0)], map[1 := a]);
    ComesToClearTest(s1, 1, a, x);
    var s2 := Holding(s1, 1, Pull(a, ClearTest, 0, 0), ConfigOnly(1, a));
    assert s2 == State(map[Stage(a.tag, 1) := ConfigOnly(1, a)], map[], map[1 := Pull(a, ClearTest, 0, 0)], map[1 := a]);
    SecondComesToClearTest(s2, a, b, x);
  }

  lemma SecondComesToClearTest(s: State, a: Order, b: Order, x: Digest)
    requires a.layers == [x] && b.layers == [x] && a.tag != b.tag
    requires s == State(map[Stage(a.tag, 1) := ConfigOnly(1, a)], map[], map[1 := Pull(a, ClearTest, 0, 0)], map[1 := a])
    ensures Advances(Next(s, Start(2, b)), 2, 5) == Race(a, b)
  {
    var s1 := Next(s, Start(2, b));
    assert s1 == s.(pulls := map[1 := Pull(a, ClearTest, 0, 0), 2 := Pull(b, MakeStage, 0, 0)], started := map[1 := a, 2 := b]);
    hide Next, Advances, ConfigOnly;
    ComesToClearTest(s1, 2, b, x);
    RaceAt(s1, a, b);
  }

  lemma RaceAt(s: State, a: Order, b: Order)
    requires s == State(map[Stage(a.tag, 1) := ConfigOnly(1, a)], map[],
                        map[1 := Pull(a, ClearTest, 0, 0), 2 := Pull(b, MakeStage, 0, 0)], map[1 := a, 2 := b])
    ensures Holding(s, 2, Pull(b, ClearTest, 0, 0), ConfigOnly(2, b)) == Race(a, b)
  {
    hide ConfigOnly;
    var s2 := Holding(s, 2, Pull(b, ClearTest, 0, 0), ConfigOnly(2, b));
    assert s2.images == Race(a, b).images;
    assert s2.pulls == Race(a, b).pulls;
  }

  /** Two pulls of different tags with the same missing layer both come to `ClearTest`. */
  lemma RaceIsReached(a: Order, b: Order, x: Digest) returns (events: seq<Event>)
    requires a.layers == [x] && b.layers == [x] && a.tag != b.tag
    ensures Run(EMPTY, events) == Race(a, b)
    ensures AtClearTest(Run(EMPTY, events), 1, a, x) && AtClearTest(Run(EMPTY, events), 2, b, x)
    ensures Run(EMPTY, events).layers == map[] && Calm(events)
  {
    hide Next, Advances, Run;
    BothComeToClearTest(a, b, x);
    NothingRun();
    var first := StartAndGo([], 1, a, 5);
    events := StartAndGo(first, 2, b, 5);
  }

  function Race(a: Order, b: Order): State {
    State(map[Stage(a.tag, 1) := ConfigOnly(1, a), Stage(b.tag, 2) := ConfigOnly(2, b)], map[],
          map[1 := Pull(a, ClearTest, 0, 0), 2 := Pull(b, ClearTest, 0, 0)], map[1 := a, 2 := b])
  }

  /**
   * Two pulls that both found a layer missing: the second deletes the directory the first has just
   * published, although the first already counts on it.
   */
  lemma RaceClearsLayer(s: State, u: Uid, v: Uid, x: Digest)
    requires u != v && u in s.pulls && v in s.pulls
    requires s.pulls[u].pc.ClearTest? && s.pulls[v].pc.ClearTest?
    requires s.pulls[u].next < |s.pulls[u].order.layers| && s.pulls[u].order.layers[s.pulls[u].next] == x
    requires s.pulls[v].next < |s.pulls[v].order.layers| && s.pulls[v].order.layers[s.pulls[v].next] == x
    requires Published(x) !in s.layers
    ensures var first := Advances(s, u, 5);
            var second := Advances(first, v, 2);
            && LayerExists(first.layers, x) && u in first.pulls && PullUses(first.pulls[u], x)
            && ClearsComplete(Advances(first, v, 1), v, x)
            && !LayerExists(second.layers, x) && u in second.pulls && PullUses(second.pulls[u], x)
  {
    hide LayerExists, PullUses;
    FirstPublishes(s, u, x);
    var first := Advances(s, u, 5);
    OthersWait(s, u, v, 5);
    SecondClears(first, v, x);
    OthersWait(first, v, u, 2);
  }

  lemma {:induction false} OthersWait(s: State, u: Uid, v: Uid, n: nat)
    requires u != v && v in s.pulls
    ensures v in Advances(s, u, n).pulls && Advances(s, u, n).pulls[v] == s.pulls[v]
  {
    if n > 0 {
      OthersWait(s, u, v, n - 1);
      OneWaits(Advances(s, u, n - 1), u, v);
    }
  }

  lemma OneWaits(s: State, u: Uid, v: Uid)
    requires u != v && v in s.pulls
    ensures v in Next(s, Advance(u)).pulls && Next(s, Advance(u)).pulls[v] == s.pulls[v]
  {
    if u in s.pulls {
      hide Perform, PerformLayer, BuildAction, PublishAction, LayerActionOf;
    }
  }

  /** One step on a layer, seen from the pull and from the cache. */
  lemma LayerMove(s: State, u: Uid, x: Digest)
    requires u in s.pulls && IsLayerPc(s.pulls[u].pc)
    requires s.pulls[u].next < |s.pulls[u].order.layers| && s.pulls[u].order.layers[s.pulls[u].next] == x
    ensures var p := s.pulls[u];
            var s', a := Next(s, Advance(u)), LayerActionOf(s.layers, u, p.pc, x);
            && s'.layers == PerformLayer(s.layers, a.op) && s'.images == s.images && s'.started == s.started
            && (!a.after.Over? ==> s'.pulls == s.pulls[u := Moved(p, a.after)])
  {
    hide PerformLayer, LayerActionOf, Moved;
  }

  lemma FirstUnpacks(s: State, u: Uid, x: Digest)
    requires u in s.pulls && s.pulls[u].pc == ClearTest
    requires s.pulls[u].next < |s.pulls[u].order.layers| && s.pulls[u].order.layers[s.pulls[u].next] == x
    requires Published(x) !in s.layers
    ensures var s2 := Next(Next(s, Advance(u)), Advance(u));
            u in s2.pulls && s2.pulls[u] == s.pulls[u].(pc := Unpack) && Published(x) !in s2.layers
  {
    hide Next;
    LayerMove(s, u, x);
    LayerMove(Next(s, Advance(u)), u, x);
  }

  lemma FirstPublishes(s: State, u: Uid, x: Digest)
    requires u in s.pulls && s.pulls[u].pc == ClearTest
    requires s.pulls[u].next < |s.pulls[u].order.layers| && s.pulls[u].order.layers[s.pulls[u].next] == x
    requires Published(x) !in s.layers
    ensures var first := Advances(s, u, 5);
            LayerExists(first.layers, x) && u in first.pulls && PullUses(first.pulls[u], x)
  {
    hide Next, Advances;
    var p := s.pulls[u];
    FirstUnpacks(s, u, x);
    var s2 := Next(Next(s, Advance(u)), Advance(u));
    LayerMove(s2, u, x);
    var s3 := Next(s2, Advance(u));
    LayerMove(s3, u, x);
    var s4 := Next(s3, Advance(u));
    LayerMove(s4, u, x);
    assert p.order.layers[..p.next + 1][p.next] == x;
    NoneYet(s, u);
    FiveMore(s, u, 0);
  }

  lemma NoneYet(s: State, u: Uid)
    ensures Advances(s, u, 0) == s
  {
  }

  lemma SecondClears(s: State, v: Uid, x: Digest)
    requires v in s.pulls && s.pulls[v].pc == ClearTest
    requires s.pulls[v].next < |s.pulls[v].order.layers| && s.pulls[v].order.layers[s.pulls[v].next] == x
    requires LayerExists(s.layers, x)
    ensures ClearsComplete(Advances(s, v, 1), v, x)
    ensures !LayerExists(Advances(s, v, 2).layers, x)
  {
    var s1 := Next(s, Advance(v));
    assert Advances(s, v, 0) == s;
    assert Advances(s, v, 1) == s1;
    assert s1.pulls[v] == s.pulls[v].(pc := Clear) && s1.layers == s.layers;
    assert Advances(s, v, 2) == Next(s1, Advance(v));
  }

  // ---------- a partial image that passes for complete ----------

  function FullLayer(x: Digest): LayerDir {
    LayerDir(true, true, Some(x))
  }

  /** The store with pull u at p and this cache. */
  function AtLayer(s: State, u: Uid, p: Pull, layers: map<LayerName, LayerDir>): State {
    s.(layers := layers, pulls := s.pulls[u := p])
  }

  lemma LayerGoes(s: State, u: Uid, p: Pull, layers: map<LayerName, LayerDir>, x: Digest)
    requires IsLayerPc(p.pc) && p.next < |p.order.layers| && p.order.layers[p.next] == x
    requires !LayerActionOf(layers, u, p.pc, x).after.Over?
    ensures var a := LayerActionOf(layers, u, p.pc, x);
            Next(AtLayer(s, u, p, layers), Advance(u)) == AtLayer(s, u, Moved(p, a.after), PerformLayer(layers, a.op))
  {
    hide PerformLayer, LayerActionOf, Moved;
    var a := LayerActionOf(layers, u, p.pc, x);
    assert s.pulls[u := p][u := Moved(p, a.after)] == s.pulls[u := Moved(p, a.after)];
  }

  /** The cache while the layer is unpacked. */
  function Tmp(layers: map<LayerName, LayerDir>, u: Uid, x: Digest, d: LayerDir): map<LayerName, LayerDir> {
    layers[Unpacking(x, u) := d]
  }

  lemma UnpackMoves(layers: map<LayerName, LayerDir>, u: Uid, x: Digest)
    requires Published(x) !in layers && Unpacking(x, u) !in layers
    ensures var made, full := Tmp(layers, u, x, LayerDir(true, false, None)), Tmp(layers, u, x, LayerDir(true, true, None));
            var done := Tmp(layers, u, x, FullLayer(x));
            && PerformLayer(layers, LayerActionOf(layers, u, MakeTmp, x).op) == made
            && PerformLayer(made, LayerActionOf(made, u, Unpack, x).op) == full
            && PerformLayer(full, LayerActionOf(full, u, WriteMeta, x).op) == done
            && PerformLayer(done, LayerActionOf(done, u, PublishLayer, x).op) == layers[Published(x) := FullLayer(x)]
            && LayerActionOf(done, u, PublishLayer, x).after == LayerDone
  {
    hide LayerExists;
  }

  lemma UnpackPcs(layers: map<LayerName, LayerDir>, u: Uid, x: Digest)
    ensures LayerActionOf(layers, u, MakeTmp, x).after == To(Unpack)
    ensures LayerActionOf(layers, u, Unpack, x).after == To(WriteMeta)
    ensures LayerActionOf(layers, u, WriteMeta, x).after == To(PublishLayer)
  {
    hide LayerExists;
  }

  /** Four steps unpack and publish a missing layer. */
  lemma Unpacks(s: State, u: Uid, order: Order, x: Digest, layers: map<LayerName, LayerDir>)
    requires order.layers == [x] && Published(x) !in layers && Unpacking(x, u) !in layers
    ensures Advances(AtLayer(s, u, Pull(order, MakeTmp, 0, 0), layers), u, 4) ==
            AtLayer(s, u, Pull(order, NextLayer, 1, 0), layers[Published(x) := FullLayer(x)])
  {
    hide Next, Advances, AtLayer, PerformLayer, LayerActionOf, Tmp;
    var made, full := Tmp(layers, u, x, LayerDir(true, false, None)), Tmp(layers, u, x, LayerDir(true, true, None));
    var done := Tmp(layers, u, x, FullLayer(x));
    UnpackMoves(layers, u, x);
    UnpackPcs(layers, u, x);
    UnpackPcs(made, u, x);
    UnpackPcs(full, u, x);
    LayerGoes(s, u, Pull(order, MakeTmp, 0, 0), layers, x);
    LayerGoes(s, u, Pull(order, Unpack, 0, 0), made, x);
    LayerGoes(s, u, Pull(order, WriteMeta, 0, 0), full, x);
    LayerGoes(s, u, Pull(order, PublishLayer, 0, 0), done, x);
    FourAdvances(AtLayer(s, u, Pull(order, MakeTmp, 0, 0), layers), u);
  }

  lemma FourAdvances(s: State, u: Uid)
    ensures Advances(s, u, 4) == Next(Next(Next(Next(s, Advance(u)), Advance(u)), Advance(u)), Advance(u))
  {
    hide Next;
    assert Advances(s, u, 0) == s;
    assert Advances(s, u, 1) == Next(s, Advance(u));
    assert Advances(s, u, 2) == Next(Advances(s, u, 1), Advance(u));
    assert Advances(s, u, 3) == Next(Advances(s, u, 2), Advance(u));
  }

  /** Finding nothing to clear, and clearing what another pull has left. */
  lemma GoesToUnpack(s: State, u: Uid, order: Order, x: Digest)
    requires order.layers == [x] && u in s.pulls && Unpacking(x, u) !in s.layers
    requires || (s.pulls[u] == Pull(order, ClearTest, 0, 0) && Published(x) !in s.layers)
             || s.pulls[u] == Pull(order, Clear, 0, 0)
    ensures Advances(s, u, 5) ==
            AtLayer(s, u, Pull(order, NextLayer, 1, 0), s.layers[Published(x) := FullLayer(x)])
  {
    ComesToUnpack(s, u, order, x);
    hide Next, Advances, AtLayer;
    Unpacks(s, u, order, x, s.layers - {Published(x)});
    AdvancesFrom(s, u, 4);
    assert (s.layers - {Published(x)})[Published(x) := FullLayer(x)] == s.layers[Published(x) := FullLayer(x)];
  }

  lemma ComesToUnpack(s: State, u: Uid, order: Order, x: Digest)
    requires order.layers == [x] && u in s.pulls
    requires || (s.pulls[u] == Pull(order, ClearTest, 0, 0) && Published(x) !in s.layers)
             || s.pulls[u] == Pull(order, Clear, 0, 0)
    ensures Next(s, Advance(u)) == AtLayer(s, u, Pull(order, MakeTmp, 0, 0), s.layers - {Published(x)})
  {
    LayerMove(s, u, x);
  }

  lemma ListsOne(s: State, u: Uid, order: Order, x: Digest)
    requires order.layers == [x]
    ensures Next(Next(Holding(s, u, Pull(order, NextLayer, 1, 0), ConfigOnly(u, order)), Advance(u)), Advance(u)) ==
            Holding(s, u, Pull(order, Merge, 1, 0), Listed(u, order))
  {
    hide Next, Holding;
    GoesOn(s, u, Pull(order, NextLayer, 1, 0), ConfigOnly(u, order), To(WriteManifest));
    WritesOn(s, u, Pull(order, WriteManifest, 1, 0), ConfigOnly(u, order), ManifestFile, To(Merge));
  }

  lemma TestsOne(s: State, u: Uid, order: Order, x: Digest)
    requires order.layers == [x] && TreeExists(s.layers, x)
    ensures Next(Next(Holding(s, u, Pull(order, Merge, 1, 0), Listed(u, order)), Advance(u)), Advance(u)) ==
            Holding(s, u, Pull(order, MergeCopy, 1, 0), Rooted(u, order))
  {
    hide Next, Holding;
    WritesOn(s, u, Pull(order, Merge, 1, 0), Listed(u, order), RootTree, To(MergeTest));
    GoesOn(s, u, Pull(order, MergeTest, 1, 0), Rooted(u, order), To(MergeCopy));
  }

  /** With its one layer in the cache a pull goes on to merge it. */
  lemma ComesToMerge(s: State, u: Uid, order: Order, x: Digest)
    requires order.layers == [x] && TreeExists(s.layers, x)
    ensures Advances(Holding(s, u, Pull(order, NextLayer, 1, 0), ConfigOnly(u, order)), u, 4) ==
            Holding(s, u, Pull(order, MergeCopy, 1, 0), Rooted(u, order))
  {
    hide *;
    ListsOne(s, u, order, x);
    TestsOne(s, u, order, x);
    FourAdvances(Holding(s, u, Pull(order, NextLayer, 1, 0), ConfigOnly(u, order)), u);
  }

  function PartMerged(u: Uid, order: Order): ImageDir {
    Listed(u, order).(rootfs := Merged(order.layers, false))
  }

  lemma ReadsPart(s: State, u: Uid, order: Order, x: Digest)
    requires order.layers == [x] && !TreeFilled(s.layers, x)
    ensures Next(Holding(s, u, Pull(order, MergeCopy, 1, 0), Rooted(u, order)), Advance(u)) ==
            Holding(s, u, Pull(order, MergeTest, 1, 1), PartMerged(u, order))
  {
    hide Next, Holding, TreeFilled;
    assert [] + [x] == [x];
    WritesOn(s, u, Pull(order, MergeCopy, 1, 0), Rooted(u, order), RestOfLayer(x, false), LayerMerged);
  }

  lemma EndsMerge(s: State, u: Uid, order: Order, x: Digest)
    requires order.layers == [x]
    ensures Next(Next(Holding(s, u, Pull(order, MergeTest, 1, 1), PartMerged(u, order)), Advance(u)), Advance(u)) ==
            Holding(s, u, Pull(order, LiveTest, 1, 1), Output(u, order, false))
  {
    hide Next, Holding;
    GoesOn(s, u, Pull(order, MergeTest, 1, 1), PartMerged(u, order), To(WriteRef));
    WritesOn(s, u, Pull(order, WriteRef, 1, 1), PartMerged(u, order), RefFile(order.ref), To(LiveTest));
  }

  /** Reading a layer that is not all there, and finishing the stage with what was read. */
  lemma MergesPart(s: State, u: Uid, order: Order, x: Digest)
    requires order.layers == [x] && !TreeFilled(s.layers, x)
    ensures Advances(Holding(s, u, Pull(order, MergeCopy, 1, 0), Rooted(u, order)), u, 3) ==
            Holding(s, u, Pull(order, LiveTest, 1, 1), Output(u, order, false))
  {
    hide *;
    ReadsPart(s, u, order, x);
    EndsMerge(s, u, order, x);
    ThreeAdvances(Holding(s, u, Pull(order, MergeCopy, 1, 0), Rooted(u, order)), u);
  }

  lemma ThreeAdvances(s: State, u: Uid)
    ensures Advances(s, u, 3) == Next(Next(Next(s, Advance(u)), Advance(u)), Advance(u))
  {
    hide Next;
    assert Advances(s, u, 0) == s;
    assert Advances(s, u, 1) == Next(s, Advance(u));
    assert Advances(s, u, 2) == Next(Advances(s, u, 1), Advance(u));
  }

  /** Two pulls of one layer: the stages, the cache and where the two are. */
  function Pair(a: Order, b: Order, dir: ImageDir, layers: map<LayerName, LayerDir>, p: Pull, q: Pull): State {
    State(map[Stage(a.tag, 1) := dir, Stage(b.tag, 2) := ConfigOnly(2, b)], layers, map[1 := p, 2 := q], map[1 := a, 2 := b])
  }

  function FullCache(x: Digest): map<LayerName, LayerDir> {
    map[Published(x) := FullLayer(x)]
  }

  function TornCache(x: Digest): map<LayerName, LayerDir> {
    map[Published(x) := LayerDir(true, false, None)]
  }

  /** The first pull publishes the layer; the second, which has seen none, sets out to clear it. */
  lemma FirstUnpacksSecondClears(a: Order, b: Order, x: Digest)
    requires a.layers == [x] && b.layers == [x] && a.tag != b.tag
    ensures Next(Advances(Race(a, b), 1, 5), Advance(2)) ==
            Pair(a, b, ConfigOnly(1, a), FullCache(x), Pull(a, NextLayer, 1, 0), Pull(b, Clear, 0, 0))
  {
    hide ConfigOnly, Advances;
    GoesToUnpack(Race(a, b), 1, a, x);
    var s := Pair(a, b, ConfigOnly(1, a), FullCache(x), Pull(a, NextLayer, 1, 0), Pull(b, ClearTest, 0, 0));
    assert Race(a, b).pulls[1 := Pull(a, NextLayer, 1, 0)] == s.pulls;
    assert Race(a, b).layers[Published(x) := FullLayer(x)] == s.layers;
    assert Advances(Race(a, b), 1, 5) == s;
    LayerMove(s, 2, x);
    assert s.pulls[2 := Pull(b, Clear, 0, 0)] == map[1 := Pull(a, NextLayer, 1, 0), 2 := Pull(b, Clear, 0, 0)];
  }

  /** The first pull comes to its merge, and the second has removed part of the layer. */
  lemma FirstMergesSecondTears(a: Order, b: Order, x: Digest)
    requires a.layers == [x] && b.layers == [x] && a.tag != b.tag
    ensures var s := Pair(a, b, ConfigOnly(1, a), FullCache(x), Pull(a, NextLayer, 1, 0), Pull(b, Clear, 0, 0));
            Next(Advances(s, 1, 4), Tear(2, true, false)) ==
            Pair(a, b, Rooted(1, a), TornCache(x), Pull(a, MergeCopy, 1, 0), Pull(b, Clear, 0, 0))
  {
    hide ConfigOnly, Rooted, Advances;
    var s := Pair(a, b, ConfigOnly(1, a), FullCache(x), Pull(a, NextLayer, 1, 0), Pull(b, Clear, 0, 0));
    PairAt(a, b, s, ConfigOnly(1, a), Pull(a, NextLayer, 1, 0));
    ComesToMerge(s, 1, a, x);
    PairAt(a, b, s, Rooted(1, a), Pull(a, MergeCopy, 1, 0));
    Tears(a, b, x, Rooted(1, a), Pull(a, MergeCopy, 1, 0));
  }

  lemma PairAt(a: Order, b: Order, s: State, d: ImageDir, p: Pull)
    requires a.tag != b.tag && p.order == a
    requires s.started == map[1 := a, 2 := b] && s.pulls.Keys == {1, 2}
    requires s.images.Keys == {Stage(a.tag, 1), Stage(b.tag, 2)} && s.images[Stage(b.tag, 2)] == ConfigOnly(2, b)
    ensures Holding(s, 1, p, d) == Pair(a, b, d, s.layers, p, s.pulls[2])
  {
    hide ConfigOnly;
    assert Holding(s, 1, p, d).images == Pair(a, b, d, s.layers, p, s.pulls[2]).images;
    assert Holding(s, 1, p, d).pulls == map[1 := p, 2 := s.pulls[2]];
  }

  lemma Tears(a: Order, b: Order, x: Digest, d: ImageDir, p: Pull)
    requires b.layers == [x] && a.tag != b.tag
    ensures var q := Pull(b, Clear, 0, 0);
            Next(Pair(a, b, d, FullCache(x), p, q), Tear(2, true, false)) == Pair(a, b, d, TornCache(x), p, q)
  {
    hide ConfigOnly;
    var q := Pull(b, Clear, 0, 0);
    var s := Pair(a, b, d, FullCache(x), p, q);
    assert TornLayers(s.layers, 2, q, Tear(2, true, false)) == TornCache(x);
    assert s.pulls[2 := q] == s.pulls;
  }

  /** The first pull publishes what it has merged, and the second completes the layer again. */
  lemma BothFinish(a: Order, b: Order, x: Digest)
    requires a.layers == [x] && b.layers == [x] && a.tag != b.tag
    ensures var s := Pair(a, b, Rooted(1, a), TornCache(x), Pull(a, MergeCopy, 1, 0), Pull(b, Clear, 0, 0));
            var t := Advances(Advances(Advances(s, 1, 3), 1, 3), 2, 5);
            && Live(a.tag) in t.images && t.images[Live(a.tag)] == Output(1, a, false)
            && t.layers == FullCache(x) && t.started == map[1 := a, 2 := b]
  {
    hide ConfigOnly, Rooted, Output, Advances;
    var q := Pull(b, Clear, 0, 0);
    var s := Pair(a, b, Rooted(1, a), TornCache(x), Pull(a, MergeCopy, 1, 0), q);
    PairAt(a, b, s, Rooted(1, a), Pull(a, MergeCopy, 1, 0));
    MergesPart(s, 1, a, x);
    var p := Pull(a, LiveTest, 1, 1);
    PairAt(a, b, s, Output(1, a, false), p);
    var s1 := Pair(a, b, Output(1, a, false), TornCache(x), p, q);
    PublishesFirst(s1, 1, p);
    var s2 := Advances(s1, 1, 3);
    GoesToUnpack(s2, 2, b, x);
    assert s2.layers[Published(x) := FullLayer(x)] == FullCache(x);
  }

  lemma CalmParts()
    ensures Calm(Steps(1, 5)) && Calm(Steps(1, 4)) && Calm(Steps(1, 3)) && Calm(Steps(2, 5))
  {
    CalmSteps(1, 5);
    CalmSteps(1, 4);
    CalmSteps(1, 3);
    CalmSteps(2, 5);
  }

  /**
   * From the empty store, with one pull of each of two references that share a layer and no crash: the
   * second pull removes the layer while the first reads it, and the image of the first is then complete
   * by `_image_dir_complete`, with all its layers in the cache, although its rootfs holds only part of them.
   */
  lemma PartialImagePassesForComplete(a: Order, b: Order, x: Digest) returns (events: seq<Event>)
    requires a.layers == [x] && b.layers == [x] && a.tag != b.tag && CleanTag(a.tag)
    ensures var s := Run(EMPTY, events);
            && ImageComplete(s, a.tag, a.ref)
            && !Genuine(s.started, a.tag, s.images[Live(a.tag)])
            && s.images[Live(a.tag)].rootfs == Merged([x], false)
    ensures Calm(events)
  {
    hide Next, Advances, Run, Race, Pair, CleanTag, Steps;
    CalmParts();
    FirstUnpacksSecondClears(a, b, x);
    FirstMergesSecondTears(a, b, x);
    BothFinish(a, b, x);
    events := RaceIsReached(a, b, x);
    RunSteps(EMPTY, events, 1, 5);
    RunAppend(EMPTY, events + Steps(1, 5), Advance(2));
    events := events + Steps(1, 5) + [Advance(2)];
    RunSteps(EMPTY, events, 1, 4);
    RunAppend(EMPTY, events + Steps(1, 4), Tear(2, true, false));
    events := events + Steps(1, 4) + [Tear(2, true, false)];
    RunSteps(EMPTY, events, 1, 3);
    RunSteps(EMPTY, events + Steps(1, 3), 1, 3);
    RunSteps(EMPTY, events + Steps(1, 3) + Steps(1, 3), 2, 5);
    events := events + Steps(1, 3) + Steps(1, 3) + Steps(2, 5);
  }
}
