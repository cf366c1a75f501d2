/**
 * The project metadata index: eleven tables with their keys, CHECKs, UNIQUE
 * pairs and ON DELETE actions, changed by INSERT, UPDATE and DELETE statements.
 */
module MetadataIndex {
  import opened Options
  import opened Text

  type Id = string

  // ---------- rows ----------

  datatype Meta = Meta(version: int, build: string, created: int)
  datatype Snapshot = Snapshot(kind: string, version: int, created: int, manifest: string)
  datatype Project = Project(name: string, root: string, created: int, updated: int, archived: Option<int>)
  datatype ComposeFile = ComposeFile(project: Id, path: string, hash: string, discovered: int)
  datatype Service = Service(file: Id, project: Id, name: string, hash: string)
  datatype Image = Image(digest: string, tags: string, rootfs: Option<string>, source: string, indexed: int)
  datatype Layer = Layer(image: Id, diffId: Option<string>, path: string, size: Option<int>, ordinal: int)
  datatype Container = Container(
    project: Option<Id>, service: Option<Id>, image: Option<Id>, upper: Option<string>, mode: string,
    hash: string, indexed: int)
  datatype Volume = Volume(project: Option<Id>, name: string, path: string, hash: string, created: int)
  datatype Job = Job(project: Option<Id>, kind: string, state: string, created: int, updated: int)
  datatype Overlay = Overlay(
    container: Id, guest: string, lowerImage: Option<Id>, lowerLayer: Option<Id>, lowerSource: Option<string>,
    upper: Option<string>, whiteout: int, opaqueDir: int, size: Option<int>, evidence: string, scanned: int)

  datatype Db = Db(
    meta: map<int, Meta>,
    snapshots: map<Id, Snapshot>,
    projects: map<Id, Project>,
    files: map<Id, ComposeFile>,
    services: map<Id, Service>,
    images: map<Id, Image>,
    layers: map<Id, Layer>,
    containers: map<Id, Container>,
    volumes: map<Id, Volume>,
    jobs: map<Id, Job>,
    overlays: map<Id, Overlay>)

  const EMPTY := Db(map[], map[], map[], map[], map[], map[], map[], map[], map[], map[], map[])

  // ---------- CHECK clauses ----------

  /** `value LIKE 'prefix%'`: ASCII letters compare without case. */
  predicate HasPrefix(value: string, prefix: string) {
    StartsWith(Lower(value), prefix)
  }

  predicate MetaOk(id: int, row: Meta) {
    id == 1 && row.version == 1 && row.created > 0
  }

  predicate SnapshotOk(id: Id, row: Snapshot) {
    |id| >= 32 && row.kind in ["primary", "replica", "rebuild"] && row.version == 1 && row.created > 0 && |row.manifest| > 2
  }

  predicate ProjectOk(id: Id, row: Project) {
    |id| >= 32 && |row.name| > 0 && HasPrefix(row.root, "projects/") && row.created > 0 && row.updated >= row.created
  }

  predicate FileOk(id: Id, row: ComposeFile) {
    |id| >= 32 && !StartsWith(row.path, "/") && |row.hash| >= 16 && row.discovered > 0
  }

  predicate ServiceOk(id: Id, row: Service) {
    |id| >= 32 && |row.name| > 0 && |row.hash| >= 16
  }

  predicate ImageOk(id: Id, row: Image) {
    |id| >= 32 && HasPrefix(row.digest, "sha256:") && |row.source| >= 16 && row.indexed > 0
  }

  predicate SizeOk(size: Option<int>) {
    size.None? || size.value >= 0
  }

  predicate LayerOk(id: Id, row: Layer) {
    && HasPrefix(id, "sha256:")
    && (row.diffId.None? || HasPrefix(row.diffId.value, "sha256:"))
    && SizeOk(row.size) && row.ordinal >= 0
  }

  predicate ContainerOk(id: Id, row: Container) {
    |id| >= 12 && row.mode in ["materialized", "cow_bind"] && |row.hash| >= 16 && row.indexed > 0
  }

  predicate VolumeOk(id: Id, row: Volume) {
    |id| >= 32 && |row.name| > 0 && |row.hash| >= 16 && row.created > 0
  }

  predicate JobOk(id: Id, row: Job) {
    && |id| >= 32
    && row.state in ["queued", "running", "succeeded", "failed", "canceled"]
    && row.created > 0 && row.updated >= row.created
  }

  predicate OverlayOk(id: Id, row: Overlay) {
    && |id| >= 32
    && StartsWith(row.guest, "/") && !Contains(row.guest, "/../")
    && 0 <= row.whiteout <= 1 && 0 <= row.opaqueDir <= 1
    && SizeOk(row.size) && |row.evidence| >= 16 && row.scanned > 0
    && (row.upper.Some? || row.lowerSource.Some? || row.whiteout == 1)
  }

  // ---------- what a statement requires of one new row ----------

  predicate Refers(ref: Option<Id>, keys: set<Id>) {
    ref.None? || ref.value in keys
  }

  predicate MetaAccepted(db: Db, id: int, row: Meta) {
    id !in db.meta && MetaOk(id, row)
  }

  predicate SnapshotAccepted(db: Db, id: Id, row: Snapshot) {
    id !in db.snapshots && SnapshotOk(id, row)
  }

  predicate ProjectAccepted(db: Db, id: Id, row: Project) {
    id !in db.projects && ProjectOk(id, row) && forall p | p in db.projects :: db.projects[p].root != row.root
  }

  predicate FileAccepted(db: Db, id: Id, row: ComposeFile) {
    && id !in db.files && FileOk(id, row) && row.project in db.projects
    && forall f | f in db.files :: !(db.files[f].project == row.project && db.files[f].path == row.path)
  }

  predicate ServiceAccepted(db: Db, id: Id, row: Service) {
    && id !in db.services && ServiceOk(id, row) && row.file in db.files && row.project in db.projects
    && forall s | s in db.services :: !(db.services[s].file == row.file && db.services[s].name == row.name)
  }

  predicate ImageAccepted(db: Db, id: Id, row: Image) {
    id !in db.images && ImageOk(id, row) && forall i | i in db.images :: db.images[i].digest != row.digest
  }

  predicate LayerAccepted(db: Db, id: Id, row: Layer) {
    && id !in db.layers && LayerOk(id, row) && row.image in db.images
    && forall l | l in db.layers :: !(db.layers[l].image == row.image && db.layers[l].ordinal == row.ordinal)
  }

  predicate ContainerAccepted(db: Db, id: Id, row: Container) {
    && id !in db.containers && ContainerOk(id, row)
    && Refers(row.project, db.projects.Keys) && Refers(row.service, db.services.Keys) && Refers(row.image, db.images.Keys)
  }

  predicate VolumeAccepted(db: Db, id: Id, row: Volume) {
    && id !in db.volumes && VolumeOk(id, row) && Refers(row.project, db.projects.Keys)
    && forall v | v in db.volumes :: db.volumes[v].path != row.path
  }

  predicate JobAccepted(db: Db, id: Id, row: Job) {
    id !in db.jobs && JobOk(id, row) && Refers(row.project, db.projects.Keys)
  }

  predicate OverlayAccepted(db: Db, id: Id, row: Overlay) {
    && id !in db.overlays && OverlayOk(id, row) && row.container in db.containers
    && Refers(row.lowerImage, db.images.Keys) && Refers(row.lowerLayer, db.layers.Keys)
    && forall o | o in db.overlays :: !(db.overlays[o].container == row.container && db.overlays[o].guest == row.guest)
  }

  // ---------- the integrity of a whole database ----------

  ghost predicate MetaValid(rows: map<int, Meta>) {
    forall id :: id in rows ==> MetaOk(id, rows[id])
  }

  ghost predicate SnapshotsValid(rows: map<Id, Snapshot>) {
    forall id :: id in rows ==> SnapshotOk(id, rows[id])
  }

  ghost predicate ProjectsValid(rows: map<Id, Project>) {
    && (forall id :: id in rows ==> ProjectOk(id, rows[id]))
    && (forall i, j :: i in rows && j in rows && i != j ==> rows[i].root != rows[j].root)
  }

  ghost predicate FilesValid(rows: map<Id, ComposeFile>, projects: set<Id>) {
    && (forall id :: id in rows ==> FileOk(id, rows[id]) && rows[id].project in projects)
    && (forall i, j :: i in rows && j in rows && i != j ==>
          !(rows[i].project == rows[j].project && rows[i].path == rows[j].path))
  }

  ghost predicate ServicesValid(rows: map<Id, Service>, files: set<Id>, projects: set<Id>) {
    && (forall id :: id in rows ==> ServiceOk(id, rows[id]) && rows[id].file in files && rows[id].project in projects)
    && (forall i, j :: i in rows && j in rows && i != j ==> !(rows[i].file == rows[j].file && rows[i].name == rows[j].name))
  }

  ghost predicate ImagesValid(rows: map<Id, Image>) {
    && (forall id :: id in rows ==> ImageOk(id, rows[id]))
    && (forall i, j :: i in rows && j in rows && i != j ==> rows[i].digest != rows[j].digest)
  }

  ghost predicate LayersValid(rows: map<Id, Layer>, images: set<Id>) {
    && (forall id :: id in rows ==> LayerOk(id, rows[id]) && rows[id].image in images)
    && (forall i, j :: i in rows && j in rows && i != j ==>
          !(rows[i].image == rows[j].image && rows[i].ordinal == rows[j].ordinal))
  }

  ghost predicate ContainersValid(rows: map<Id, Container>, projects: set<Id>, services: set<Id>, images: set<Id>) {
    forall id :: id in rows ==>
      && ContainerOk(id, rows[id])
      && Refers(rows[id].project, projects) && Refers(rows[id].service, services) && Refers(rows[id].image, images)
  }

  ghost predicate VolumesValid(rows: map<Id, Volume>, projects: set<Id>) {
    && (forall id :: id in rows ==> VolumeOk(id, rows[id]) && Refers(rows[id].project, projects))
    && (forall i, j :: i in rows && j in rows && i != j ==> rows[i].path != rows[j].path)
  }

  ghost predicate JobsValid(rows: map<Id, Job>, projects: set<Id>) {
    forall id :: id in rows ==> JobOk(id, rows[id]) && Refers(rows[id].project, projects)
  }

  ghost predicate OverlaysValid(rows: map<Id, Overlay>, containers: set<Id>, images: set<Id>, layers: set<Id>) {
    && (forall id :: id in rows ==>
          && OverlayOk(id, rows[id]) && rows[id].container in containers
          && Refers(rows[id].lowerImage, images) && Refers(rows[id].lowerLayer, layers))
    && (forall i, j :: i in rows && j in rows && i != j ==>
          !(rows[i].container == rows[j].container && rows[i].guest == rows[j].guest))
  }

  /** Every CHECK, UNIQUE pair and foreign key holds; primary keys are the map keys. */
  ghost predicate Valid(db: Db) {
    && MetaValid(db.meta)
    && SnapshotsValid(db.snapshots)
    && ProjectsValid(db.projects)
    && FilesValid(db.files, db.projects.Keys)
    && ServicesValid(db.services, db.files.Keys, db.projects.Keys)
    && ImagesValid(db.images)
    && LayersValid(db.layers, db.images.Keys)
    && ContainersValid(db.containers, db.projects.Keys, db.services.Keys, db.images.Keys)
    && VolumesValid(db.volumes, db.projects.Keys)
    && JobsValid(db.jobs, db.projects.Keys)
    && OverlaysValid(db.overlays, db.containers.Keys, db.images.Keys, db.layers.Keys)
  }

  // ---------- one more row in one table ----------

  lemma NewProject(rows: map<Id, Project>, id: Id, row: Project)
    requires ProjectsValid(rows) && id !in rows
    ensures ProjectsValid(rows[id := row]) <==>
              && ProjectOk(id, row)
              && (forall p :: p in rows ==> rows[p].root != row.root)
  {
    hide ProjectOk;
    assert rows[id := row][id] == row;
    assert forall p :: p in rows ==> p in rows[id := row] && rows[id := row][p] == rows[p];
  }

  lemma NewFile(rows: map<Id, ComposeFile>, projects: set<Id>, id: Id, row: ComposeFile)
    requires FilesValid(rows, projects) && id !in rows
    ensures FilesValid(rows[id := row], projects) <==>
              && FileOk(id, row) && row.project in projects
              && (forall f :: f in rows ==> !(rows[f].project == row.project && rows[f].path == row.path))
  {
    hide FileOk;
    assert rows[id := row][id] == row;
    assert forall f :: f in rows ==> f in rows[id := row] && rows[id := row][f] == rows[f];
  }

  lemma NewService(rows: map<Id, Service>, files: set<Id>, projects: set<Id>, id: Id, row: Service)
    requires ServicesValid(rows, files, projects) && id !in rows
    ensures ServicesValid(rows[id := row], files, projects) <==>
              && ServiceOk(id, row) && row.file in files && row.project in projects
              && (forall s :: s in rows ==> !(rows[s].file == row.file && rows[s].name == row.name))
  {
    hide ServiceOk;
    assert rows[id := row][id] == row;
    assert forall s :: s in rows ==> s in rows[id := row] && rows[id := row][s] == rows[s];
  }

  lemma NewImage(rows: map<Id, Image>, id: Id, row: Image)
    requires ImagesValid(rows) && id !in rows
    ensures ImagesValid(rows[id := row]) <==>
              && ImageOk(id, row)
              && (forall i :: i in rows ==> rows[i].digest != row.digest)
  {
    hide ImageOk;
    assert rows[id := row][id] == row;
    assert forall i :: i in rows ==> i in rows[id := row] && rows[id := row][i] == rows[i];
  }

  lemma NewLayer(rows: map<Id, Layer>, images: set<Id>, id: Id, row: Layer)
    requires LayersValid(rows, images) && id !in rows
    ensures LayersValid(rows[id := row], images) <==>
              && LayerOk(id, row) && row.image in images
              && (forall l :: l in rows ==> !(rows[l].image == row.image && rows[l].ordinal == row.ordinal))
  {
    hide LayerOk;
    assert rows[id := row][id] == row;
    assert forall l :: l in rows ==> l in rows[id := row] && rows[id := row][l] == rows[l];
  }

  lemma NewContainer(rows: map<Id, Container>, projects: set<Id>, services: set<Id>, images: set<Id>, id: Id, row: Container)
    requires ContainersValid(rows, projects, services, images) && id !in rows
    ensures ContainersValid(rows[id := row], projects, services, images) <==>
              && ContainerOk(id, row) && Refers(row.project, projects) && Refers(row.service, services) && Refers(row.image, images)
  {
    hide ContainerOk;
    assert rows[id := row][id] == row;
    assert forall c :: c in rows ==> c in rows[id := row] && rows[id := row][c] == rows[c];
  }

  lemma NewVolume(rows: map<Id, Volume>, projects: set<Id>, id: Id, row: Volume)
    requires VolumesValid(rows, projects) && id !in rows
    ensures VolumesValid(rows[id := row], projects) <==>
              && VolumeOk(id, row) && Refers(row.project, projects)
              && (forall v :: v in rows ==> rows[v].path != row.path)
  {
    hide VolumeOk;
    assert rows[id := row][id] == row;
    assert forall v :: v in rows ==> v in rows[id := row] && rows[id := row][v] == rows[v];
  }

  lemma NewJob(rows: map<Id, Job>, projects: set<Id>, id: Id, row: Job)
    requires JobsValid(rows, projects) && id !in rows
    ensures JobsValid(rows[id := row], projects) <==>
              && JobOk(id, row) && Refers(row.project, projects)
  {
    hide JobOk;
    assert rows[id := row][id] == row;
    assert forall j :: j in rows ==> j in rows[id := row] && rows[id := row][j] == rows[j];
  }

  lemma NewOverlay(rows: map<Id, Overlay>, containers: set<Id>, images: set<Id>, layers: set<Id>, id: Id, row: Overlay)
    requires OverlaysValid(rows, containers, images, layers) && id !in rows
    ensures OverlaysValid(rows[id := row], containers, images, layers) <==>
              && OverlayOk(id, row) && row.container in containers && Refers(row.lowerImage, images) && Refers(row.lowerLayer, layers)
              && (forall o :: o in rows ==> !(rows[o].container == row.container && rows[o].guest == row.guest))
  {
    hide OverlayOk;
    assert rows[id := row][id] == row;
    assert forall o :: o in rows ==> o in rows[id := row] && rows[id := row][o] == rows[o];
  }

  lemma FilesGrow(rows: map<Id, ComposeFile>, projects: set<Id>, more: set<Id>)
    requires FilesValid(rows, projects) && projects <= more
    ensures FilesValid(rows, more)
  {
    hide FileOk;
  }

  lemma ServicesGrow(rows: map<Id, Service>, files: set<Id>, projects: set<Id>, moreFiles: set<Id>, moreProjects: set<Id>)
    requires ServicesValid(rows, files, projects) && files <= moreFiles && projects <= moreProjects
    ensures ServicesValid(rows, moreFiles, moreProjects)
  {
    hide ServiceOk;
  }

  lemma LayersGrow(rows: map<Id, Layer>, images: set<Id>, more: set<Id>)
    requires LayersValid(rows, images) && images <= more
    ensures LayersValid(rows, more)
  {
    hide LayerOk;
  }

  lemma OverlaysGrow(rows: map<Id, Overlay>, containers: set<Id>, images: set<Id>, layers: set<Id>, db: Db)
    requires OverlaysValid(rows, containers, images, layers)
    requires containers <= db.containers.Keys && images <= db.images.Keys && layers <= db.layers.Keys
    ensures OverlaysValid(rows, db.containers.Keys, db.images.Keys, db.layers.Keys)
  {
    hide OverlayOk;
  }

  /** More rows to refer to never break a foreign key. */
  lemma ReferencesGrow(db: Db, more: Db)
    requires Valid(db)
    requires db.projects.Keys <= more.projects.Keys && db.files.Keys <= more.files.Keys
    requires db.services.Keys <= more.services.Keys && db.images.Keys <= more.images.Keys
    requires db.layers.Keys <= more.layers.Keys && db.containers.Keys <= more.containers.Keys
    ensures FilesValid(db.files, more.projects.Keys)
    ensures ServicesValid(db.services, more.files.Keys, more.projects.Keys)
    ensures LayersValid(db.layers, more.images.Keys)
    ensures ContainersValid(db.containers, more.projects.Keys, more.services.Keys, more.images.Keys)
    ensures VolumesValid(db.volumes, more.projects.Keys)
    ensures JobsValid(db.jobs, more.projects.Keys)
    ensures OverlaysValid(db.overlays, more.containers.Keys, more.images.Keys, more.layers.Keys)
  {
    hide ContainerOk, VolumeOk, JobOk;
    hide ProjectsValid, FilesValid, ServicesValid, ImagesValid, LayersValid, OverlaysValid, MetaValid, SnapshotsValid;
    FilesGrow(db.files, db.projects.Keys, more.projects.Keys);
    ServicesGrow(db.services, db.files.Keys, db.projects.Keys, more.files.Keys, more.projects.Keys);
    LayersGrow(db.layers, db.images.Keys, more.images.Keys);
    OverlaysGrow(db.overlays, db.containers.Keys, db.images.Keys, db.layers.Keys, more);
  }

  // ---------- INSERT: accepted exactly when the result is valid ----------

  /** The statement ends in the database with the new row when that is valid, and in the old one otherwise. */
  ghost predicate Stores(db: Db, step: Step, more: Db) {
    Apply(db, step) == if Valid(more) then more else db
  }

  lemma InsertMeta(db: Db, id: int, row: Meta)
    requires Valid(db) && id !in db.meta
    ensures MetaAccepted(db, id, row) <==> Valid(db.(meta := db.meta[id := row]))
    ensures Stores(db, AddMeta(id, row), db.(meta := db.meta[id := row]))
  {
    hide MetaOk, ProjectsValid, FilesValid, ServicesValid, ImagesValid, LayersValid, ContainersValid, VolumesValid, JobsValid,
         OverlaysValid;
    assert db.meta[id := row][id] == row;
  }

  lemma InsertSnapshot(db: Db, id: Id, row: Snapshot)
    requires Valid(db) && id !in db.snapshots
    ensures SnapshotAccepted(db, id, row) <==> Valid(db.(snapshots := db.snapshots[id := row]))
    ensures Stores(db, AddSnapshot(id, row), db.(snapshots := db.snapshots[id := row]))
  {
    hide SnapshotOk, ProjectsValid, FilesValid, ServicesValid, ImagesValid, LayersValid, ContainersValid, VolumesValid, JobsValid,
         OverlaysValid;
    assert db.snapshots[id := row][id] == row;
  }

  lemma InsertProject(db: Db, id: Id, row: Project)
    requires Valid(db) && id !in db.projects
    ensures ProjectAccepted(db, id, row) <==> Valid(db.(projects := db.projects[id := row]))
    ensures Stores(db, AddProject(id, row), db.(projects := db.projects[id := row]))
  {
    hide ProjectsValid, FilesValid, ServicesValid, ImagesValid, LayersValid, ContainersValid, VolumesValid, JobsValid, OverlaysValid,
         ProjectOk;
    NewProject(db.projects, id, row);
    ReferencesGrow(db, db.(projects := db.projects[id := row]));
  }

  lemma InsertFile(db: Db, id: Id, row: ComposeFile)
    requires Valid(db) && id !in db.files
    ensures FileAccepted(db, id, row) <==> Valid(db.(files := db.files[id := row]))
    ensures Stores(db, AddFile(id, row), db.(files := db.files[id := row]))
  {
    hide ProjectsValid, FilesValid, ServicesValid, ImagesValid, LayersValid, ContainersValid, VolumesValid, JobsValid, OverlaysValid,
         FileOk;
    NewFile(db.files, db.projects.Keys, id, row);
    ReferencesGrow(db, db.(files := db.files[id := row]));
  }

  lemma InsertService(db: Db, id: Id, row: Service)
    requires Valid(db) && id !in db.services
    ensures ServiceAccepted(db, id, row) <==> Valid(db.(services := db.services[id := row]))
    ensures Stores(db, AddService(id, row), db.(services := db.services[id := row]))
  {
    hide ProjectsValid, FilesValid, ServicesValid, ImagesValid, LayersValid, ContainersValid, VolumesValid, JobsValid, OverlaysValid,
         ServiceOk;
    NewService(db.services, db.files.Keys, db.projects.Keys, id, row);
    ReferencesGrow(db, db.(services := db.services[id := row]));
  }

  lemma InsertImage(db: Db, id: Id, row: Image)
    requires Valid(db) && id !in db.images
    ensures ImageAccepted(db, id, row) <==> Valid(db.(images := db.images[id := row]))
    ensures Stores(db, AddImage(id, row), db.(images := db.images[id := row]))
  {
    hide ProjectsValid, FilesValid, ServicesValid, ImagesValid, LayersValid, ContainersValid, VolumesValid, JobsValid, OverlaysValid,
         ImageOk;
    NewImage(db.images, id, row);
    ReferencesGrow(db, db.(images := db.images[id := row]));
  }

  lemma InsertLayer(db: Db, id: Id, row: Layer)
    requires Valid(db) && id !in db.layers
    ensures LayerAccepted(db, id, row) <==> Valid(db.(layers := db.layers[id := row]))
    ensures Stores(db, AddLayer(id, row), db.(layers := db.layers[id := row]))
  {
    hide ProjectsValid, FilesValid, ServicesValid, ImagesValid, LayersValid, ContainersValid, VolumesValid, JobsValid, OverlaysValid,
         LayerOk;
    NewLayer(db.layers, db.images.Keys, id, row);
    ReferencesGrow(db, db.(layers := db.layers[id := row]));
  }

  lemma InsertContainer(db: Db, id: Id, row: Container)
    requires Valid(db) && id !in db.containers
    ensures ContainerAccepted(db, id, row) <==> Valid(db.(containers := db.containers[id := row]))
    ensures Stores(db, AddContainer(id, row), db.(containers := db.containers[id := row]))
  {
    hide ProjectsValid, FilesValid, ServicesValid, ImagesValid, LayersValid, ContainersValid, VolumesValid, JobsValid, OverlaysValid,
         ContainerOk;
    NewContainer(db.containers, db.projects.Keys, db.services.Keys, db.images.Keys, id, row);
    ReferencesGrow(db, db.(containers := db.containers[id := row]));
  }

  lemma InsertVolume(db: Db, id: Id, row: Volume)
    requires Valid(db) && id !in db.volumes
    ensures VolumeAccepted(db, id, row) <==> Valid(db.(volumes := db.volumes[id := row]))
    ensures Stores(db, AddVolume(id, row), db.(volumes := db.volumes[id := row]))
  {
    hide ProjectsValid, FilesValid, ServicesValid, ImagesValid, LayersValid, ContainersValid, VolumesValid, JobsValid, OverlaysValid,
         VolumeOk;
    NewVolume(db.volumes, db.projects.Keys, id, row);
    ReferencesGrow(db, db.(volumes := db.volumes[id := row]));
  }

  lemma InsertJob(db: Db, id: Id, row: Job)
    requires Valid(db) && id !in db.jobs
    ensures JobAccepted(db, id, row) <==> Valid(db.(jobs := db.jobs[id := row]))
    ensures Stores(db, AddJob(id, row), db.(jobs := db.jobs[id := row]))
  {
    hide ProjectsValid, FilesValid, ServicesValid, ImagesValid, LayersValid, ContainersValid, VolumesValid, JobsValid, OverlaysValid,
         JobOk;
    NewJob(db.jobs, db.projects.Keys, id, row);
    ReferencesGrow(db, db.(jobs := db.jobs[id := row]));
  }

  lemma InsertOverlay(db: Db, id: Id, row: Overlay)
    requires Valid(db) && id !in db.overlays
    ensures OverlayAccepted(db, id, row) <==> Valid(db.(overlays := db.overlays[id := row]))
    ensures Stores(db, AddOverlay(id, row), db.(overlays := db.overlays[id := row]))
  {
    hide ProjectsValid, FilesValid, ServicesValid, ImagesValid, LayersValid, ContainersValid, VolumesValid, JobsValid, OverlaysValid,
         OverlayOk;
    NewOverlay(db.overlays, db.containers.Keys, db.images.Keys, db.layers.Keys, id, row);
    ReferencesGrow(db, db.(overlays := db.overlays[id := row]));
  }

  // ---------- UPDATE: renaming projects ----------

  function RenamedRow(row: Project, from: string, to: string): Project {
    if row.name == from then row.(name := to) else row
  }

  function RenamedRows(projects: map<Id, Project>, from: string, to: string): map<Id, Project> {
    map p | p in projects :: RenamedRow(projects[p], from, to)
  }

  /** A project with this name would be left without one. */
  predicate RenameRefused(projects: map<Id, Project>, from: string, to: string) {
    to == "" && exists p | p in projects :: projects[p].name == from
  }

  /** `UPDATE projects SET display_name = to WHERE display_name = from`; a failing CHECK changes nothing. */
  function Renamed(db: Db, from: string, to: string): Db {
    if RenameRefused(db.projects, from, to) then db
    else db.(projects := RenamedRows(db.projects, from, to))
  }

  /** A row before and after a rename. */
  ghost predicate Relabels(before: Project, after: Project, from: string, to: string) {
    && (after.name == to <==> before.name == from || before.name == to)
    && (before.name != from ==> after.name == before.name)
    && after == before.(name := after.name)
  }

  /** Exactly the projects named `from` are named `to`; nothing else changes, or nothing at all. */
  ghost predicate RenamedExactly(before: map<Id, Project>, after: map<Id, Project>, from: string, to: string) {
    after.Keys == before.Keys && forall p :: p in before ==> Relabels(before[p], after[p], from, to)
  }

  /** A rename is refused exactly when a relabelled row would fail its CHECK, and then changes nothing. */
  lemma RenameExact(db: Db, from: string, to: string)
    ensures RenameRefused(db.projects, from, to) ==> Renamed(db, from, to) == db
    ensures !RenameRefused(db.projects, from, to) ==>
              var after := Renamed(db, from, to);
              after == db.(projects := after.projects) && RenamedExactly(db.projects, after.projects, from, to)
    ensures Valid(db) ==>
              (RenameRefused(db.projects, from, to) <==>
               exists p :: p in db.projects && db.projects[p].name == from && !ProjectOk(p, db.projects[p].(name := to)))
  {
    hide MetaValid, SnapshotsValid, FilesValid, ServicesValid, ImagesValid, LayersValid, ContainersValid, VolumesValid,
         JobsValid, OverlaysValid, HasPrefix;
    var after := Renamed(db, from, to);
    if !RenameRefused(db.projects, from, to) {
      assert after.projects.Keys == db.projects.Keys;
    }
  }

  lemma RenamedRowsValid(rows: map<Id, Project>, from: string, to: string)
    requires ProjectsValid(rows)
    requires to != "" || forall p :: p in rows ==> rows[p].name != from
    ensures ProjectsValid(RenamedRows(rows, from, to))
  {
    hide HasPrefix;
  }

  /** A rename keeps every id, every root and every other table, and the database valid. */
  lemma RenameKeepsIdentity(db: Db, from: string, to: string)
    requires Valid(db)
    ensures var after := Renamed(db, from, to);
            && Valid(after)
            && after.projects.Keys == db.projects.Keys
            && (forall p :: p in db.projects ==> after.projects[p].root == db.projects[p].root)
            && after == db.(projects := after.projects)
  {
    hide ProjectsValid, FilesValid, ServicesValid, ContainersValid, VolumesValid, JobsValid, OverlaysValid, ImagesValid,
         LayersValid, MetaValid, SnapshotsValid;
    var after := Renamed(db, from, to);
    if after != db {
      RenamedRowsValid(db.projects, from, to);
    }
    assert after.projects.Keys == db.projects.Keys;
  }

  // ---------- DELETE: the declarative meaning ----------

  /** The rows of each table a statement removes. */
  datatype Doomed = Doomed(
    meta: set<int>,
    snapshots: set<Id>,
    projects: set<Id>,
    files: set<Id>,
    services: set<Id>,
    images: set<Id>,
    layers: set<Id>,
    containers: set<Id>,
    volumes: set<Id>,
    jobs: set<Id>,
    overlays: set<Id>)

  const NOTHING := Doomed({}, {}, {}, {}, {}, {}, {}, {}, {}, {}, {})

  function Both(a: Doomed, b: Doomed): Doomed {
    Doomed(a.meta + b.meta, a.snapshots + b.snapshots, a.projects + b.projects, a.files + b.files,
           a.services + b.services, a.images + b.images, a.layers + b.layers, a.containers + b.containers,
           a.volumes + b.volumes, a.jobs + b.jobs, a.overlays + b.overlays)
  }

  /** ON DELETE SET NULL on one reference. */
  function NullIf(ref: Option<Id>, dead: set<Id>): Option<Id> {
    if ref.Some? && ref.value in dead then None else ref
  }

  function ClearedContainer(row: Container, d: Doomed): Container {
    row.(project := NullIf(row.project, d.projects),
         service := NullIf(row.service, d.services),
         image := NullIf(row.image, d.images))
  }

  function ClearedOverlay(row: Overlay, d: Doomed): Overlay {
    row.(lowerImage := NullIf(row.lowerImage, d.images), lowerLayer := NullIf(row.lowerLayer, d.layers))
  }

  function KeptContainers(rows: map<Id, Container>, d: Doomed): map<Id, Container> {
    map c | c in rows && c !in d.containers :: ClearedContainer(rows[c], d)
  }

  function KeptVolumes(rows: map<Id, Volume>, d: Doomed): map<Id, Volume> {
    map v | v in rows && v !in d.volumes :: rows[v].(project := NullIf(rows[v].project, d.projects))
  }

  function KeptJobs(rows: map<Id, Job>, d: Doomed): map<Id, Job> {
    map j | j in rows && j !in d.jobs :: rows[j].(project := NullIf(rows[j].project, d.projects))
  }

  function KeptOverlays(rows: map<Id, Overlay>, d: Doomed): map<Id, Overlay> {
    map o | o in rows && o !in d.overlays :: ClearedOverlay(rows[o], d)
  }

  /** Remove the doomed rows and null every nullable reference to one of them. */
  function Erase(db: Db, d: Doomed): Db {
    Db(db.meta - d.meta, db.snapshots - d.snapshots, db.projects - d.projects, db.files - d.files,
       db.services - d.services, db.images - d.images, db.layers - d.layers,
       KeptContainers(db.containers, d), KeptVolumes(db.volumes, d), KeptJobs(db.jobs, d), KeptOverlays(db.overlays, d))
  }

  function FilesOf(db: Db, projects: set<Id>): set<Id> {
    set f | f in db.files && db.files[f].project in projects
  }

  function ServicesOf(db: Db, files: set<Id>, projects: set<Id>): set<Id> {
    set s | s in db.services && (db.services[s].file in files || db.services[s].project in projects)
  }

  function LayersOf(db: Db, images: set<Id>): set<Id> {
    set l | l in db.layers && db.layers[l].image in images
  }

  function OverlaysOf(db: Db, containers: set<Id>): set<Id> {
    set o | o in db.overlays && db.overlays[o].container in containers
  }

  /** ON DELETE CASCADE: the rows that go with the rows a statement names. */
  function Cascade(db: Db, seed: Doomed): Doomed {
    var files := seed.files + FilesOf(db, seed.projects);
    seed.(files := files,
          services := seed.services + ServicesOf(db, files, seed.projects),
          layers := seed.layers + LayersOf(db, seed.images),
          overlays := seed.overlays + OverlaysOf(db, seed.containers))
  }

  /** The database after deleting the named rows. */
  function Deleted(db: Db, seed: Doomed): Db {
    Erase(db, Cascade(db, seed))
  }

  // ---------- erasing in steps is erasing at once ----------

  lemma EraseContainersTwice(rows: map<Id, Container>, a: Doomed, b: Doomed)
    ensures KeptContainers(KeptContainers(rows, a), b) == KeptContainers(rows, Both(a, b))
  {
  }

  lemma EraseVolumesTwice(rows: map<Id, Volume>, a: Doomed, b: Doomed)
    ensures KeptVolumes(KeptVolumes(rows, a), b) == KeptVolumes(rows, Both(a, b))
  {
  }

  lemma EraseJobsTwice(rows: map<Id, Job>, a: Doomed, b: Doomed)
    ensures KeptJobs(KeptJobs(rows, a), b) == KeptJobs(rows, Both(a, b))
  {
  }

  lemma EraseOverlaysTwice(rows: map<Id, Overlay>, a: Doomed, b: Doomed)
    ensures KeptOverlays(KeptOverlays(rows, a), b) == KeptOverlays(rows, Both(a, b))
  {
  }

  lemma DropTwice<K, V>(rows: map<K, V>, a: set<K>, b: set<K>)
    ensures rows - a - b == rows - (a + b)
  {
  }

  lemma EraseTwice(db: Db, a: Doomed, b: Doomed)
    ensures Erase(Erase(db, a), b) == Erase(db, Both(a, b))
  {
    hide KeptContainers, KeptVolumes, KeptJobs, KeptOverlays;
    DropTwice(db.meta, a.meta, b.meta);
    DropTwice(db.snapshots, a.snapshots, b.snapshots);
    DropTwice(db.projects, a.projects, b.projects);
    DropTwice(db.files, a.files, b.files);
    DropTwice(db.services, a.services, b.services);
    DropTwice(db.images, a.images, b.images);
    DropTwice(db.layers, a.layers, b.layers);
    EraseContainersTwice(db.containers, a, b);
    EraseVolumesTwice(db.volumes, a, b);
    EraseJobsTwice(db.jobs, a, b);
    EraseOverlaysTwice(db.overlays, a, b);
  }

  lemma FilesCascadeTwice(db: Db, a: Doomed, b: Doomed)
    ensures var first := Cascade(db, a);
            first.files + Cascade(Erase(db, first), b).files == Cascade(db, Both(a, b)).files
  {
    hide KeptContainers, KeptVolumes, KeptJobs, KeptOverlays;
  }

  lemma ServicesCascadeTwice(db: Db, a: Doomed, b: Doomed)
    ensures var first := Cascade(db, a);
            first.services + Cascade(Erase(db, first), b).services == Cascade(db, Both(a, b)).services
  {
    hide KeptContainers, KeptVolumes, KeptJobs, KeptOverlays;
    FilesCascadeTwice(db, a, b);
  }

  lemma LayersCascadeTwice(db: Db, a: Doomed, b: Doomed)
    ensures var first := Cascade(db, a);
            first.layers + Cascade(Erase(db, first), b).layers == Cascade(db, Both(a, b)).layers
  {
    hide KeptContainers, KeptVolumes, KeptJobs, KeptOverlays;
  }

  lemma OverlaysCascadeTwice(db: Db, a: Doomed, b: Doomed)
    ensures var first := Cascade(db, a);
            first.overlays + Cascade(Erase(db, first), b).overlays == Cascade(db, Both(a, b)).overlays
  {
    hide KeptContainers, KeptVolumes, KeptJobs;
  }

  /** What the second of two deletes cascades to, together with the first, is the cascade of both. */
  lemma CascadeTwice(db: Db, a: Doomed, b: Doomed)
    ensures var first := Cascade(db, a);
            Both(first, Cascade(Erase(db, first), b)) == Cascade(db, Both(a, b))
  {
    hide Erase, FilesOf, ServicesOf, LayersOf, OverlaysOf;
    FilesCascadeTwice(db, a, b);
    ServicesCascadeTwice(db, a, b);
    LayersCascadeTwice(db, a, b);
    OverlaysCascadeTwice(db, a, b);
  }

  /** Two deletes are one delete of both sets of rows. */
  lemma DeleteTwice(db: Db, a: Doomed, b: Doomed)
    ensures Deleted(Deleted(db, a), b) == Deleted(db, Both(a, b))
  {
    hide Erase, Both;
    CascadeTwice(db, a, b);
    var first := Cascade(db, a);
    EraseTwice(db, first, Cascade(Erase(db, first), b));
  }

  /** Deletes of any rows of any tables commute, cascades and nulling included. */
  lemma DeletesCommute(db: Db, a: Doomed, b: Doomed)
    ensures Deleted(Deleted(db, a), b) == Deleted(Deleted(db, b), a)
  {
    DeleteTwice(db, a, b);
    DeleteTwice(db, b, a);
    BothCommutes(a, b);
  }

  lemma BothCommutes(a: Doomed, b: Doomed)
    ensures Both(a, b) == Both(b, a)
  {
  }

  // ---------- DELETE keeps the database valid ----------

  /** No surviving row has a NOT NULL reference to a doomed one. */
  ghost predicate Closed(db: Db, d: Doomed) {
    && (forall f :: f in db.files && db.files[f].project in d.projects ==> f in d.files)
    && (forall s :: s in db.services && (db.services[s].file in d.files || db.services[s].project in d.projects) ==> s in d.services)
    && (forall l :: l in db.layers && db.layers[l].image in d.images ==> l in d.layers)
    && (forall o :: o in db.overlays && db.overlays[o].container in d.containers ==> o in d.overlays)
  }

  lemma CascadeIsClosed(db: Db, seed: Doomed)
    ensures Closed(db, Cascade(db, seed))
  {
  }

  lemma ContainersStayValid(rows: map<Id, Container>, projects: set<Id>, services: set<Id>, images: set<Id>, d: Doomed)
    requires ContainersValid(rows, projects, services, images)
    ensures ContainersValid(KeptContainers(rows, d), projects - d.projects, services - d.services, images - d.images)
  {
    forall c | c in rows
      ensures ContainerOk(c, ClearedContainer(rows[c], d))
    {
    }
    hide ContainerOk;
  }

  lemma OverlaysStayValid(rows: map<Id, Overlay>, containers: set<Id>, images: set<Id>, layers: set<Id>, d: Doomed)
    requires OverlaysValid(rows, containers, images, layers)
    requires forall o :: o in rows && rows[o].container in d.containers ==> o in d.overlays
    ensures OverlaysValid(KeptOverlays(rows, d), containers - d.containers, images - d.images, layers - d.layers)
  {
    forall o | o in rows
      ensures OverlayOk(o, ClearedOverlay(rows[o], d))
    {
    }
    hide OverlayOk;
  }

  lemma VolumesStayValid(rows: map<Id, Volume>, projects: set<Id>, d: Doomed)
    requires VolumesValid(rows, projects)
    ensures VolumesValid(KeptVolumes(rows, d), projects - d.projects)
  {
  }

  lemma JobsStayValid(rows: map<Id, Job>, projects: set<Id>, d: Doomed)
    requires JobsValid(rows, projects)
    ensures JobsValid(KeptJobs(rows, d), projects - d.projects)
  {
    forall j | j in rows
      ensures JobOk(j, rows[j].(project := NullIf(rows[j].project, d.projects)))
    {
    }
    hide JobOk;
  }

  lemma ProjectsStayValid(rows: map<Id, Project>, dead: set<Id>)
    requires ProjectsValid(rows)
    ensures ProjectsValid(rows - dead)
  {
    hide ProjectOk;
  }

  lemma FilesStayValid(rows: map<Id, ComposeFile>, projects: set<Id>, dead: set<Id>, deadProjects: set<Id>)
    requires FilesValid(rows, projects)
    requires forall f :: f in rows && rows[f].project in deadProjects ==> f in dead
    ensures FilesValid(rows - dead, projects - deadProjects)
  {
    hide FileOk;
  }

  lemma ServicesStayValid(rows: map<Id, Service>, files: set<Id>, projects: set<Id>, d: Doomed)
    requires ServicesValid(rows, files, projects)
    requires forall s :: s in rows && (rows[s].file in d.files || rows[s].project in d.projects) ==> s in d.services
    ensures ServicesValid(rows - d.services, files - d.files, projects - d.projects)
  {
    hide ServiceOk;
  }

  lemma ImagesStayValid(rows: map<Id, Image>, dead: set<Id>)
    requires ImagesValid(rows)
    ensures ImagesValid(rows - dead)
  {
    hide ImageOk;
  }

  lemma LayersStayValid(rows: map<Id, Layer>, images: set<Id>, dead: set<Id>, deadImages: set<Id>)
    requires LayersValid(rows, images)
    requires forall l :: l in rows && rows[l].image in deadImages ==> l in dead
    ensures LayersValid(rows - dead, images - deadImages)
  {
    hide LayerOk;
  }

  lemma DroppedKeys<K, V>(rows: map<K, V>, dead: set<K>)
    ensures (rows - dead).Keys == rows.Keys - dead
  {
  }

  /** Erasing a closed set of rows keeps every CHECK, UNIQUE pair and foreign key. */
  lemma EraseKeepsValid(db: Db, d: Doomed)
    requires Valid(db) && Closed(db, d)
    ensures Valid(Erase(db, d))
  {
    hide MetaOk, SnapshotOk;
    hide ProjectsValid, FilesValid, ServicesValid, ImagesValid, LayersValid, ContainersValid, VolumesValid, JobsValid, OverlaysValid;
    hide KeptContainers, KeptVolumes, KeptJobs, KeptOverlays;
    ProjectsStayValid(db.projects, d.projects);
    FilesStayValid(db.files, db.projects.Keys, d.files, d.projects);
    ServicesStayValid(db.services, db.files.Keys, db.projects.Keys, d);
    ImagesStayValid(db.images, d.images);
    LayersStayValid(db.layers, db.images.Keys, d.layers, d.images);
    ContainersStayValid(db.containers, db.projects.Keys, db.services.Keys, db.images.Keys, d);
    OverlaysStayValid(db.overlays, db.containers.Keys, db.images.Keys, db.layers.Keys, d);
    VolumesStayValid(db.volumes, db.projects.Keys, d);
    JobsStayValid(db.jobs, db.projects.Keys, d);
    KeptContainerKeys(db.containers, d);
    DroppedKeys(db.projects, d.projects);
    DroppedKeys(db.files, d.files);
    DroppedKeys(db.services, d.services);
    DroppedKeys(db.images, d.images);
    DroppedKeys(db.layers, d.layers);
  }

  lemma KeptContainerKeys(rows: map<Id, Container>, d: Doomed)
    ensures KeptContainers(rows, d).Keys == rows.Keys - d.containers
  {
  }

  lemma DeleteKeepsValid(db: Db, seed: Doomed)
    requires Valid(db)
    ensures Valid(Deleted(db, seed))
  {
    hide Valid, Erase, Cascade, Closed;
    CascadeIsClosed(db, seed);
    EraseKeepsValid(db, Cascade(db, seed));
  }

  // ---------- what two of the deletes leave behind ----------

  function FilesLost(db: Db, p: Id): set<Id> {
    set f | f in db.files && db.files[f].project == p
  }

  function ServicesLost(db: Db, p: Id): set<Id> {
    set s | s in db.services && (db.services[s].project == p || db.services[s].file in FilesLost(db, p))
  }

  function LayersLost(db: Db, i: Id): set<Id> {
    set l | l in db.layers && db.layers[l].image == i
  }

  lemma ProjectCascade(db: Db, p: Id)
    ensures Cascade(db, NOTHING.(projects := {p}))
         == NOTHING.(projects := {p}, files := FilesLost(db, p), services := ServicesLost(db, p))
  {
    var d := Cascade(db, NOTHING.(projects := {p}));
    assert d.files == FilesLost(db, p);
    assert d.services == ServicesLost(db, p);
    assert d.layers == {} && d.overlays == {};
  }

  lemma ImageCascade(db: Db, i: Id)
    ensures Cascade(db, NOTHING.(images := {i})) == NOTHING.(images := {i}, layers := LayersLost(db, i))
  {
    var d := Cascade(db, NOTHING.(images := {i}));
    assert d.layers == LayersLost(db, i);
    assert d.files == {} && d.services == {} && d.overlays == {};
  }

  /** A table no statement touches stays as it is. */
  lemma DropNothing<K, V>(rows: map<K, V>)
    ensures rows - {} == rows
  {
  }

  /**
   * Deleting a project removes it, its Compose files and the services reached through either
   * reference, and nothing else; containers, volumes and jobs survive with only the dangling
   * references nulled.
   */
  lemma DeleteProjectExactly(db: Db, p: Id)
    ensures var after := Deleted(db, NOTHING.(projects := {p}));
            && after == db.(projects := after.projects, files := after.files, services := after.services,
                            containers := after.containers, volumes := after.volumes, jobs := after.jobs)
            && after.projects == db.projects - {p}
            && after.files == db.files - FilesLost(db, p)
            && after.services == db.services - ServicesLost(db, p)
            && after.containers.Keys == db.containers.Keys
            && after.volumes.Keys == db.volumes.Keys
            && after.jobs.Keys == db.jobs.Keys
            && (forall c :: c in db.containers ==>
                  after.containers[c] == db.containers[c].(
                    project := NullIf(db.containers[c].project, {p}),
                    service := NullIf(db.containers[c].service, ServicesLost(db, p))))
            && (forall v :: v in db.volumes ==>
                  after.volumes[v] == db.volumes[v].(project := NullIf(db.volumes[v].project, {p})))
            && (forall j :: j in db.jobs ==>
                  after.jobs[j] == db.jobs[j].(project := NullIf(db.jobs[j].project, {p})))
  {
    hide Cascade, FilesLost, ServicesLost;
    ProjectCascade(db, p);
    DropNothing(db.meta);
    DropNothing(db.snapshots);
    DropNothing(db.images);
    DropNothing(db.layers);
    var d := Cascade(db, NOTHING.(projects := {p}));
    assert KeptOverlays(db.overlays, d) == db.overlays;
  }

  /**
   * Deleting an image removes exactly it and its layers; containers lose only the reference to
   * it, and overlay rows survive with every other column, so their CHECK still holds.
   */
  lemma DeleteImageExactly(db: Db, i: Id)
    ensures var after := Deleted(db, NOTHING.(images := {i}));
            && after == db.(images := after.images, layers := after.layers, containers := after.containers,
                            overlays := after.overlays)
            && after.images == db.images - {i}
            && after.layers == db.layers - LayersLost(db, i)
            && after.containers.Keys == db.containers.Keys
            && after.overlays.Keys == db.overlays.Keys
            && (forall c :: c in db.containers ==>
                  after.containers[c] == db.containers[c].(image := NullIf(db.containers[c].image, {i})))
            && (forall o :: o in db.overlays ==>
                  && after.overlays[o] == db.overlays[o].(
                       lowerImage := NullIf(db.overlays[o].lowerImage, {i}),
                       lowerLayer := NullIf(db.overlays[o].lowerLayer, LayersLost(db, i)))
                  && (OverlayOk(o, db.overlays[o]) ==> OverlayOk(o, after.overlays[o])))
  {
    hide Cascade, LayersLost;
    ImageCascade(db, i);
    DropNothing(db.meta);
    DropNothing(db.snapshots);
    DropNothing(db.projects);
    DropNothing(db.files);
    DropNothing(db.services);
    var d := Cascade(db, NOTHING.(images := {i}));
    assert KeptVolumes(db.volumes, d) == db.volumes;
    assert KeptJobs(db.jobs, d) == db.jobs;
    forall o | o in db.overlays
      ensures OverlayOk(o, db.overlays[o]) ==> OverlayOk(o, ClearedOverlay(db.overlays[o], d))
    {
    }
    hide OverlayOk;
  }

  // ---------- runs of statements ----------

  datatype Step =
    | AddMeta(metaId: int, meta: Meta)
    | AddSnapshot(id: Id, snapshot: Snapshot)
    | AddProject(id: Id, project: Project)
    | AddFile(id: Id, file: ComposeFile)
    | AddService(id: Id, service: Service)
    | AddImage(id: Id, image: Image)
    | AddLayer(id: Id, layer: Layer)
    | AddContainer(id: Id, container: Container)
    | AddVolume(id: Id, volume: Volume)
    | AddJob(id: Id, job: Job)
    | AddOverlay(id: Id, overlay: Overlay)
    | Rename(from: string, to: string)
    | Delete(seed: Doomed)

  /** The database after one statement; a rejected INSERT changes nothing. */
  function Apply(db: Db, step: Step): Db {
    match step
    case AddMeta(id, row) => if MetaAccepted(db, id, row) then db.(meta := db.meta[id := row]) else db
    case AddSnapshot(id, row) => if SnapshotAccepted(db, id, row) then db.(snapshots := db.snapshots[id := row]) else db
    case AddProject(id, row) => if ProjectAccepted(db, id, row) then db.(projects := db.projects[id := row]) else db
    case AddFile(id, row) => if FileAccepted(db, id, row) then db.(files := db.files[id := row]) else db
    case AddService(id, row) => if ServiceAccepted(db, id, row) then db.(services := db.services[id := row]) else db
    case AddImage(id, row) => if ImageAccepted(db, id, row) then db.(images := db.images[id := row]) else db
    case AddLayer(id, row) => if LayerAccepted(db, id, row) then db.(layers := db.layers[id := row]) else db
    case AddContainer(id, row) => if ContainerAccepted(db, id, row) then db.(containers := db.containers[id := row]) else db
    case AddVolume(id, row) => if VolumeAccepted(db, id, row) then db.(volumes := db.volumes[id := row]) else db
    case AddJob(id, row) => if JobAccepted(db, id, row) then db.(jobs := db.jobs[id := row]) else db
    case AddOverlay(id, row) => if OverlayAccepted(db, id, row) then db.(overlays := db.overlays[id := row]) else db
    case Rename(from, to) => Renamed(db, from, to)
    case Delete(seed) => Deleted(db, seed)
  }

  function Run(db: Db, steps: seq<Step>): Db
    decreases |steps|
  {
    if steps == [] then db else Run(Apply(db, steps[0]), steps[1..])
  }

  lemma StepKeepsValid(db: Db, step: Step)
    requires Valid(db)
    ensures Valid(Apply(db, step))
  {
    hide Valid, Deleted, Renamed;
    hide MetaAccepted, SnapshotAccepted, ProjectAccepted, FileAccepted, ServiceAccepted, ImageAccepted, LayerAccepted,
         ContainerAccepted, VolumeAccepted, JobAccepted, OverlayAccepted;
    match step
    case AddMeta(id, row) => if id !in db.meta { InsertMeta(db, id, row); } else { RejectsKnownIds(db, step); }
    case AddSnapshot(id, row) => if id !in db.snapshots { InsertSnapshot(db, id, row); } else { RejectsKnownIds(db, step); }
    case AddProject(id, row) => if id !in db.projects { InsertProject(db, id, row); } else { RejectsKnownIds(db, step); }
    case AddFile(id, row) => if id !in db.files { InsertFile(db, id, row); } else { RejectsKnownIds(db, step); }
    case AddService(id, row) => if id !in db.services { InsertService(db, id, row); } else { RejectsKnownIds(db, step); }
    case AddImage(id, row) => if id !in db.images { InsertImage(db, id, row); } else { RejectsKnownIds(db, step); }
    case AddLayer(id, row) => if id !in db.layers { InsertLayer(db, id, row); } else { RejectsKnownIds(db, step); }
    case AddContainer(id, row) => if id !in db.containers { InsertContainer(db, id, row); } else { RejectsKnownIds(db, step); }
    case AddVolume(id, row) => if id !in db.volumes { InsertVolume(db, id, row); } else { RejectsKnownIds(db, step); }
    case AddJob(id, row) => if id !in db.jobs { InsertJob(db, id, row); } else { RejectsKnownIds(db, step); }
    case AddOverlay(id, row) => if id !in db.overlays { InsertOverlay(db, id, row); } else { RejectsKnownIds(db, step); }
    case Rename(from, to) => RenameKeepsIdentity(db, from, to);
    case Delete(seed) => DeleteKeepsValid(db, seed);
  }

  /** The id of an insert is already the key of a row of its table. */
  predicate KnownId(db: Db, step: Step) {
    match step
    case AddMeta(id, _) => id in db.meta
    case AddSnapshot(id, _) => id in db.snapshots
    case AddProject(id, _) => id in db.projects
    case AddFile(id, _) => id in db.files
    case AddService(id, _) => id in db.services
    case AddImage(id, _) => id in db.images
    case AddLayer(id, _) => id in db.layers
    case AddContainer(id, _) => id in db.containers
    case AddVolume(id, _) => id in db.volumes
    case AddJob(id, _) => id in db.jobs
    case AddOverlay(id, _) => id in db.overlays
    case _ => false
  }

  /** A repeated primary key is refused. */
  lemma RejectsKnownIds(db: Db, step: Step)
    requires KnownId(db, step)
    ensures Apply(db, step) == db
  {
  }

  lemma {:induction false} RunKeepsValid(db: Db, steps: seq<Step>)
    requires Valid(db)
    ensures Valid(Run(db, steps))
    decreases |steps|
  {
    hide Valid, Apply;
    if steps != [] {
      StepKeepsValid(db, steps[0]);
      RunKeepsValid(Apply(db, steps[0]), steps[1..]);
    }
  }

  lemma EmptyParents()
    ensures MetaValid(EMPTY.meta) && SnapshotsValid(EMPTY.snapshots) && ProjectsValid(EMPTY.projects)
    ensures ImagesValid(EMPTY.images)
  {
  }

  lemma EmptyCompose()
    ensures FilesValid(EMPTY.files, EMPTY.projects.Keys)
    ensures ServicesValid(EMPTY.services, EMPTY.files.Keys, EMPTY.projects.Keys)
    ensures VolumesValid(EMPTY.volumes, EMPTY.projects.Keys) && JobsValid(EMPTY.jobs, EMPTY.projects.Keys)
  {
  }

  lemma EmptyContainers()
    ensures LayersValid(EMPTY.layers, EMPTY.images.Keys)
    ensures ContainersValid(EMPTY.containers, EMPTY.projects.Keys, EMPTY.services.Keys, EMPTY.images.Keys)
    ensures OverlaysValid(EMPTY.overlays, EMPTY.containers.Keys, EMPTY.images.Keys, EMPTY.layers.Keys)
  {
  }

  lemma EmptyIsValid()
    ensures Valid(EMPTY)
  {
    hide MetaValid, SnapshotsValid, ProjectsValid, FilesValid, ServicesValid, ImagesValid, LayersValid, ContainersValid,
         VolumesValid, JobsValid, OverlaysValid;
    EmptyParents();
    EmptyCompose();
    EmptyContainers();
  }

  /** Every database reached from the empty one is valid. */
  lemma ReachableIsValid(steps: seq<Step>)
    ensures Valid(Run(EMPTY, steps))
  {
    hide *;
    EmptyIsValid();
    RunKeepsValid(EMPTY, steps);
  }
}
