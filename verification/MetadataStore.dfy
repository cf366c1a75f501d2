/**
 * The index as the database engine changes it: tables in place, one statement at
 * a time, cascades carried out row by row in whatever order rows are found.
 */
module MetadataStore {
  import opened Options
  import opened MetadataIndex

  lemma ContainersUntouched(rows: map<Id, Container>, d: Doomed)
    requires d.containers == {} && d.projects == {} && d.services == {} && d.images == {}
    ensures KeptContainers(rows, d) == rows
  {
  }

  lemma VolumesUntouched(rows: map<Id, Volume>, d: Doomed)
    requires d.volumes == {} && d.projects == {}
    ensures KeptVolumes(rows, d) == rows
  {
  }

  lemma JobsUntouched(rows: map<Id, Job>, d: Doomed)
    requires d.jobs == {} && d.projects == {}
    ensures KeptJobs(rows, d) == rows
  {
  }

  lemma OverlaysUntouched(rows: map<Id, Overlay>, d: Doomed)
    requires d.overlays == {} && d.images == {} && d.layers == {}
    ensures KeptOverlays(rows, d) == rows
  {
  }

  /** The tables that hold no rows to remove or to null stay as they are. */
  lemma Untouched(db: Db, d: Doomed)
    ensures d.meta == {} ==> db.meta - d.meta == db.meta
    ensures d.snapshots == {} ==> db.snapshots - d.snapshots == db.snapshots
    ensures d.projects == {} ==> db.projects - d.projects == db.projects
    ensures d.files == {} ==> db.files - d.files == db.files
    ensures d.services == {} ==> db.services - d.services == db.services
    ensures d.images == {} ==> db.images - d.images == db.images
    ensures d.layers == {} ==> db.layers - d.layers == db.layers
    ensures d.containers + d.projects + d.services + d.images == {} ==> KeptContainers(db.containers, d) == db.containers
    ensures d.volumes + d.projects == {} ==> KeptVolumes(db.volumes, d) == db.volumes
    ensures d.jobs + d.projects == {} ==> KeptJobs(db.jobs, d) == db.jobs
    ensures d.overlays + d.images + d.layers == {} ==> KeptOverlays(db.overlays, d) == db.overlays
  {
    hide KeptContainers, KeptVolumes, KeptJobs, KeptOverlays;
    if d.containers + d.projects + d.services + d.images == {} {
      ContainersUntouched(db.containers, d);
    }
    if d.volumes + d.projects == {} {
      VolumesUntouched(db.volumes, d);
    }
    if d.jobs + d.projects == {} {
      JobsUntouched(db.jobs, d);
    }
    if d.overlays + d.images + d.layers == {} {
      OverlaysUntouched(db.overlays, d);
    }
  }

  function OneProject(id: Id): Doomed { NOTHING.(projects := {id}) }
  function OneFile(id: Id): Doomed { NOTHING.(files := {id}) }
  function OneService(id: Id): Doomed { NOTHING.(services := {id}) }
  function OneImage(id: Id): Doomed { NOTHING.(images := {id}) }
  function OneLayer(id: Id): Doomed { NOTHING.(layers := {id}) }
  function OneContainer(id: Id): Doomed { NOTHING.(containers := {id}) }
  function OneVolume(id: Id): Doomed { NOTHING.(volumes := {id}) }
  function OneJob(id: Id): Doomed { NOTHING.(jobs := {id}) }
  function OneOverlay(id: Id): Doomed { NOTHING.(overlays := {id}) }

  // ---------- a new row fits exactly when the database stays valid with it ----------

  lemma MetaFits(db: Db, id: int, row: Meta)
    ensures MetaAccepted(db, id, row) ==> id !in db.meta
    ensures Valid(db) ==> (MetaAccepted(db, id, row) <==> id !in db.meta && Valid(db.(meta := db.meta[id := row])))
  {
    hide Valid, MetaOk;
    if Valid(db) && id !in db.meta {
      hide MetaAccepted;
      InsertMeta(db, id, row);
    }
  }

  lemma SnapshotFits(db: Db, id: Id, row: Snapshot)
    ensures SnapshotAccepted(db, id, row) ==> id !in db.snapshots
    ensures Valid(db) ==> (SnapshotAccepted(db, id, row) <==> id !in db.snapshots && Valid(db.(snapshots := db.snapshots[id := row])))
  {
    hide Valid, SnapshotOk;
    if Valid(db) && id !in db.snapshots {
      hide SnapshotAccepted;
      InsertSnapshot(db, id, row);
    }
  }

  lemma ProjectFits(db: Db, id: Id, row: Project)
    ensures ProjectAccepted(db, id, row) ==> id !in db.projects
    ensures Valid(db) ==> (ProjectAccepted(db, id, row) <==> id !in db.projects && Valid(db.(projects := db.projects[id := row])))
  {
    hide Valid, ProjectOk;
    if Valid(db) && id !in db.projects {
      hide ProjectAccepted;
      InsertProject(db, id, row);
    }
  }

  lemma FileFits(db: Db, id: Id, row: ComposeFile)
    ensures FileAccepted(db, id, row) ==> id !in db.files
    ensures Valid(db) ==> (FileAccepted(db, id, row) <==> id !in db.files && Valid(db.(files := db.files[id := row])))
  {
    hide Valid, FileOk;
    if Valid(db) && id !in db.files {
      hide FileAccepted;
      InsertFile(db, id, row);
    }
  }

  lemma ServiceFits(db: Db, id: Id, row: Service)
    ensures ServiceAccepted(db, id, row) ==> id !in db.services
    ensures Valid(db) ==> (ServiceAccepted(db, id, row) <==> id !in db.services && Valid(db.(services := db.services[id := row])))
  {
    hide Valid, ServiceOk;
    if Valid(db) && id !in db.services {
      hide ServiceAccepted;
      InsertService(db, id, row);
    }
  }

  lemma ImageFits(db: Db, id: Id, row: Image)
    ensures ImageAccepted(db, id, row) ==> id !in db.images
    ensures Valid(db) ==> (ImageAccepted(db, id, row) <==> id !in db.images && Valid(db.(images := db.images[id := row])))
  {
    hide Valid, ImageOk;
    if Valid(db) && id !in db.images {
      hide ImageAccepted;
      InsertImage(db, id, row);
    }
  }

  lemma LayerFits(db: Db, id: Id, row: Layer)
    ensures LayerAccepted(db, id, row) ==> id !in db.layers
    ensures Valid(db) ==> (LayerAccepted(db, id, row) <==> id !in db.layers && Valid(db.(layers := db.layers[id := row])))
  {
    hide Valid, LayerOk;
    if Valid(db) && id !in db.layers {
      hide LayerAccepted;
      InsertLayer(db, id, row);
    }
  }

  lemma ContainerFits(db: Db, id: Id, row: Container)
    ensures ContainerAccepted(db, id, row) ==> id !in db.containers
    ensures Valid(db) ==> (ContainerAccepted(db, id, row) <==> id !in db.containers && Valid(db.(containers := db.containers[id := row])))
  {
    hide Valid, ContainerOk;
    if Valid(db) && id !in db.containers {
      hide ContainerAccepted;
      InsertContainer(db, id, row);
    }
  }

  lemma VolumeFits(db: Db, id: Id, row: Volume)
    ensures VolumeAccepted(db, id, row) ==> id !in db.volumes
    ensures Valid(db) ==> (VolumeAccepted(db, id, row) <==> id !in db.volumes && Valid(db.(volumes := db.volumes[id := row])))
  {
    hide Valid, VolumeOk;
    if Valid(db) && id !in db.volumes {
      hide VolumeAccepted;
      InsertVolume(db, id, row);
    }
  }

  lemma JobFits(db: Db, id: Id, row: Job)
    ensures JobAccepted(db, id, row) ==> id !in db.jobs
    ensures Valid(db) ==> (JobAccepted(db, id, row) <==> id !in db.jobs && Valid(db.(jobs := db.jobs[id := row])))
  {
    hide Valid, JobOk;
    if Valid(db) && id !in db.jobs {
      hide JobAccepted;
      InsertJob(db, id, row);
    }
  }

  lemma OverlayFits(db: Db, id: Id, row: Overlay)
    ensures OverlayAccepted(db, id, row) ==> id !in db.overlays
    ensures Valid(db) ==> (OverlayAccepted(db, id, row) <==> id !in db.overlays && Valid(db.(overlays := db.overlays[id := row])))
  {
    hide Valid, OverlayOk;
    if Valid(db) && id !in db.overlays {
      hide OverlayAccepted;
      InsertOverlay(db, id, row);
    }
  }

  class Index {
    var meta: map<int, Meta>
    var snapshots: map<Id, Snapshot>
    var projects: map<Id, Project>
    var files: map<Id, ComposeFile>
    var services: map<Id, Service>
    var images: map<Id, Image>
    var layers: map<Id, Layer>
    var containers: map<Id, Container>
    var volumes: map<Id, Volume>
    var jobs: map<Id, Job>
    var overlays: map<Id, Overlay>

    ghost function Model(): Db
      reads this
    {
      Db(meta, snapshots, projects, files, services, images, layers, containers, volumes, jobs, overlays)
    }

    /** The schema script creates every table empty. */
    constructor ()
      ensures Model() == EMPTY
    {
      meta, snapshots, projects, files, services := map[], map[], map[], map[], map[];
      images, layers, containers, volumes, jobs, overlays := map[], map[], map[], map[], map[], map[];
    }

    // ---------- INSERT ----------

    method TestMeta(id: int, row: Meta) returns (ok: bool)
      ensures ok == MetaAccepted(Model(), id, row)
    {
      hide MetaOk;
      ok := id !in meta && MetaOk(id, row);
    }

    method InsertMeta(id: int, row: Meta) returns (ok: bool)
      modifies this`meta
      ensures Valid(old(Model())) ==> (ok <==> id !in old(meta) && Valid(old(Model()).(meta := old(meta)[id := row])))
      ensures ok ==> id !in old(meta)
      ensures meta == if ok then old(meta)[id := row] else old(meta)
      ensures Model() == Apply(old(Model()), AddMeta(id, row))
    {
      hide Valid, MetaAccepted;
      ok := TestMeta(id, row);
      MetaFits(Model(), id, row);
      if ok {
        meta := meta[id := row];
      }
    }

    method TestSnapshot(id: Id, row: Snapshot) returns (ok: bool)
      ensures ok == SnapshotAccepted(Model(), id, row)
    {
      hide SnapshotOk;
      ok := id !in snapshots && SnapshotOk(id, row);
    }

    method InsertSnapshot(id: Id, row: Snapshot) returns (ok: bool)
      modifies this`snapshots
      ensures Valid(old(Model())) ==> (ok <==> id !in old(snapshots) && Valid(old(Model()).(snapshots := old(snapshots)[id := row])))
      ensures ok ==> id !in old(snapshots)
      ensures snapshots == if ok then old(snapshots)[id := row] else old(snapshots)
      ensures Model() == Apply(old(Model()), AddSnapshot(id, row))
    {
      hide Valid, SnapshotAccepted;
      ok := TestSnapshot(id, row);
      SnapshotFits(Model(), id, row);
      if ok {
        snapshots := snapshots[id := row];
      }
    }

    method TestProject(id: Id, row: Project) returns (ok: bool)
      ensures ok == ProjectAccepted(Model(), id, row)
    {
      hide ProjectOk;
      ok := id !in projects && ProjectOk(id, row)
            && forall p | p in projects :: projects[p].root != row.root;
    }

    method InsertProject(id: Id, row: Project) returns (ok: bool)
      modifies this`projects
      ensures Valid(old(Model())) ==> (ok <==> id !in old(projects) && Valid(old(Model()).(projects := old(projects)[id := row])))
      ensures ok ==> id !in old(projects)
      ensures projects == if ok then old(projects)[id := row] else old(projects)
      ensures Model() == Apply(old(Model()), AddProject(id, row))
    {
      hide Valid, ProjectAccepted;
      ok := TestProject(id, row);
      ProjectFits(Model(), id, row);
      if ok {
        projects := projects[id := row];
      }
    }

    method TestFile(id: Id, row: ComposeFile) returns (ok: bool)
      ensures ok == FileAccepted(Model(), id, row)
    {
      hide FileOk;
      ok := id !in files && FileOk(id, row) && row.project in projects
            && forall f | f in files :: !(files[f].project == row.project && files[f].path == row.path);
    }

    method InsertFile(id: Id, row: ComposeFile) returns (ok: bool)
      modifies this`files
      ensures Valid(old(Model())) ==> (ok <==> id !in old(files) && Valid(old(Model()).(files := old(files)[id := row])))
      ensures ok ==> id !in old(files)
      ensures files == if ok then old(files)[id := row] else old(files)
      ensures Model() == Apply(old(Model()), AddFile(id, row))
    {
      hide Valid, FileAccepted;
      ok := TestFile(id, row);
      FileFits(Model(), id, row);
      if ok {
        files := files[id := row];
      }
    }

    method TestService(id: Id, row: Service) returns (ok: bool)
      ensures ok == ServiceAccepted(Model(), id, row)
    {
      hide ServiceOk;
      ok := id !in services && ServiceOk(id, row) && row.file in files && row.project in projects
            && forall s | s in services :: !(services[s].file == row.file && services[s].name == row.name);
    }

    method InsertService(id: Id, row: Service) returns (ok: bool)
      modifies this`services
      ensures Valid(old(Model())) ==> (ok <==> id !in old(services) && Valid(old(Model()).(services := old(services)[id := row])))
      ensures ok ==> id !in old(services)
      ensures services == if ok then old(services)[id := row] else old(services)
      ensures Model() == Apply(old(Model()), AddService(id, row))
    {
      hide Valid, ServiceAccepted;
      ok := TestService(id, row);
      ServiceFits(Model(), id, row);
      if ok {
        services := services[id := row];
      }
    }

    method TestImage(id: Id, row: Image) returns (ok: bool)
      ensures ok == ImageAccepted(Model(), id, row)
    {
      hide ImageOk;
      ok := id !in images && ImageOk(id, row)
            && forall i | i in images :: images[i].digest != row.digest;
    }

    method InsertImage(id: Id, row: Image) returns (ok: bool)
      modifies this`images
      ensures Valid(old(Model())) ==> (ok <==> id !in old(images) && Valid(old(Model()).(images := old(images)[id := row])))
      ensures ok ==> id !in old(images)
      ensures images == if ok then old(images)[id := row] else old(images)
      ensures Model() == Apply(old(Model()), AddImage(id, row))
    {
      hide Valid, ImageAccepted;
      ok := TestImage(id, row);
      ImageFits(Model(), id, row);
      if ok {
        images := images[id := row];
      }
    }

    method TestLayer(id: Id, row: Layer) returns (ok: bool)
      ensures ok == LayerAccepted(Model(), id, row)
    {
      hide LayerOk;
      ok := id !in layers && LayerOk(id, row) && row.image in images
            && forall l | l in layers :: !(layers[l].image == row.image && layers[l].ordinal == row.ordinal);
    }

    method InsertLayer(id: Id, row: Layer) returns (ok: bool)
      modifies this`layers
      ensures Valid(old(Model())) ==> (ok <==> id !in old(layers) && Valid(old(Model()).(layers := old(layers)[id := row])))
      ensures ok ==> id !in old(layers)
      ensures layers == if ok then old(layers)[id := row] else old(layers)
      ensures Model() == Apply(old(Model()), AddLayer(id, row))
    {
      hide Valid, LayerAccepted;
      ok := TestLayer(id, row);
      LayerFits(Model(), id, row);
      if ok {
        layers := layers[id := row];
      }
    }

    method TestContainer(id: Id, row: Container) returns (ok: bool)
      ensures ok == ContainerAccepted(Model(), id, row)
    {
      hide ContainerOk;
      ok := id !in containers && ContainerOk(id, row) && Refers(row.project, projects.Keys) && Refers(row.service, services.Keys) && Refers(row.image, images.Keys);
    }

    method InsertContainer(id: Id, row: Container) returns (ok: bool)
      modifies this`containers
      ensures Valid(old(Model())) ==> (ok <==> id !in old(containers) && Valid(old(Model()).(containers := old(containers)[id := row])))
      ensures ok ==> id !in old(containers)
      ensures containers == if ok then old(containers)[id := row] else old(containers)
      ensures Model() == Apply(old(Model()), AddContainer(id, row))
    {
      hide Valid, ContainerAccepted;
      ok := TestContainer(id, row);
      ContainerFits(Model(), id, row);
      if ok {
        containers := containers[id := row];
      }
    }

    method TestVolume(id: Id, row: Volume) returns (ok: bool)
      ensures ok == VolumeAccepted(Model(), id, row)
    {
      hide VolumeOk;
      ok := id !in volumes && VolumeOk(id, row) && Refers(row.project, projects.Keys)
            && forall v | v in volumes :: volumes[v].path != row.path;
    }

    method InsertVolume(id: Id, row: Volume) returns (ok: bool)
      modifies this`volumes
      ensures Valid(old(Model())) ==> (ok <==> id !in old(volumes) && Valid(old(Model()).(volumes := old(volumes)[id := row])))
      ensures ok ==> id !in old(volumes)
      ensures volumes == if ok then old(volumes)[id := row] else old(volumes)
      ensures Model() == Apply(old(Model()), AddVolume(id, row))
    {
      hide Valid, VolumeAccepted;
      ok := TestVolume(id, row);
      VolumeFits(Model(), id, row);
      if ok {
        volumes := volumes[id := row];
      }
    }

    method TestJob(id: Id, row: Job) returns (ok: bool)
      ensures ok == JobAccepted(Model(), id, row)
    {
      hide JobOk;
      ok := id !in jobs && JobOk(id, row) && Refers(row.project, projects.Keys);
    }

    method InsertJob(id: Id, row: Job) returns (ok: bool)
      modifies this`jobs
      ensures Valid(old(Model())) ==> (ok <==> id !in old(jobs) && Valid(old(Model()).(jobs := old(jobs)[id := row])))
      ensures ok ==> id !in old(jobs)
      ensures jobs == if ok then old(jobs)[id := row] else old(jobs)
      ensures Model() == Apply(old(Model()), AddJob(id, row))
    {
      hide Valid, JobAccepted;
      ok := TestJob(id, row);
      JobFits(Model(), id, row);
      if ok {
        jobs := jobs[id := row];
      }
    }

    method TestOverlay(id: Id, row: Overlay) returns (ok: bool)
      ensures ok == OverlayAccepted(Model(), id, row)
    {
      hide OverlayOk;
      ok := id !in overlays && OverlayOk(id, row) && row.container in containers && Refers(row.lowerImage, images.Keys)
            && Refers(row.lowerLayer, layers.Keys)
            && forall o | o in overlays :: !(overlays[o].container == row.container && overlays[o].guest == row.guest);
    }

    method InsertOverlay(id: Id, row: Overlay) returns (ok: bool)
      modifies this`overlays
      ensures Valid(old(Model())) ==> (ok <==> id !in old(overlays) && Valid(old(Model()).(overlays := old(overlays)[id := row])))
      ensures ok ==> id !in old(overlays)
      ensures overlays == if ok then old(overlays)[id := row] else old(overlays)
      ensures Model() == Apply(old(Model()), AddOverlay(id, row))
    {
      hide Valid, OverlayAccepted;
      ok := TestOverlay(id, row);
      OverlayFits(Model(), id, row);
      if ok {
        overlays := overlays[id := row];
      }
    }

    // ---------- UPDATE ----------

    /** Relabel every project that carries a display name, or fail as a whole. */
    method RenameProjects(from: string, to: string) returns (ok: bool)
      modifies this`projects
      ensures Model() == Apply(old(Model()), Rename(from, to))
      ensures ok <==> !RenameRefused(old(projects), from, to)
      ensures if ok then RenamedExactly(old(projects), projects, from, to) else projects == old(projects)
    {
      hide Valid, ProjectOk, RenamedExactly, RenamedRows, RenameRefused;
      RenameExact(Model(), from, to);
      ok := !RenameRefused(projects, from, to);
      if ok {
        projects := RenamedRows(projects, from, to);
      }
    }

    // ---------- DELETE ----------

    method DeleteService(id: Id)
      modifies this`services, this`containers
      ensures Model() == Erase(old(Model()), OneService(id))
    {
      Untouched(Model(), OneService(id));
      hide KeptContainers, KeptVolumes, KeptJobs, KeptOverlays;
      services := services - {id};
      containers := KeptContainers(containers, OneService(id));
    }

    method DeleteFile(id: Id)
      modifies this`files, this`services, this`containers
      ensures Model() == Deleted(old(Model()), OneFile(id))
    {
      hide KeptContainers, KeptVolumes, KeptJobs, KeptOverlays, Both, Deleted, Cascade, FilesOf, LayersOf, OverlaysOf;
      ghost var before := Model();
      Untouched(before, OneFile(id));
      files := files - {id};
      ghost var gone: set<Id> := {};
      assert Model() == Erase(before, NOTHING.(files := {id}, services := gone));
      while exists s :: s in services && services[s].file == id
        invariant Model() == Erase(before, NOTHING.(files := {id}, services := gone))
        invariant gone <= ServicesOf(before, {id}, {})
        decreases services.Keys
      {
        var s :| s in services && services[s].file == id;
        FileLoses(before, id, gone, s);
        DeleteService(s);
        gone := gone + {s};
      }
      FileCascade(before, id);
      NoServiceLeft(before, id, gone, services);
      DeletedIsErase(before, OneFile(id));
    }

    method DeleteProject(id: Id)
      modifies this`projects, this`files, this`services, this`containers, this`volumes, this`jobs
      ensures Model() == Deleted(old(Model()), OneProject(id))
    {
      hide KeptContainers, KeptVolumes, KeptJobs, KeptOverlays, Both, Deleted, Cascade, ServicesOf, FilesLost, ServicesLost;
      ghost var before := Model();
      Untouched(before, OneProject(id));
      projects := projects - {id};
      containers := KeptContainers(containers, OneProject(id));
      volumes := KeptVolumes(volumes, OneProject(id));
      jobs := KeptJobs(jobs, OneProject(id));
      NoServices(before);
      ghost var goneFiles := DeleteFilesOf(before, id);
      FilesLostIsFilesOf(before, id);
      DeleteServicesOf(before, id);
      ProjectCascade(before, id);
      DeletedIsErase(before, OneProject(id));
    }

    /** The first cascade of a project delete: its Compose files, each with its own services. */
    method DeleteFilesOf(ghost before: Db, id: Id) returns (ghost gone: set<Id>)
      requires Model() == Erase(before, ProjectLoss(id, {}, ServicesOf(before, {}, {})))
      modifies this`files, this`services, this`containers
      ensures Model() == Erase(before, ProjectLoss(id, gone, ServicesOf(before, gone, {})))
      ensures gone == FilesLost(before, id)
    {
      hide KeptContainers, KeptVolumes, KeptJobs, KeptOverlays, Both, Deleted, Cascade, ServicesOf;
      gone := {};
      while exists f :: f in files && files[f].project == id
        invariant Model() == Erase(before, ProjectLoss(id, gone, ServicesOf(before, gone, {})))
        invariant gone <= FilesLost(before, id)
        decreases files.Keys
      {
        var f :| f in files && files[f].project == id;
        ProjectLosesFile(before, id, gone, f);
        DeleteFile(f);
        gone := gone + {f};
      }
      NoFileLeft(before, id, gone, files);
    }

    /** The second cascade of a project delete: the services that name the project themselves. */
    method DeleteServicesOf(ghost before: Db, id: Id)
      requires Model() == Erase(before, ProjectLoss(id, FilesLost(before, id), ServicesOf(before, FilesLost(before, id), {})))
      modifies this`services, this`containers
      ensures Model() == Erase(before, ProjectLoss(id, FilesLost(before, id), ServicesLost(before, id)))
    {
      hide KeptContainers, KeptVolumes, KeptJobs, KeptOverlays, Both, ServicesOf, FilesLost, ServicesLost;
      ghost var lostFiles := FilesLost(before, id);
      ghost var gone := ServicesOf(before, lostFiles, {});
      FilesLostIsFilesOf(before, id);
      while exists s :: s in services && services[s].project == id
        invariant Model() == Erase(before, ProjectLoss(id, lostFiles, gone))
        invariant ServicesOf(before, lostFiles, {}) <= gone <= ServicesLost(before, id)
        decreases services.Keys
      {
        var s :| s in services && services[s].project == id;
        ServiceIsLost(before, id, s);
        ProjectLosesService(before, id, lostFiles, gone, s);
        DeleteService(s);
        gone := gone + {s};
      }
      NoProjectServiceLeft(before, id, gone, services);
    }

    method DeleteLayer(id: Id)
      modifies this`layers, this`overlays
      ensures Model() == Erase(old(Model()), OneLayer(id))
    {
      Untouched(Model(), OneLayer(id));
      hide KeptContainers, KeptVolumes, KeptJobs, KeptOverlays;
      layers := layers - {id};
      overlays := KeptOverlays(overlays, OneLayer(id));
    }

    method DeleteImage(id: Id)
      modifies this`images, this`layers, this`containers, this`overlays
      ensures Model() == Deleted(old(Model()), OneImage(id))
    {
      hide KeptContainers, KeptVolumes, KeptJobs, KeptOverlays, Both, Deleted, Cascade, LayersLost;
      ghost var before := Model();
      Untouched(before, OneImage(id));
      images := images - {id};
      containers := KeptContainers(containers, OneImage(id));
      overlays := KeptOverlays(overlays, OneImage(id));
      ghost var gone: set<Id> := {};
      while exists l :: l in layers && layers[l].image == id
        invariant Model() == Erase(before, NOTHING.(images := {id}, layers := gone))
        invariant gone <= LayersLost(before, id)
        decreases layers.Keys
      {
        var l :| l in layers && layers[l].image == id;
        LayerIsLost(before, id, l);
        ImageLosesLayer(before, id, gone, l);
        DeleteLayer(l);
        gone := gone + {l};
      }
      ImageCascade(before, id);
      NoLayerLeft(before, id, gone, layers);
      DeletedIsErase(before, OneImage(id));
    }

    method DeleteOverlay(id: Id)
      modifies this`overlays
      ensures Model() == Erase(old(Model()), OneOverlay(id))
      ensures overlays == old(overlays) - {id}
    {
      Untouched(Model(), OneOverlay(id));
      DropOneOverlay(overlays, id);
      hide KeptContainers, KeptVolumes, KeptJobs, KeptOverlays;
      overlays := overlays - {id};
    }

    method DeleteContainer(id: Id)
      modifies this`containers, this`overlays
      ensures Model() == Deleted(old(Model()), OneContainer(id))
    {
      hide KeptContainers, KeptVolumes, KeptJobs, KeptOverlays, Both, Deleted, Cascade, OverlaysOf;
      ghost var before := Model();
      Untouched(before, OneContainer(id));
      DropOneContainer(containers, id);
      containers := containers - {id};
      ghost var gone: set<Id> := {};
      while exists o :: o in overlays && overlays[o].container == id
        invariant Model() == Erase(before, NOTHING.(containers := {id}, overlays := gone))
        invariant gone <= OverlaysOf(before, {id})
        decreases overlays.Keys
      {
        var o :| o in overlays && overlays[o].container == id;
        OverlayIsLost(before, id, gone, o);
        ContainerLosesOverlay(before, id, gone, o);
        DeleteOverlay(o);
        gone := gone + {o};
      }
      ContainerCascade(before, id);
      NoOverlayLeft(before, id, gone, overlays);
      DeletedIsErase(before, OneContainer(id));
    }

    method DeleteVolume(id: Id)
      modifies this`volumes
      ensures Model() == Erase(old(Model()), OneVolume(id))
    {
      Untouched(Model(), OneVolume(id));
      hide KeptContainers, KeptJobs, KeptOverlays;
      volumes := volumes - {id};
      assert KeptVolumes(old(volumes), OneVolume(id)) == volumes;
    }

    method DeleteJob(id: Id)
      modifies this`jobs
      ensures Model() == Erase(old(Model()), OneJob(id))
    {
      Untouched(Model(), OneJob(id));
      hide KeptContainers, KeptVolumes, KeptOverlays;
      jobs := jobs - {id};
      assert KeptJobs(old(jobs), OneJob(id)) == jobs;
    }
  }

  // ---------- one more row of a cascade ----------

  function ProjectLoss(id: Id, files: set<Id>, services: set<Id>): Doomed {
    NOTHING.(projects := {id}, files := files, services := services)
  }

  lemma DeletedIsErase(db: Db, seed: Doomed)
    ensures Deleted(db, seed) == Erase(db, Cascade(db, seed))
  {
  }

  // ---------- when a cascade loop ends, nothing it should take is left ----------

  lemma NoServiceLeft(db: Db, id: Id, gone: set<Id>, services: map<Id, Service>)
    requires services == db.services - gone && gone <= ServicesOf(db, {id}, {})
    requires forall s :: s in services ==> services[s].file != id
    ensures gone == ServicesOf(db, {id}, {})
  {
    forall s | s in ServicesOf(db, {id}, {})
      ensures s in gone
    {
      assert s in gone || s in services;
    }
  }

  lemma NoFileLeft(db: Db, id: Id, gone: set<Id>, files: map<Id, ComposeFile>)
    requires files == db.files - gone && gone <= FilesLost(db, id)
    requires forall f :: f in files ==> files[f].project != id
    ensures gone == FilesLost(db, id)
  {
    forall f | f in FilesLost(db, id)
      ensures f in gone
    {
      assert f in gone || f in files;
    }
  }

  lemma NoProjectServiceLeft(db: Db, id: Id, gone: set<Id>, services: map<Id, Service>)
    requires services == db.services - gone
    requires ServicesOf(db, FilesLost(db, id), {}) <= gone <= ServicesLost(db, id)
    requires forall s :: s in services ==> services[s].project != id
    ensures gone == ServicesLost(db, id)
  {
    forall s | s in ServicesLost(db, id)
      ensures s in gone
    {
      assert s in gone || s in services;
    }
  }

  lemma NoLayerLeft(db: Db, id: Id, gone: set<Id>, layers: map<Id, Layer>)
    requires layers == db.layers - gone && gone <= LayersLost(db, id)
    requires forall l :: l in layers ==> layers[l].image != id
    ensures gone == LayersLost(db, id)
  {
    forall l | l in LayersLost(db, id)
      ensures l in gone
    {
      assert l in gone || l in layers;
    }
  }

  lemma NoOverlayLeft(db: Db, id: Id, gone: set<Id>, overlays: map<Id, Overlay>)
    requires overlays == KeptOverlays(db.overlays, NOTHING.(containers := {id}, overlays := gone))
    requires gone <= OverlaysOf(db, {id})
    requires forall o :: o in overlays ==> overlays[o].container != id
    ensures gone == OverlaysOf(db, {id})
  {
    forall o | o in OverlaysOf(db, {id})
      ensures o in gone
    {
      assert o in gone || o in overlays;
    }
  }

  lemma NoServices(db: Db)
    ensures ServicesOf(db, {}, {}) == {}
  {
  }

  lemma FilesLostIsFilesOf(db: Db, id: Id)
    ensures ServicesOf(db, FilesLost(db, id), {}) <= ServicesLost(db, id)
  {
  }

  lemma ServiceIsLost(db: Db, id: Id, s: Id)
    ensures s in db.services && db.services[s].project == id ==> s in ServicesLost(db, id)
  {
  }

  lemma LayerIsLost(db: Db, id: Id, l: Id)
    ensures l in db.layers && db.layers[l].image == id ==> l in LayersLost(db, id)
  {
  }

  lemma OverlayIsLost(db: Db, id: Id, gone: set<Id>, o: Id)
    ensures var left := KeptOverlays(db.overlays, NOTHING.(containers := {id}, overlays := gone));
            o in left && left[o].container == id ==> o in OverlaysOf(db, {id})
  {
  }

  lemma FileLoses(db: Db, id: Id, gone: set<Id>, s: Id)
    ensures Erase(Erase(db, NOTHING.(files := {id}, services := gone)), OneService(s))
         == Erase(db, NOTHING.(files := {id}, services := gone + {s}))
  {
    hide Erase;
    EraseTwice(db, NOTHING.(files := {id}, services := gone), OneService(s));
    assert Both(NOTHING.(files := {id}, services := gone), OneService(s))
        == NOTHING.(files := {id}, services := gone + {s});
  }

  lemma FileCascade(db: Db, id: Id)
    ensures Cascade(db, OneFile(id)) == NOTHING.(files := {id}, services := ServicesOf(db, {id}, {}))
  {
    var d := Cascade(db, OneFile(id));
    assert FilesOf(db, {}) == {};
    assert d.files == {id};
    assert d.layers == {} && d.overlays == {};
  }

  lemma ContainerCascade(db: Db, id: Id)
    ensures Cascade(db, OneContainer(id)) == NOTHING.(containers := {id}, overlays := OverlaysOf(db, {id}))
  {
    var d := Cascade(db, OneContainer(id));
    assert d.files == {} && d.services == {} && d.layers == {};
  }

  /** A file deleted inside a project delete takes exactly its not yet deleted services along. */
  lemma ProjectLosesFile(db: Db, id: Id, files: set<Id>, f: Id)
    ensures Deleted(Erase(db, ProjectLoss(id, files, ServicesOf(db, files, {}))), OneFile(f))
         == Erase(db, ProjectLoss(id, files + {f}, ServicesOf(db, files + {f}, {})))
  {
    hide Cascade, ServicesOf, KeptContainers, KeptVolumes, KeptJobs, KeptOverlays;
    var loss := ProjectLoss(id, files, ServicesOf(db, files, {}));
    var now := Erase(db, loss);
    FileCascade(now, f);
    var more := NOTHING.(files := {f}, services := ServicesOf(now, {f}, {}));
    EraseTwice(db, loss, more);
    MoreServices(db, now, files, f);
    assert Both(loss, more) == ProjectLoss(id, files + {f}, ServicesOf(db, files + {f}, {}));
  }

  lemma MoreServices(db: Db, now: Db, files: set<Id>, f: Id)
    requires now.services == db.services - ServicesOf(db, files, {})
    ensures ServicesOf(db, files, {}) + ServicesOf(now, {f}, {}) == ServicesOf(db, files + {f}, {})
  {
  }

  lemma ProjectLosesService(db: Db, id: Id, files: set<Id>, services: set<Id>, s: Id)
    ensures Erase(Erase(db, ProjectLoss(id, files, services)), OneService(s))
         == Erase(db, ProjectLoss(id, files, services + {s}))
  {
    hide Erase;
    EraseTwice(db, ProjectLoss(id, files, services), OneService(s));
    assert Both(ProjectLoss(id, files, services), OneService(s)) == ProjectLoss(id, files, services + {s});
  }

  lemma ImageLosesLayer(db: Db, id: Id, gone: set<Id>, l: Id)
    ensures Erase(Erase(db, NOTHING.(images := {id}, layers := gone)), OneLayer(l))
         == Erase(db, NOTHING.(images := {id}, layers := gone + {l}))
  {
    hide Erase;
    EraseTwice(db, NOTHING.(images := {id}, layers := gone), OneLayer(l));
    assert Both(NOTHING.(images := {id}, layers := gone), OneLayer(l)) == NOTHING.(images := {id}, layers := gone + {l});
  }

  lemma ContainerLosesOverlay(db: Db, id: Id, gone: set<Id>, o: Id)
    ensures Erase(Erase(db, NOTHING.(containers := {id}, overlays := gone)), OneOverlay(o))
         == Erase(db, NOTHING.(containers := {id}, overlays := gone + {o}))
  {
    hide Erase;
    EraseTwice(db, NOTHING.(containers := {id}, overlays := gone), OneOverlay(o));
    assert Both(NOTHING.(containers := {id}, overlays := gone), OneOverlay(o))
        == NOTHING.(containers := {id}, overlays := gone + {o});
  }

  lemma DropOneOverlay(rows: map<Id, Overlay>, id: Id)
    ensures KeptOverlays(rows, OneOverlay(id)) == rows - {id}
  {
  }

  lemma DropOneContainer(rows: map<Id, Container>, id: Id)
    ensures KeptContainers(rows, OneContainer(id)) == rows - {id}
  {
  }
}
