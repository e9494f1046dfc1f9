/** Mattermost, the newer resource: its spec and the defaults for it. */
module V1beta1 {
  import opened Kube
  import opened LabelMaps
  import opened Sizes
  import V1alpha1

  datatype ManagedDatabase = ManagedDatabase(
    dbType: string,
    storageSize: string,
    replicas: Option<int>,
    resources: Resources,
    initBucketURL: string,
    backup: V1alpha1.Backup,
    version: string)

  /** `external` is the secret name of an external database, when that part of the spec is present. */
  datatype Database = Database(external: Option<string>, managed: Option<ManagedDatabase>)

  datatype ExternalStore = ExternalStore(url: string, bucket: string, secret: string)

  datatype ManagedMinio = ManagedMinio(storageSize: string, replicas: Option<int>, resources: Resources)

  datatype LocalStore = LocalStore(enabled: bool, storageSize: string, accessModes: seq<string>)

  datatype FileStore = FileStore(
    external: Option<ExternalStore>,
    volumeClaim: Option<string>,
    managed: Option<ManagedMinio>,
    local: Option<LocalStore>)

  datatype Ingress = Ingress(enabled: bool, host: string)

  datatype LoadBalancerController = LoadBalancerController(enabled: bool, hosts: seq<string>)

  datatype VolumeSource =
    | ConfigMap
    | Secret
    | EmptyDir
    | PersistentVolumeClaim
    | Projected
    | DownwardAPI
    | CSI
    | OtherSource

  datatype Volume = Volume(name: string, source: VolumeSource)

  datatype Spec = Spec(
    size: string,
    image: string,
    version: string,
    replicas: Option<int>,
    resources: Resources,
    env: seq<EnvVar>,
    licenseSecret: string,
    ingressName: string,
    ingressAnnotations: StringMap,
    useIngressTLS: bool,
    useServiceLoadBalancer: bool,
    serviceAnnotations: StringMap,
    resourceLabels: Option<Labels>,
    ingress: Option<Ingress>,
    loadBalancer: Option<LoadBalancerController>,
    volumes: seq<Volume>,
    imagePullPolicy: string,
    database: Database,
    fileStore: FileStore,
    elasticSearch: V1alpha1.ElasticSearch,
    nodeSelector: StringMap,
    affinity: Option<string>,
    livenessProbe: string,
    readinessProbe: string)

  // ---------- Databases and file stores ----------

  predicate DatabaseIsExternal(db: Database) {
    db.external.Some? && db.external.value != ""
  }

  const NO_BACKUP := V1alpha1.Backup("", "", "", "", "")

  const NEW_MANAGED_DATABASE := ManagedDatabase("", "", None, NO_RESOURCES, "", NO_BACKUP, "")

  function EnsuredDatabase(db: Database): ManagedDatabase {
    if db.managed.None? then NEW_MANAGED_DATABASE else db.managed.value
  }

  function ManagedDatabaseDefaults(db: ManagedDatabase): ManagedDatabase {
    db.(dbType := OrElse(db.dbType, DEFAULT_DATABASE_TYPE),
        storageSize := OrElse(db.storageSize, DEFAULT_STORAGE_SIZE),
        version := OrElse(db.version, DEFAULT_DATABASE_VERSION))
  }

  function DatabaseDefaults(db: Database): Database {
    if DatabaseIsExternal(db) then db else db.(managed := Some(ManagedDatabaseDefaults(EnsuredDatabase(db))))
  }

  function OrReplicas(replicas: Option<int>, default: int): Option<int> {
    if replicas.None? then Some(default) else replicas
  }

  function DatabaseDefaultSized(db: Database): Database {
    if DatabaseIsExternal(db) then db
    else
      var managed := EnsuredDatabase(db);
      db.(managed := Some(managed.(replicas := OrReplicas(managed.replicas, DefaultSize().database.replicas),
                                   resources := V1alpha1.OrResources(managed.resources,
                                     DefaultSize().database.resources))))
  }

  function DatabaseOverridden(db: Database, size: ClusterSize): Database {
    if DatabaseIsExternal(db) then db
    else db.(managed := Some(EnsuredDatabase(db).(replicas := Some(size.database.replicas),
                                                  resources := size.database.resources)))
  }

  /** External, an external volume, or local: the operator runs no Minio for it. */
  predicate StoreIsNotManaged(fs: FileStore) {
    || (fs.external.Some? && fs.external.value.url != "")
    || (fs.volumeClaim.Some? && fs.volumeClaim.value != "")
    || (fs.local.Some? && fs.local.value.enabled)
  }

  function EnsuredMinio(fs: FileStore): ManagedMinio {
    if fs.managed.None? then ManagedMinio("", None, NO_RESOURCES) else fs.managed.value
  }

  function StoreDefaults(fs: FileStore): FileStore {
    if StoreIsNotManaged(fs) then fs
    else
      var managed := EnsuredMinio(fs);
      fs.(managed := Some(managed.(storageSize := OrElse(managed.storageSize, DEFAULT_STORAGE_SIZE))))
  }

  function StoreDefaultSized(fs: FileStore): FileStore {
    if StoreIsNotManaged(fs) then fs
    else
      var managed := EnsuredMinio(fs);
      fs.(managed := Some(managed.(replicas := OrReplicas(managed.replicas, DefaultSize().minio.replicas),
                                   resources := V1alpha1.OrResources(managed.resources,
                                     DefaultSize().minio.resources))))
  }

  function StoreOverridden(fs: FileStore, size: ClusterSize): FileStore {
    if StoreIsNotManaged(fs) then fs
    else
      var minio := EnsuredMinio(fs);
      fs.(managed := Some(minio.(replicas := Some(size.minio.replicas), resources := size.minio.resources)))
  }

  // ---------- Defaults ----------

  predicate LoadBalancerEnabled(spec: Spec) {
    spec.loadBalancer.Some? && spec.loadBalancer.value.enabled
  }

  predicate IngressEnabled(spec: Spec) {
    spec.ingress.None? || spec.ingress.value.enabled
  }

  function IngressHost(spec: Spec): string {
    if spec.ingress.None? then spec.ingressName else spec.ingress.value.host
  }

  predicate HostIsMissing(spec: Spec) {
    if LoadBalancerEnabled(spec) then spec.loadBalancer.value.hosts == []
    else IngressEnabled(spec) && IngressHost(spec) == ""
  }

  predicate VolumesAreAllowed(volumes: seq<Volume>) {
    forall v :: v in volumes ==> !v.source.OtherSource?
  }

  function WithDefaults(spec: Spec): Spec {
    spec.(image := OrElse(spec.image, DEFAULT_IMAGE),
          version := OrElse(spec.version, DEFAULT_VERSION),
          imagePullPolicy := OrElse(spec.imagePullPolicy, DEFAULT_PULL_POLICY),
          fileStore := StoreDefaults(spec.fileStore),
          database := DatabaseDefaults(spec.database))
  }

  function DefaultSized(spec: Spec): Spec {
    spec.(size := "",
          replicas := OrReplicas(spec.replicas, DefaultSize().app.replicas),
          resources := V1alpha1.OrResources(spec.resources, DefaultSize().app.resources),
          fileStore := StoreDefaultSized(spec.fileStore),
          database := DatabaseDefaultSized(spec.database))
  }

  function Overridden(spec: Spec, size: ClusterSize): Spec {
    spec.(size := "",
          replicas := Some(size.app.replicas),
          resources := size.app.resources,
          fileStore := StoreOverridden(spec.fileStore, size),
          database := DatabaseOverridden(spec.database, size))
  }

  function Sized(spec: Spec): Spec {
    var size := GetClusterSize(spec.size);
    if size.Some? then Overridden(spec, size.value) else DefaultSized(spec)
  }

  /** The spec that a reconcile stores; None is an error, which stores nothing. */
  function Default(spec: Spec): Option<Spec> {
    if HostIsMissing(spec) || !VolumesAreAllowed(spec.volumes) then None else Some(Sized(WithDefaults(spec)))
  }

  lemma DatabaseDefaultIsIdempotent(db: Database, size: Option<ClusterSize>)
    requires size.Some? ==> size.value.database.resources != NO_RESOURCES
    ensures var sized := if size.Some? then DatabaseOverridden(DatabaseDefaults(db), size.value)
      else DatabaseDefaultSized(DatabaseDefaults(db));
      DatabaseDefaultSized(DatabaseDefaults(sized)) == sized
  {
    SizesAreNeverUnset(DEFAULT_SIZE_NAME);
  }

  lemma StoreDefaultIsIdempotent(fs: FileStore, size: Option<ClusterSize>)
    requires size.Some? ==> size.value.minio.resources != NO_RESOURCES
    ensures var sized := if size.Some? then StoreOverridden(StoreDefaults(fs), size.value)
      else StoreDefaultSized(StoreDefaults(fs));
      StoreDefaultSized(StoreDefaults(sized)) == sized
  {
    SizesAreNeverUnset(DEFAULT_SIZE_NAME);
  }

  /** A second pass changes nothing, so a stored spec is not written again. */
  lemma DefaultIsIdempotent(spec: Spec)
    requires Default(spec).Some?
    ensures Default(Default(spec).value) == Default(spec)
  {
    hide StoreDefaults, DatabaseDefaults, StoreDefaultSized, DatabaseDefaultSized, StoreOverridden, DatabaseOverridden,
      GetClusterSize, DefaultSize;
    var size := GetClusterSize(spec.size);
    if size.Some? {
      SizesAreNeverUnset(spec.size);
    }
    EmptySizeIsInvalid();
    SizesAreNeverUnset(DEFAULT_SIZE_NAME);
    DatabaseDefaultIsIdempotent(spec.database, size);
    StoreDefaultIsIdempotent(spec.fileStore, size);
  }

  // ---------- What a sized spec has ----------

  /** The size is used up, and every part that the operator runs has a replica count and resources. */
  predicate Complete(spec: Spec) {
    && spec.size == "" && spec.replicas.Some? && spec.resources != NO_RESOURCES
    && (!DatabaseIsExternal(spec.database) ==>
          spec.database.managed.Some? && spec.database.managed.value.replicas.Some?
          && spec.database.managed.value.resources != NO_RESOURCES)
    && (!StoreIsNotManaged(spec.fileStore) ==>
          spec.fileStore.managed.Some? && spec.fileStore.managed.value.replicas.Some?
          && spec.fileStore.managed.value.resources != NO_RESOURCES)
  }

  /** Counts and resources that the user has set stay. */
  predicate KeepsAmounts(before: Spec, after: Spec) {
    && (before.replicas.Some? ==> after.replicas == before.replicas)
    && (before.resources != NO_RESOURCES ==> after.resources == before.resources)
    && (before.database.managed.Some? && before.database.managed.value.replicas.Some? ==>
          after.database.managed.Some? &&
            after.database.managed.value.replicas == before.database.managed.value.replicas)
    && (before.fileStore.managed.Some? && before.fileStore.managed.value.replicas.Some? ==>
          after.fileStore.managed.Some? &&
            after.fileStore.managed.value.replicas == before.fileStore.managed.value.replicas)
    && (before.database.managed.Some? && before.database.managed.value.resources != NO_RESOURCES ==>
          after.database.managed.Some? &&
            after.database.managed.value.resources == before.database.managed.value.resources)
    && (before.fileStore.managed.Some? && before.fileStore.managed.value.resources != NO_RESOURCES ==>
          after.fileStore.managed.Some? &&
            after.fileStore.managed.value.resources == before.fileStore.managed.value.resources)
  }

  /** External databases and file stores that the operator does not run stay as they are. */
  predicate KeepsUnmanaged(before: Spec, after: Spec) {
    && (DatabaseIsExternal(before.database) ==> after.database == before.database)
    && (StoreIsNotManaged(before.fileStore) ==> after.fileStore == before.fileStore)
  }

  /** Every part that the operator runs has the amounts of the size, which is used up. */
  predicate HasSize(spec: Spec, size: ClusterSize) {
    && spec.size == "" && spec.replicas == Some(size.app.replicas) && spec.resources == size.app.resources
    && (!DatabaseIsExternal(spec.database) ==>
          spec.database.managed.Some? && spec.database.managed.value.replicas == Some(size.database.replicas)
          && spec.database.managed.value.resources == size.database.resources)
    && (!StoreIsNotManaged(spec.fileStore) ==>
          spec.fileStore.managed.Some? && spec.fileStore.managed.value.replicas == Some(size.minio.replicas)
          && spec.fileStore.managed.value.resources == size.minio.resources)
  }

  lemma DefaultSizedIsComplete(spec: Spec)
    ensures Complete(DefaultSized(spec)) && KeepsAmounts(spec, DefaultSized(spec)) &&
      KeepsUnmanaged(spec, DefaultSized(spec))
  {
    EmptySizeIsInvalid();
    SizesAreNeverUnset(DEFAULT_SIZE_NAME);
    hide GetClusterSize, DefaultSize;
  }

  lemma OverriddenIsComplete(spec: Spec, key: string)
    requires GetClusterSize(key).Some?
    ensures var sized := Overridden(spec, GetClusterSize(key).value);
      Complete(sized) && KeepsUnmanaged(spec, sized)
  {
    SizesAreNeverUnset(key);
    hide GetClusterSize;
  }

  // ---------- In place ----------

  class Mattermost {
    var spec: Spec

    constructor (spec: Spec)
      ensures this.spec == spec
    {
      this.spec := spec;
    }

    method SetDefaults() returns (ok: bool)
      modifies this
      ensures ok <==> !HostIsMissing(old(spec)) && VolumesAreAllowed(old(spec).volumes)
      ensures spec == if HostIsMissing(old(spec)) then old(spec) else WithDefaults(old(spec))
    {
      hide StoreDefaults, DatabaseDefaults, OrElse, HostIsMissing;
      if HostIsMissing(spec) {
        return false;
      }
      spec := spec.(image := OrElse(spec.image, DEFAULT_IMAGE));
      spec := spec.(version := OrElse(spec.version, DEFAULT_VERSION));
      spec := spec.(imagePullPolicy := OrElse(spec.imagePullPolicy, DEFAULT_PULL_POLICY));
      SetStoreDefaults();
      SetDatabaseDefaults();
      ok := ValidateVolumes();
    }

    method EnsureStore()
      modifies this
      ensures spec == old(spec).(fileStore := old(spec).fileStore.(managed := Some(EnsuredMinio(old(spec).fileStore))))
    {
      if spec.fileStore.managed.None? {
        spec := spec.(fileStore := spec.fileStore.(managed := Some(ManagedMinio("", None, NO_RESOURCES))));
      }
    }

    method EnsureDatabase()
      modifies this
      ensures spec == old(spec).(database := old(spec).database.(managed := Some(EnsuredDatabase(old(spec).database))))
    {
      if spec.database.managed.None? {
        spec := spec.(database := spec.database.(managed := Some(NEW_MANAGED_DATABASE)));
      }
    }

    /** Replaces the managed part of the file store. */
    method AssignStore(managed: ManagedMinio)
      modifies this
      ensures spec == old(spec).(fileStore := old(spec).fileStore.(managed := Some(managed)))
    {
      spec := spec.(fileStore := spec.fileStore.(managed := Some(managed)));
    }

    /** Replaces the managed part of the database. */
    method AssignDatabase(managed: ManagedDatabase)
      modifies this
      ensures spec == old(spec).(database := old(spec).database.(managed := Some(managed)))
    {
      spec := spec.(database := spec.database.(managed := Some(managed)));
    }

    method SetStoreDefaults()
      modifies this
      ensures spec == old(spec).(fileStore := StoreDefaults(old(spec).fileStore))
    {
      if StoreIsNotManaged(spec.fileStore) {
        return;
      }
      EnsureStore();
      if spec.fileStore.managed.value.storageSize == "" {
        AssignStore(spec.fileStore.managed.value.(storageSize := DEFAULT_STORAGE_SIZE));
      }
    }

    method SetDatabaseDefaults()
      modifies this
      ensures spec == old(spec).(database := DatabaseDefaults(old(spec).database))
    {
      if DatabaseIsExternal(spec.database) {
        return;
      }
      EnsureDatabase();
      if spec.database.managed.value.dbType == "" {
        AssignDatabase(spec.database.managed.value.(dbType := DEFAULT_DATABASE_TYPE));
      }
      if spec.database.managed.value.storageSize == "" {
        AssignDatabase(spec.database.managed.value.(storageSize := DEFAULT_STORAGE_SIZE));
      }
      if spec.database.managed.value.version == "" {
        AssignDatabase(spec.database.managed.value.(version := DEFAULT_DATABASE_VERSION));
      }
    }

    method ValidateVolumes() returns (ok: bool)
      ensures ok <==> VolumesAreAllowed(spec.volumes)
    {
      for i := 0 to |spec.volumes|
        invariant forall k :: 0 <= k < i ==> !spec.volumes[k].source.OtherSource?
      {
        if spec.volumes[i].source.OtherSource? {
          return false;
        }
      }
      return true;
    }

    method SetReplicasAndResourcesFromSize() returns (ok: bool)
      modifies this
      ensures spec == Sized(old(spec))
      ensures Complete(spec) && KeepsUnmanaged(old(spec), spec)
      ensures ok <==> old(spec).size == "" || GetClusterSize(old(spec).size).Some?
    {
      if spec.size == "" {
        EmptySizeIsInvalid();
        SetDefaultReplicasAndResources();
        return true;
      }
      hide GetClusterSize, Overridden, DefaultSized, Complete, KeepsUnmanaged;
      var size := GetClusterSize(spec.size);
      if size.None? {
        SetDefaultReplicasAndResources();
        return false;
      }
      OverriddenIsComplete(spec, spec.size);
      OverrideReplicasAndResourcesFromSize(size.value);
      return true;
    }

    method SetDefaultReplicasAndResources()
      modifies this
      ensures spec == DefaultSized(old(spec))
      ensures Complete(spec) && KeepsAmounts(old(spec), spec) && KeepsUnmanaged(old(spec), spec)
    {
      hide DefaultSize, StoreDefaultSized, DatabaseDefaultSized, Complete, KeepsAmounts, KeepsUnmanaged;
      DefaultSizedIsComplete(spec);
      spec := spec.(size := "");
      spec := spec.(replicas := if spec.replicas.None? then Some(DefaultSize().app.replicas) else spec.replicas);
      spec := spec.(resources := if spec.resources == NO_RESOURCES then DefaultSize().app.resources
        else spec.resources);
      SetStoreDefaultSize();
      SetDatabaseDefaultSize();
    }

    method SetStoreDefaultSize()
      modifies this
      ensures spec == old(spec).(fileStore := StoreDefaultSized(old(spec).fileStore))
    {
      hide DefaultSize;
      if StoreIsNotManaged(spec.fileStore) {
        return;
      }
      EnsureStore();
      if spec.fileStore.managed.value.replicas.None? {
        AssignStore(spec.fileStore.managed.value.(replicas := Some(DefaultSize().minio.replicas)));
      }
      if spec.fileStore.managed.value.resources == NO_RESOURCES {
        AssignStore(spec.fileStore.managed.value.(resources := DefaultSize().minio.resources));
      }
    }

    method SetDatabaseDefaultSize()
      modifies this
      ensures spec == old(spec).(database := DatabaseDefaultSized(old(spec).database))
    {
      hide DefaultSize;
      if DatabaseIsExternal(spec.database) {
        return;
      }
      EnsureDatabase();
      if spec.database.managed.value.replicas.None? {
        AssignDatabase(spec.database.managed.value.(replicas := Some(DefaultSize().database.replicas)));
      }
      if spec.database.managed.value.resources == NO_RESOURCES {
        AssignDatabase(spec.database.managed.value.(resources := DefaultSize().database.resources));
      }
    }

    method OverrideReplicasAndResourcesFromSize(size: ClusterSize)
      modifies this
      ensures spec == Overridden(old(spec), size)
      ensures HasSize(spec, size) && KeepsUnmanaged(old(spec), spec)
    {
      hide StoreOverridden, DatabaseOverridden, HasSize, KeepsUnmanaged;
      OverriddenHasSize(spec, size);
      spec := spec.(size := "");
      spec := spec.(replicas := Some(size.app.replicas));
      spec := spec.(resources := size.app.resources);
      OverrideStore(size);
      OverrideDatabase(size);
    }

    method OverrideStore(size: ClusterSize)
      modifies this
      ensures spec == old(spec).(fileStore := StoreOverridden(old(spec).fileStore, size))
    {
      if StoreIsNotManaged(spec.fileStore) {
        return;
      }
      EnsureStore();
      AssignStore(spec.fileStore.managed.value.(replicas := Some(size.minio.replicas)));
      AssignStore(spec.fileStore.managed.value.(resources := size.minio.resources));
    }

    method OverrideDatabase(size: ClusterSize)
      modifies this
      ensures spec == old(spec).(database := DatabaseOverridden(old(spec).database, size))
    {
      if DatabaseIsExternal(spec.database) {
        return;
      }
      EnsureDatabase();
      AssignDatabase(spec.database.managed.value.(replicas := Some(size.database.replicas)));
      AssignDatabase(spec.database.managed.value.(resources := size.database.resources));
    }
  }

  lemma OverriddenHasSize(spec: Spec, size: ClusterSize)
    ensures HasSize(Overridden(spec, size), size) && KeepsUnmanaged(spec, Overridden(spec, size))
  {
  }
}
