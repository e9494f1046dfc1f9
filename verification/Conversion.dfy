/** The translation of a ClusterInstallation into a Mattermost resource. Applying the defaults before
    or after it makes no difference, so it does not matter when a user asks for the migration. */
module Conversion {
  import opened Kube
  import opened LabelMaps
  import opened Sizes
  import V1alpha1
  import V1beta1

  /** Secrets of the namespace by name: what each one holds. */
  type Secrets = map<string, map<string, string>>

  // ---------- Translation ----------

  function ConvertReplicas(replicas: int): Option<int> {
    if replicas < 0 then Some(0) else if replicas == 0 then None else Some(replicas)
  }

  function ConvertFileStore(minio: V1alpha1.Minio): V1beta1.FileStore {
    if minio.externalURL == "" then
      var managed := V1beta1.ManagedMinio(minio.storageSize, ConvertReplicas(minio.replicas), minio.resources);
      V1beta1.FileStore(None, None, Some(managed), None)
    else
      var external := V1beta1.ExternalStore(minio.externalURL, minio.externalBucket, minio.secret);
      V1beta1.FileStore(Some(external), None, None, None)
  }

  function ManagedDatabase(db: V1alpha1.Database): V1beta1.Database {
    V1beta1.Database(None, Some(V1beta1.ManagedDatabase(
      db.dbType, db.storageSize, ConvertReplicas(db.replicas), db.resources, db.initBucketURL, db.backup, db.version)))
  }

  predicate HasText(data: map<string, string>, key: string) {
    key in data && data[key] != ""
  }

  predicate IsExternalSecret(data: map<string, string>) {
    "DB_CONNECTION_STRING" in data
  }

  /** A secret of a managed database holds all four credentials. */
  predicate SecretIsValid(data: map<string, string>) {
    || IsExternalSecret(data)
    || (HasText(data, "ROOT_PASSWORD") && HasText(data, "USER") && HasText(data, "PASSWORD")
        && HasText(data, "DATABASE"))
  }

  function ConvertDatabase(db: V1alpha1.Database, secrets: Secrets): Option<V1beta1.Database> {
    if db.secret == "" then Some(ManagedDatabase(db))
    else if db.secret !in secrets || !SecretIsValid(secrets[db.secret]) then None
    else if IsExternalSecret(secrets[db.secret]) then Some(V1beta1.Database(Some(db.secret), None))
    else Some(ManagedDatabase(db))
  }

  /** ConvertToMM: None is the error of the database secret. */
  function Convert(ci: V1alpha1.Spec, secrets: Secrets): Option<V1beta1.Spec> {
    var database := ConvertDatabase(ci.database, secrets);
    if database.None? then None
    else Some(V1beta1.Spec(
      ci.size, ci.image, ci.version, ConvertReplicas(ci.replicas), ci.resources, ci.env, ci.licenseSecret,
      ci.ingressName, ci.ingressAnnotations, ci.useIngressTLS, ci.useServiceLoadBalancer, ci.serviceAnnotations,
      ci.resourceLabels, None, None, [], ci.imagePullPolicy, database.value, ConvertFileStore(ci.minio),
      ci.elasticSearch, ci.nodeSelector, ci.affinity, ci.livenessProbe, ci.readinessProbe))
  }

  function ConvertAndDefault(ci: V1alpha1.Spec, secrets: Secrets): Option<V1beta1.Spec> {
    var converted := Convert(ci, secrets);
    if converted.None? then None else V1beta1.Default(converted.value)
  }

  // ---------- Early or late defaults ----------

  function BetaDatabase(db: V1beta1.Database, size: Option<ClusterSize>): V1beta1.Database {
    var defaulted := V1beta1.DatabaseDefaults(db);
    if size.Some? then V1beta1.DatabaseOverridden(defaulted, size.value) else V1beta1.DatabaseDefaultSized(defaulted)
  }

  function AlphaDatabase(db: V1alpha1.Database, size: Option<ClusterSize>): V1alpha1.Database {
    var defaulted := V1alpha1.DatabaseDefaults(db);
    if size.Some? then defaulted.(replicas := size.value.database.replicas, resources := size.value.database.resources)
    else V1alpha1.DatabaseDefaultSized(defaulted)
  }

  lemma DatabaseDefaultsCommute(db: V1alpha1.Database, size: Option<ClusterSize>)
    requires size.Some? ==> size.value.database.replicas > 0 && size.value.database.resources != NO_RESOURCES
    ensures BetaDatabase(ManagedDatabase(AlphaDatabase(db, size)), None) == BetaDatabase(ManagedDatabase(db), size)
  {
    SizesAreNeverUnset(DEFAULT_SIZE_NAME);
  }

  lemma ConvertedDatabaseCommutes(db: V1alpha1.Database, size: Option<ClusterSize>, secrets: Secrets)
    requires size.Some? ==> size.value.database.replicas > 0 && size.value.database.resources != NO_RESOURCES
    ensures ConvertDatabase(AlphaDatabase(db, size), secrets).Some? == ConvertDatabase(db, secrets).Some?
    ensures ConvertDatabase(db, secrets).Some? ==>
      BetaDatabase(ConvertDatabase(AlphaDatabase(db, size), secrets).value, None) ==
        BetaDatabase(ConvertDatabase(db, secrets).value, size)
  {
    hide SecretIsValid, IsExternalSecret;
    DatabaseDefaultsCommute(db, size);
  }

  function BetaStore(fs: V1beta1.FileStore, size: Option<ClusterSize>): V1beta1.FileStore {
    var defaulted := V1beta1.StoreDefaults(fs);
    if size.Some? then V1beta1.StoreOverridden(defaulted, size.value) else V1beta1.StoreDefaultSized(defaulted)
  }

  function AlphaStore(minio: V1alpha1.Minio, size: Option<ClusterSize>): V1alpha1.Minio {
    var defaulted := V1alpha1.MinioDefaults(minio);
    if size.Some? then defaulted.(replicas := size.value.minio.replicas, resources := size.value.minio.resources)
    else V1alpha1.MinioDefaultSized(defaulted)
  }

  lemma StoreDefaultsCommute(minio: V1alpha1.Minio, size: Option<ClusterSize>)
    requires size.Some? ==> size.value.minio.replicas > 0 && size.value.minio.resources != NO_RESOURCES
    ensures BetaStore(ConvertFileStore(AlphaStore(minio, size)), None) == BetaStore(ConvertFileStore(minio), size)
  {
    SizesAreNeverUnset(DEFAULT_SIZE_NAME);
  }

  function AlphaReplicas(replicas: int, size: Option<ClusterSize>): int {
    if size.Some? then size.value.app.replicas else V1alpha1.OrReplicas(replicas, DefaultSize().app.replicas)
  }

  function BetaReplicas(replicas: Option<int>, size: Option<ClusterSize>): Option<int> {
    if size.Some? then Some(size.value.app.replicas) else V1beta1.OrReplicas(replicas, DefaultSize().app.replicas)
  }

  function AppResources(resources: Resources, size: Option<ClusterSize>): Resources {
    if size.Some? then size.value.app.resources else V1alpha1.OrResources(resources, DefaultSize().app.resources)
  }

  lemma AppDefaultsCommute(replicas: int, resources: Resources, size: Option<ClusterSize>)
    requires size.Some? ==> size.value.app.replicas > 0 && size.value.app.resources != NO_RESOURCES
    ensures BetaReplicas(ConvertReplicas(AlphaReplicas(replicas, size)), None) ==
      BetaReplicas(ConvertReplicas(replicas), size)
    ensures AppResources(AppResources(resources, size), None) == AppResources(resources, size)
  {
    SizesAreNeverUnset(DEFAULT_SIZE_NAME);
  }

  lemma AlphaDefault(name: string, ci: V1alpha1.Spec)
    requires V1alpha1.Convertible(ci) && ci.ingressName != ""
    ensures var size := GetClusterSize(ci.size);
      V1alpha1.Default(name, ci) == Some(ci.(
        size := "",
        image := OrElse(ci.image, DEFAULT_IMAGE),
        version := OrElse(ci.version, DEFAULT_VERSION),
        imagePullPolicy := OrElse(ci.imagePullPolicy, DEFAULT_PULL_POLICY),
        replicas := AlphaReplicas(ci.replicas, size),
        resources := AppResources(ci.resources, size),
        minio := AlphaStore(ci.minio, size),
        database := AlphaDatabase(ci.database, size)))
  {
    hide GetClusterSize, DefaultSize, V1alpha1.DatabaseDefaults, V1alpha1.DatabaseDefaultSized, V1alpha1.MinioDefaults,
      V1alpha1.MinioDefaultSized, OrElse, V1alpha1.OrReplicas, V1alpha1.OrResources;
  }

  lemma BetaDefault(mm: V1beta1.Spec)
    requires mm.ingress.None? && mm.loadBalancer.None? && mm.volumes == [] && mm.ingressName != ""
    ensures var size := GetClusterSize(mm.size);
      V1beta1.Default(mm) == Some(mm.(
        size := "",
        image := OrElse(mm.image, DEFAULT_IMAGE),
        version := OrElse(mm.version, DEFAULT_VERSION),
        imagePullPolicy := OrElse(mm.imagePullPolicy, DEFAULT_PULL_POLICY),
        replicas := BetaReplicas(mm.replicas, size),
        resources := AppResources(mm.resources, size),
        fileStore := BetaStore(mm.fileStore, size),
        database := BetaDatabase(mm.database, size)))
  {
    hide GetClusterSize, DefaultSize, V1beta1.DatabaseDefaults, V1beta1.DatabaseOverridden,
      V1beta1.DatabaseDefaultSized, V1beta1.StoreDefaults, V1beta1.StoreOverridden, V1beta1.StoreDefaultSized, OrElse,
      V1beta1.OrReplicas, V1alpha1.OrResources;
  }

  lemma OrElseTwice(text: string, default: string)
    ensures OrElse(OrElse(text, default), default) == OrElse(text, default)
  {}

  /** Defaulting the old resource first changes neither the errors nor the Mattermost spec that the
      first reconcile after the migration stores. */
  lemma EarlyDefaultsChangeNothing(name: string, ci: V1alpha1.Spec, secrets: Secrets)
    requires V1alpha1.Convertible(ci)
    ensures var early := V1alpha1.Default(name, ci);
      ConvertAndDefault(ci, secrets) == if early.None? then None else ConvertAndDefault(early.value, secrets)
  {
    var early := V1alpha1.Default(name, ci);
    if early.Some? {
      var size := GetClusterSize(ci.size);
      if size.Some? {
        SizesAreNeverUnset(ci.size);
      }
      EmptySizeIsInvalid();
      ConvertedDatabaseCommutes(ci.database, size, secrets);
      StoreDefaultsCommute(ci.minio, size);
      AppDefaultsCommute(ci.replicas, ci.resources, size);
      OrElseTwice(ci.image, DEFAULT_IMAGE);
      OrElseTwice(ci.version, DEFAULT_VERSION);
      OrElseTwice(ci.imagePullPolicy, DEFAULT_PULL_POLICY);
      AlphaDefault(name, ci);
      if Convert(ci, secrets).Some? {
        BetaDefault(Convert(ci, secrets).value);
        BetaDefault(Convert(early.value, secrets).value);
      }
      hide V1alpha1.Default, V1beta1.Default, GetClusterSize, AlphaReplicas, BetaReplicas, AppResources, AlphaStore,
        BetaStore, AlphaDatabase, BetaDatabase, ConvertDatabase, ConvertFileStore, ConvertReplicas, OrElse;
    }
  }

  // ---------- The same pods before and after ----------

  /** What the specs make of the main container and its pods. */
  datatype Workload = Workload(
    pods: int,
    image: string,
    imagePullPolicy: string,
    resources: Resources,
    env: seq<EnvVar>,
    licenseSecret: string,
    elasticSearch: V1alpha1.ElasticSearch,
    host: string,
    bodySizeFrom: Option<StringMap>,
    livenessProbe: string,
    readinessProbe: string,
    nodeSelector: StringMap,
    affinity: Option<string>)

  /** GenerateDeployment never asks for a negative number of pods. */
  function AlphaWorkload(ci: V1alpha1.Spec): Workload {
    Workload(
      if ci.replicas < 0 then 0 else ci.replicas,
      ImageReference(ci.image, ci.version), ci.imagePullPolicy, ci.resources, ci.env, ci.licenseSecret,
        ci.elasticSearch,
      ci.ingressName, if ci.useServiceLoadBalancer then None else Some(ci.ingressAnnotations),
      ci.livenessProbe, ci.readinessProbe, ci.nodeSelector, ci.affinity)
  }

  /** A Deployment without a replica count runs one pod. */
  function WantedPods(mm: V1beta1.Spec): int {
    if mm.replicas.Some? then mm.replicas.value else 1
  }

  function BetaWorkload(mm: V1beta1.Spec): Workload {
    Workload(
      WantedPods(mm),
      ImageReference(mm.image, mm.version), mm.imagePullPolicy, mm.resources, mm.env, mm.licenseSecret,
        mm.elasticSearch,
      mm.ingressName, if mm.useServiceLoadBalancer then None else Some(mm.ingressAnnotations),
      mm.livenessProbe, mm.readinessProbe, mm.nodeSelector, mm.affinity)
  }

  /** The Deployment written for the new resource runs what the Deployment of the old one ran, for every
      replica count and every size. */
  lemma MigrationKeepsTheWorkload(name: string, ci: V1alpha1.Spec, secrets: Secrets)
    requires V1alpha1.Convertible(ci) && ci.ingressName != "" && Convert(ci, secrets).Some?
    ensures BetaWorkload(ConvertAndDefault(ci, secrets).value) == AlphaWorkload(V1alpha1.Default(name, ci).value)
  {
    AlphaDefault(name, ci);
    BetaDefault(Convert(ci, secrets).value);
    EmptySizeIsInvalid();
    SizesAreNeverUnset(if GetClusterSize(ci.size).Some? then ci.size else DEFAULT_SIZE_NAME);
    hide V1alpha1.Default, V1beta1.Default, GetClusterSize, DefaultSize, AppResources, AlphaStore, BetaStore,
      AlphaDatabase, BetaDatabase, ConvertDatabase, ConvertFileStore, OrElse, ImageReference;
  }

  /** The number of ready pods that the migration waits for, from the spec as it is read, without defaults. */
  function AwaitedPods(ci: V1alpha1.Spec): int {
    var replicas := ConvertReplicas(ci.replicas);
    if replicas.Some? then replicas.value else 1
  }
}
