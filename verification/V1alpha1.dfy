/** ClusterInstallation, the older resource: its spec and the defaults for it. */
module V1alpha1 {
  import opened Kube
  import opened LabelMaps
  import opened Sizes

  datatype Minio = Minio(
    storageSize: string,
    replicas: int,
    resources: Resources,
    externalURL: string,
    externalBucket: string,
    secret: string)

  datatype Backup = Backup(
    schedule: string,
    url: string,
    remoteDeletePolicy: string,
    secretName: string,
    restoreSecretName: string)

  datatype Database = Database(
    dbType: string,
    secret: string,
    storageSize: string,
    replicas: int,
    resources: Resources,
    initBucketURL: string,
    backup: Backup,
    version: string)

  datatype ElasticSearch = ElasticSearch(host: string, userName: string, password: string)

  datatype AppDeployment = AppDeployment(
    name: string,
    ingressName: string,
    image: string,
    version: string,
    resourceLabels: Option<Labels>)

  datatype BlueGreen = BlueGreen(productionDeployment: string, enable: bool, blue: AppDeployment, green: AppDeployment)

  datatype Canary = Canary(enable: bool, deployment: AppDeployment)

  datatype Spec = Spec(
    image: string,
    version: string,
    size: string,
    replicas: int,
    resources: Resources,
    ingressName: string,
    licenseSecret: string,
    nodeSelector: StringMap,
    affinity: Option<string>,
    minio: Minio,
    database: Database,
    blueGreen: BlueGreen,
    canary: Canary,
    elasticSearch: ElasticSearch,
    useServiceLoadBalancer: bool,
    serviceAnnotations: StringMap,
    useIngressTLS: bool,
    resourceLabels: Option<Labels>,
    ingressAnnotations: StringMap,
    env: seq<EnvVar>,
    livenessProbe: string,
    readinessProbe: string,
    imagePullPolicy: string,
    migrate: bool)

  // ---------- Defaults ----------

  predicate Convertible(spec: Spec) {
    !spec.blueGreen.enable && !spec.canary.enable
  }

  function MinioDefaults(minio: Minio): Minio {
    minio.(storageSize := OrElse(minio.storageSize, DEFAULT_STORAGE_SIZE))
  }

  /** Only mysql has a default version. */
  function DatabaseDefaults(db: Database): Database {
    var dbType := OrElse(db.dbType, DEFAULT_DATABASE_TYPE);
    db.(dbType := dbType,
        storageSize := OrElse(db.storageSize, DEFAULT_STORAGE_SIZE),
        version := if dbType == DEFAULT_DATABASE_TYPE then OrElse(db.version, DEFAULT_DATABASE_VERSION) else db.version)
  }

  const BLUE := "blue"
  const GREEN := "green"

  function Lower(c: char): char {
    if 'A' <= c <= 'Z' then c - 'A' + 'a' else c
  }

  function ToLower(s: string): string {
    seq(|s|, i requires 0 <= i < |s| => Lower(s[i]))
  }

  function Lowered(bg: BlueGreen): BlueGreen {
    bg.(productionDeployment := ToLower(bg.productionDeployment))
  }

  /** An enabled BlueGreen names one of its deployments, and both have a version and an image. */
  predicate BlueGreenIsRefused(bg: BlueGreen) {
    && bg.enable
    && (|| (ToLower(bg.productionDeployment) != BLUE && ToLower(bg.productionDeployment) != GREEN)
        || bg.green.version == "" || bg.blue.version == ""
        || bg.green.image == "" || bg.blue.image == "")
  }

  function NamedDeployment(d: AppDeployment, name: string, ingressName: string, colour: string): AppDeployment {
    d.(name := OrElse(d.name, name + "-" + colour), ingressName := OrElse(d.ingressName, colour + "." + ingressName))
  }

  /** What SetDefaults leaves of BlueGreen, also when it refuses it. */
  function BlueGreenDefaults(bg: BlueGreen, name: string, ingressName: string): BlueGreen {
    if !bg.enable then bg
    else if BlueGreenIsRefused(bg) then Lowered(bg)
    else Lowered(bg).(green := NamedDeployment(bg.green, name, ingressName, GREEN),
                      blue := NamedDeployment(bg.blue, name, ingressName, BLUE))
  }

  predicate CanaryIsRefused(canary: Canary) {
    canary.enable && (canary.deployment.version == "" || canary.deployment.image == "")
  }

  function CanaryDefaults(canary: Canary, name: string): Canary {
    if !canary.enable || CanaryIsRefused(canary) then canary
    else canary.(deployment := canary.deployment.(name := OrElse(canary.deployment.name, name + "-canary")))
  }

  predicate IsRefused(spec: Spec) {
    spec.ingressName == "" || BlueGreenIsRefused(spec.blueGreen) || CanaryIsRefused(spec.canary)
  }

  /** What SetDefaults leaves of a spec with a host: a refused BlueGreen stops it before Canary. */
  function WithDefaults(name: string, spec: Spec): Spec {
    spec.(image := OrElse(spec.image, DEFAULT_IMAGE),
          version := OrElse(spec.version, DEFAULT_VERSION),
          imagePullPolicy := OrElse(spec.imagePullPolicy, DEFAULT_PULL_POLICY),
          minio := MinioDefaults(spec.minio),
          database := DatabaseDefaults(spec.database),
          blueGreen := BlueGreenDefaults(spec.blueGreen, name, spec.ingressName),
          canary := if BlueGreenIsRefused(spec.blueGreen) then spec.canary else CanaryDefaults(spec.canary, name))
  }

  function OrReplicas(replicas: int, default: int): int {
    if replicas == 0 then default else replicas
  }

  function OrResources(resources: Resources, default: Resources): Resources {
    if resources == NO_RESOURCES then default else resources
  }

  function MinioDefaultSized(minio: Minio): Minio {
    minio.(replicas := OrReplicas(minio.replicas, DefaultSize().minio.replicas),
           resources := OrResources(minio.resources, DefaultSize().minio.resources))
  }

  /** Zero replicas mean unset; a database restored from a bucket keeps its zero. */
  function DatabaseDefaultSized(db: Database): Database {
    db.(replicas := if db.initBucketURL == "" then OrReplicas(db.replicas, DefaultSize().database.replicas)
      else db.replicas,
        resources := OrResources(db.resources, DefaultSize().database.resources))
  }

  function DefaultSized(spec: Spec): Spec {
    spec.(size := "",
          replicas := OrReplicas(spec.replicas, DefaultSize().app.replicas),
          resources := OrResources(spec.resources, DefaultSize().app.resources),
          minio := MinioDefaultSized(spec.minio),
          database := DatabaseDefaultSized(spec.database))
  }

  function Overridden(spec: Spec, size: ClusterSize): Spec {
    spec.(size := "",
          replicas := size.app.replicas,
          resources := size.app.resources,
          minio := spec.minio.(replicas := size.minio.replicas, resources := size.minio.resources),
          database := spec.database.(replicas := size.database.replicas, resources := size.database.resources))
  }

  /** A valid size overrides; an invalid one is dropped and the defaults apply. */
  function Sized(spec: Spec): Spec {
    var size := GetClusterSize(spec.size);
    if size.Some? then Overridden(spec, size.value) else DefaultSized(spec)
  }

  /** The spec that a reconcile stores; None is an error, which stores nothing. */
  function Default(name: string, spec: Spec): Option<Spec> {
    if IsRefused(spec) then None else Some(Sized(WithDefaults(name, spec)))
  }

  /** An accepted BlueGreen has two deployments that can be told apart by the production name, and both have
      a name, a host, an image and a version. */
  lemma AcceptedBlueGreenIsNamed(bg: BlueGreen, name: string, ingressName: string)
    requires bg.enable && !BlueGreenIsRefused(bg)
    ensures var result := BlueGreenDefaults(bg, name, ingressName);
      && (result.productionDeployment == BLUE || result.productionDeployment == GREEN)
      && (forall d :: d in {result.blue, result.green} ==>
            d.name != "" && d.ingressName != "" && d.image != "" && d.version != "")
      && !BlueGreenIsRefused(result)
      && BlueGreenDefaults(result, name, ingressName) == result
  {
    var result := BlueGreenDefaults(bg, name, ingressName);
    assert |name + "-" + GREEN| > 0 && |name + "-" + BLUE| > 0 && |GREEN + "." + ingressName| > 0 &&
      |BLUE + "." + ingressName| > 0;
    assert ToLower(BLUE) == BLUE && ToLower(GREEN) == GREEN;
  }

  // ---------- In place ----------

  class ClusterInstallation {
    const name: string
    var spec: Spec

    constructor (name: string, spec: Spec)
      ensures this.name == name && this.spec == spec
    {
      this.name, this.spec := name, spec;
    }

    method SetDefaults() returns (ok: bool)
      modifies this
      ensures ok <==> !IsRefused(old(spec))
      ensures spec == if old(spec).ingressName == "" then old(spec) else WithDefaults(name, old(spec))
    {
      hide DatabaseDefaults, MinioDefaults, OrElse, BlueGreenDefaults, BlueGreenIsRefused, CanaryDefaults,
        CanaryIsRefused;
      if spec.ingressName == "" {
        return false;
      }
      spec := spec.(image := OrElse(spec.image, DEFAULT_IMAGE));
      spec := spec.(version := OrElse(spec.version, DEFAULT_VERSION));
      spec := spec.(imagePullPolicy := OrElse(spec.imagePullPolicy, DEFAULT_PULL_POLICY));
      SetMinioDefaults();
      SetDatabaseDefaults();
      ok := SetBlueGreenDefaults();
      if !ok {
        return;
      }
      ok := SetCanaryDefaults();
    }

    method SetBlueGreenDefaults() returns (ok: bool)
      modifies this
      ensures ok <==> !BlueGreenIsRefused(old(spec).blueGreen)
      ensures spec == old(spec).(blueGreen := BlueGreenDefaults(old(spec).blueGreen, name, old(spec).ingressName))
    {
      hide ToLower;
      var bg := spec.blueGreen;
      if bg.enable {
        bg := bg.(productionDeployment := ToLower(bg.productionDeployment));
        spec := spec.(blueGreen := bg);
        if bg.productionDeployment != BLUE && bg.productionDeployment != GREEN {
          return false;
        }
        if bg.green.version == "" || bg.blue.version == "" {
          return false;
        }
        if bg.blue.image == "" || bg.green.image == "" {
          return false;
        }
        if bg.green.name == "" {
          bg := bg.(green := bg.green.(name := name + "-" + GREEN));
        }
        if bg.blue.name == "" {
          bg := bg.(blue := bg.blue.(name := name + "-" + BLUE));
        }
        if bg.green.ingressName == "" {
          bg := bg.(green := bg.green.(ingressName := GREEN + "." + spec.ingressName));
        }
        if bg.blue.ingressName == "" {
          bg := bg.(blue := bg.blue.(ingressName := BLUE + "." + spec.ingressName));
        }
        spec := spec.(blueGreen := bg);
      }
      return true;
    }

    method SetCanaryDefaults() returns (ok: bool)
      modifies this
      ensures ok <==> !CanaryIsRefused(old(spec).canary)
      ensures spec == old(spec).(canary := CanaryDefaults(old(spec).canary, name))
    {
      var canary := spec.canary;
      if canary.enable {
        if canary.deployment.version == "" {
          return false;
        }
        if canary.deployment.image == "" {
          return false;
        }
        if canary.deployment.name == "" {
          spec := spec.(canary := canary.(deployment := canary.deployment.(name := name + "-canary")));
        }
      }
      return true;
    }

    method SetMinioDefaults()
      modifies this
      ensures spec == old(spec).(minio := MinioDefaults(old(spec).minio))
    {
      if spec.minio.storageSize == "" {
        spec := spec.(minio := spec.minio.(storageSize := DEFAULT_STORAGE_SIZE));
      }
    }

    method SetDatabaseDefaults()
      modifies this
      ensures spec == old(spec).(database := DatabaseDefaults(old(spec).database))
    {
      if spec.database.dbType == "" {
        spec := spec.(database := spec.database.(dbType := DEFAULT_DATABASE_TYPE));
      }
      if spec.database.storageSize == "" {
        spec := spec.(database := spec.database.(storageSize := DEFAULT_STORAGE_SIZE));
      }
      if spec.database.dbType == DEFAULT_DATABASE_TYPE && spec.database.version == "" {
        spec := spec.(database := spec.database.(version := DEFAULT_DATABASE_VERSION));
      }
    }

    method SetReplicasAndResourcesFromSize() returns (ok: bool)
      modifies this
      ensures spec == Sized(old(spec))
      ensures ok <==> old(spec).size == "" || GetClusterSize(old(spec).size).Some?
    {
      if spec.size == "" {
        SetDefaultReplicasAndResources();
        return true;
      }
      var size := GetClusterSize(spec.size);
      if size.None? {
        SetDefaultReplicasAndResources();
        return false;
      }
      OverrideReplicasAndResourcesFromSize(size.value);
      return true;
    }

    method SetDefaultReplicasAndResources()
      modifies this
      ensures spec == DefaultSized(old(spec))
    {
      hide DefaultSize, MinioDefaultSized, DatabaseDefaultSized;
      spec := spec.(size := "");
      spec := spec.(replicas := OrReplicas(spec.replicas, DefaultSize().app.replicas));
      spec := spec.(resources := OrResources(spec.resources, DefaultSize().app.resources));
      SetMinioDefaultSize();
      SetDatabaseDefaultSize();
    }

    method SetMinioDefaultSize()
      modifies this
      ensures spec == old(spec).(minio := MinioDefaultSized(old(spec).minio))
    {
      if spec.minio.replicas == 0 {
        spec := spec.(minio := spec.minio.(replicas := DefaultSize().minio.replicas));
      }
      if spec.minio.resources == NO_RESOURCES {
        spec := spec.(minio := spec.minio.(resources := DefaultSize().minio.resources));
      }
    }

    method SetDatabaseDefaultSize()
      modifies this
      ensures spec == old(spec).(database := DatabaseDefaultSized(old(spec).database))
    {
      if spec.database.replicas == 0 && spec.database.initBucketURL == "" {
        spec := spec.(database := spec.database.(replicas := DefaultSize().database.replicas));
      }
      if spec.database.resources == NO_RESOURCES {
        spec := spec.(database := spec.database.(resources := DefaultSize().database.resources));
      }
    }

    method OverrideReplicasAndResourcesFromSize(size: ClusterSize)
      modifies this
      ensures spec == Overridden(old(spec), size)
    {
      spec := spec.(size := "");
      spec := spec.(replicas := size.app.replicas);
      spec := spec.(resources := size.app.resources);
      spec := spec.(minio := spec.minio.(replicas := size.minio.replicas));
      spec := spec.(minio := spec.minio.(resources := size.minio.resources));
      spec := spec.(database := spec.database.(replicas := size.database.replicas));
      spec := spec.(database := spec.database.(resources := size.database.resources));
    }
  }
}
