/** Replica counts and resources of an installation by user count. */
module Sizes {
  import opened Kube

  datatype Resources = Resources(requests: map<string, string>, limits: map<string, string>)

  const NO_RESOURCES := Resources(map[], map[])

  datatype ComponentSize = ComponentSize(replicas: int, resources: Resources)

  datatype ClusterSize = ClusterSize(app: ComponentSize, minio: ComponentSize, database: ComponentSize)

  function Requests(cpu: string, memory: string): Resources {
    Resources(map["cpu" := cpu, "memory" := memory], map[])
  }

  function Bounded(cpu: string, memory: string, cpuLimit: string, memoryLimit: string): Resources {
    Requests(cpu, memory).(limits := map["cpu" := cpuLimit, "memory" := memoryLimit])
  }

  const SMALL_STORE := Requests("100m", "256Mi")
  const SMALL_DATABASE := Requests("200m", "512Mi")

  const SIZE_100 := ClusterSize(
    ComponentSize(1, Bounded("100m", "256Mi", "2000m", "4Gi")),
    ComponentSize(1, SMALL_STORE),
    ComponentSize(1, SMALL_DATABASE))

  const CLOUD_SIZE_10 := ClusterSize(
    ComponentSize(2, Bounded("10m", "150Mi", "2000m", "4Gi")),
    ComponentSize(4, SMALL_STORE),
    ComponentSize(2, SMALL_DATABASE))

  const CLOUD_SIZE_100 := ClusterSize(
    ComponentSize(2, Bounded("50m", "256Mi", "2000m", "4Gi")),
    ComponentSize(4, SMALL_STORE),
    ComponentSize(2, SMALL_DATABASE))

  const SIZE_1000 := ClusterSize(
    ComponentSize(2, Bounded("150m", "256Mi", "2000m", "4Gi")),
    ComponentSize(4, Requests("150m", "512Mi")),
    ComponentSize(2, Requests("250m", "512Mi")))

  const SIZE_5000 := ClusterSize(
    ComponentSize(2, Bounded("500m", "500Mi", "4000m", "8Gi")),
    ComponentSize(4, Requests("200m", "500Mi")),
    ComponentSize(3, Requests("500m", "500Mi")))

  const SIZE_10000 := SIZE_5000

  const SIZE_25000 := ClusterSize(
    ComponentSize(2, Bounded("1000m", "4Gi", "4000m", "16Gi")),
    ComponentSize(4, Requests("300m", "500Mi")),
    ComponentSize(3, Requests("500m", "1Gi")))

  const MINI_SINGLETON := ClusterSize(
    ComponentSize(1, Bounded("10m", "150Mi", "2000m", "4Gi")),
    ComponentSize(1, SMALL_STORE),
    ComponentSize(1, SMALL_DATABASE))

  const MINI_HA := CLOUD_SIZE_10

  const DEFAULT_SIZE_NAME := "5000users"

  function DefaultSize(): ClusterSize {
    SIZE_5000
  }

  /** An absent entry is an invalid size name. */
  function GetClusterSize(key: string): Option<ClusterSize> {
    if key == "cloud10users" then Some(CLOUD_SIZE_10)
    else if key == "cloud100users" then Some(CLOUD_SIZE_100)
    else if key == "100users" then Some(SIZE_100)
    else if key == "1000users" then Some(SIZE_1000)
    else if key == "5000users" then Some(SIZE_5000)
    else if key == "10000users" then Some(SIZE_10000)
    else if key == "25000users" then Some(SIZE_25000)
    else if key == "miniSingleton" then Some(MINI_SINGLETON)
    else if key == "miniHA" then Some(MINI_HA)
    else None
  }

  /** Every size names at least one pod and some resources for each component, so a value that was
      taken from a size is never mistaken for an unset one. */
  lemma SizesAreNeverUnset(key: string)
    requires GetClusterSize(key).Some?
    ensures var size := GetClusterSize(key).value;
      && size.app.replicas > 0 && size.minio.replicas > 0 && size.database.replicas > 0
      && size.app.resources != NO_RESOURCES
      && size.minio.resources != NO_RESOURCES
      && size.database.resources != NO_RESOURCES
  {
    var size := GetClusterSize(key).value;
    assert "cpu" in size.app.resources.requests;
    assert "cpu" in size.minio.resources.requests;
    assert "cpu" in size.database.resources.requests;
  }

  lemma EmptySizeIsInvalid()
    ensures GetClusterSize("") == None
    ensures GetClusterSize(DEFAULT_SIZE_NAME) == Some(DefaultSize())
  {}
}
