/** Kubernetes values shared by the models: containers, running states, and the
    search for a container by its name. */
module Kube {

  datatype Option<+T> = None | Some(value: T)

  /** The states of a Mattermost resource; `Unset` is the empty string. */
  datatype RunningState = Unset | Reconciling | Ready | Stable

  const MATTERMOST_APP_CONTAINER := "mattermost"
  const JOB_SERVER_CONTAINER := "mattermost-jobserver"

  const DEFAULT_IMAGE := "mattermost/mattermost-enterprise-edition"
  const DEFAULT_VERSION := "10.8.1"
  const DEFAULT_PULL_POLICY := "IfNotPresent"
  const DEFAULT_DATABASE_TYPE := "mysql"
  const DEFAULT_DATABASE_VERSION := "8.0"
  const DEFAULT_STORAGE_SIZE := "50Gi"

  function OrElse(text: string, default: string): string {
    if text == "" then default else text
  }

  /** A version that is only a digest is joined with `@`. */
  function ImageReference(image: string, version: string): string {
    if "sha256:" <= version then image + "@" + version else image + ":" + version
  }

  datatype StringMap = StringMap(entries: map<string, string>)

  /** An environment variable: its value, or a reference to where the value is found. */
  datatype EnvVar = EnvVar(name: string, value: string, source: Option<string>)

  datatype Container = Container(
    name: string,
    image: string,
    args: seq<string>,
    livenessProbe: Option<string>,
    readinessProbe: Option<string>)

  /** The first container with the given name. */
  function ContainerByName(containers: seq<Container>, name: string): Option<Container> {
    if containers == [] then None
    else if containers[0].name == name then Some(containers[0])
    else ContainerByName(containers[1..], name)
  }

  function MainContainer(containers: seq<Container>): Option<Container> {
    ContainerByName(containers, MATTERMOST_APP_CONTAINER)
  }

  function MainImage(containers: seq<Container>): Option<string> {
    match MainContainer(containers)
    case None => None
    case Some(c) => Some(c.image)
  }

  /** The search finds the container at `i` exactly when `i` is the first position with that name. */
  lemma {:induction false} ContainerByNameAt(containers: seq<Container>, name: string, i: nat)
    requires i <= |containers|
    requires forall k :: 0 <= k < i ==> containers[k].name != name
    ensures i == |containers| ==> ContainerByName(containers, name) == None
    ensures i < |containers| && containers[i].name == name ==> ContainerByName(containers, name) == Some(containers[i])
  {
    if i > 0 {
      ContainerByNameAt(containers[1..], name, i - 1);
    }
  }

  method GetContainerByName(containers: seq<Container>, name: string) returns (container: Option<Container>)
    ensures container == ContainerByName(containers, name)
    ensures container.Some? ==> container.value in containers && container.value.name == name
    ensures container.None? ==> forall c :: c in containers ==> c.name != name
  {
    for i := 0 to |containers|
      invariant forall k :: 0 <= k < i ==> containers[k].name != name
    {
      if containers[i].name == name {
        ContainerByNameAt(containers, name, i);
        return Some(containers[i]);
      }
    }
    ContainerByNameAt(containers, name, |containers|);
    return None;
  }
}
