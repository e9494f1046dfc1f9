/** Preparing the update Job: a deep copy of the Deployment's pod template that is edited in place. */
module UpdateJobTemplate {
  import opened Kube
  import opened LabelMaps
  import opened MattermostLabels
  import opened UpdateJob

  /** A pod template. The init containers are the first `initLength` elements of their array. */
  class PodSpec {
    var containers: array<Container>
    var initContainers: array<Container>
    var initLength: nat
    var neverRestarts: bool

    ghost predicate Valid()
      reads this
    {
      initLength <= initContainers.Length && containers != initContainers
    }

    ghost function InitContainers(): seq<Container>
      requires Valid()
      reads this, initContainers
    {
      initContainers[..initLength]
    }

    constructor DeepCopy(other: PodSpec)
      requires other.Valid()
      ensures Valid() && fresh(containers) && fresh(initContainers)
      ensures containers[..] == other.containers[..]
      ensures InitContainers() == other.InitContainers()
      ensures neverRestarts == other.neverRestarts
    {
      var cs := new Container[other.containers.Length](
        i requires 0 <= i < other.containers.Length reads other, other.containers => other.containers[i]);
      var inits := new Container[other.initLength](
        i requires 0 <= i < other.initLength <= other.initContainers.Length reads other, other.initContainers =>
          other.initContainers[i]);
      containers, initContainers, initLength, neverRestarts := cs, inits, other.initLength, other.neverRestarts;
    }
  }

  method FindContainer(name: string, containers: array<Container>, length: nat) returns (position: nat, found: bool)
    requires length <= containers.Length
    ensures found ==> position < length && containers[position].name == name
    ensures forall k :: 0 <= k < (if found then position else length) ==> containers[k].name != name
  {
    for i := 0 to length
      invariant forall k :: 0 <= k < i ==> containers[k].name != name
    {
      if containers[i].name == name {
        return i, true;
      }
    }
    return 0, false;
  }

  /** What is removed is the first container of that name; the others keep their order. */
  lemma {:induction false} WithoutFirst(containers: seq<Container>, name: string, position: nat)
    requires position <= |containers|
    requires forall k :: 0 <= k < position ==> containers[k].name != name
    ensures position == |containers| ==> Without(containers, name) == containers
    ensures position < |containers| && containers[position].name == name ==>
      Without(containers, name) == containers[..position] + containers[position + 1..]
  {
    if position > 0 {
      WithoutFirst(containers[1..], name, position - 1);
      assert containers == [containers[0]] + containers[1..];
      if position < |containers| {
        assert containers[1..][..position - 1] == containers[1..position];
        assert containers[..position] == [containers[0]] + containers[1..position];
      }
    }
  }

  /** Removes a container by shifting the later ones to the left, and returns the new length. */
  method RemoveContainer(name: string, containers: array<Container>, length: nat) returns (shorter: nat)
    requires length <= containers.Length
    modifies containers
    ensures shorter <= length
    ensures containers[..shorter] == Without(old(containers[..length]), name)
  {
    ghost var was := containers[..length];
    var position, found := FindContainer(name, containers, length);
    WithoutFirst(was, name, if found then position else length);
    if !found {
      return length;
    }
    for i := position to length - 1
      invariant containers[..position] == was[..position]
      invariant forall k :: position <= k < i ==> containers[k] == was[k + 1]
      invariant forall k :: i <= k < length ==> containers[k] == was[k]
    {
      containers[i] := containers[i + 1];
    }
    assert containers[..length - 1] == was[..position] + was[position + 1..];
    return length - 1;
  }

  class Job {
    var labels: LabelMap
    var pod: PodSpec

    constructor (labels: LabelMap, pod: PodSpec)
      ensures this.labels == labels && this.pod == pod
    {
      this.labels, this.pod := labels, pod;
    }
  }

  /** PrepareMattermostJobTemplate. The Deployment's own containers are not in the frame, so they stay as they
      are; the extra labels of the spec are, and get the `app` label of the Job. */
  method Prepare(name: string, deployment: PodSpec, extraLabels: LabelMap?) returns (job: Job)
    requires deployment.Valid()
    modifies extraLabels
    ensures fresh(job) && fresh(job.pod) && job.pod.Valid()
    ensures fresh(job.pod.containers) && fresh(job.pod.initContainers)
    ensures job.pod.containers[..] == JobContainers(deployment.containers[..])
    ensures job.pod.InitContainers() == Without(deployment.InitContainers(), WAIT_FOR_DB_SETUP)
    ensures job.pod.neverRestarts
    ensures extraLabels == null ==> job.labels.entries == map[AppLabel := name]
    ensures extraLabels != null ==>
      job.labels == extraLabels && extraLabels.entries == old(extraLabels.entries)[AppLabel := name]
  {
    var labels: LabelMap;
    if extraLabels == null {
      labels := new LabelMap(map[]);
    } else {
      labels := extraLabels;
    }
    labels.entries := labels.entries[AppLabel := name];
    var pod := new PodSpec.DeepCopy(deployment);
    pod.initLength := RemoveContainer(WAIT_FOR_DB_SETUP, pod.initContainers, pod.initLength);
    StripMainContainer(pod.containers);
    pod.neverRestarts := true;
    job := new Job(labels, pod);
  }

  /** The main container of a Job has no probes, and other arguments. */
  method StripMainContainer(containers: array<Container>)
    modifies containers
    ensures containers[..] == JobContainers(old(containers[..]))
  {
    for i := 0 to containers.Length
      invariant forall k :: 0 <= k < i ==> containers[k] == JobContainer(old(containers[k]))
      invariant forall k :: i <= k < containers.Length ==> containers[k] == old(containers[k])
    {
      if containers[i].name != MATTERMOST_APP_CONTAINER {
        continue;
      }
      containers[i] := containers[i].(livenessProbe := None);
      containers[i] := containers[i].(readinessProbe := None);
      containers[i] := containers[i].(args := ["db", "migrate"]);
    }
  }

  /** A Job prepared from a Deployment passes the image check against that Deployment, whatever its containers. */
  lemma JobMatchesItsDeployment(containers: seq<Container>, main: Container)
    requires MainContainer(containers) == Some(main)
    ensures MainImage(JobContainers(containers)) == Some(main.image)
    ensures MainContainer(JobContainers(containers)) == Some(JobContainer(main))
  {
    JobRunsTheImage(containers);
    MainOfJob(containers);
  }

  lemma {:induction false} MainOfJob(containers: seq<Container>)
    ensures MainContainer(JobContainers(containers)) ==
      if MainContainer(containers).None? then None else Some(JobContainer(MainContainer(containers).value))
  {
    if containers != [] {
      MainOfJob(containers[1..]);
      assert JobContainers(containers)[1..] == JobContainers(containers[1..]);
    }
  }

  /** The Job's pods never receive the traffic of the installation, even when the extra labels of the update
      Job copy those of its pods. */
  lemma JobPodsAreNotSelected(name: string, extraLabels: Labels)
    ensures !Selects(SelectorLabels(name), extraLabels[AppLabel := UPDATE_JOB_NAME])
  {
    assert AppLabel in SelectorLabels(name);
    assert |MATTERMOST_APP_CONTAINER| != |UPDATE_JOB_NAME|;
  }
}
