/** The template of the update Job, built from a Deployment's pod template. */
module UpdateJob {
  import opened Kube

  const UPDATE_JOB_NAME := "mattermost-update-check"
  const WAIT_FOR_DB_SETUP := "init-wait-for-db-setup"

  // ---------- Specification ----------

  /** The main container of the Job runs the migration without probes; others are copied. */
  function JobContainer(c: Container): Container {
    if c.name == MATTERMOST_APP_CONTAINER then
      c.(args := ["db", "migrate"], livenessProbe := None, readinessProbe := None)
    else c
  }

  function JobContainers(containers: seq<Container>): (job: seq<Container>)
    ensures |job| == |containers|
    ensures forall i :: 0 <= i < |job| ==>
      job[i].name == containers[i].name && job[i].image == containers[i].image
  {
    seq(|containers|, i requires 0 <= i < |containers| => JobContainer(containers[i]))
  }

  /** Everything but the first container with the given name. */
  function Without(containers: seq<Container>, name: string): seq<Container> {
    if containers == [] then []
    else if containers[0].name == name then containers[1..]
    else [containers[0]] + Without(containers[1..], name)
  }

  /** The Job's main image is the Deployment's main image, so a Job made for a Deployment is
      never taken for a Job of another image. */
  lemma {:induction false} JobRunsTheImage(containers: seq<Container>)
    ensures MainImage(JobContainers(containers)) == MainImage(containers)
  {
    if containers != [] {
      JobRunsTheImage(containers[1..]);
      assert JobContainers(containers)[1..] == JobContainers(containers[1..]);
    }
  }
}
