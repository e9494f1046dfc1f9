/** The Service of an installation. Its type and its cluster IP are immutable, so a change of the type
    goes through a delete and a create. */
module Service {
  import opened Kube

  datatype ServiceType = UnsetType | ClusterIP | NodePort | LoadBalancer

  const HEADLESS := "None"

  /** `data` stands for the labels and annotations. */
  datatype Service = Service(
    kind: ServiceType,
    clusterIP: string,
    loadBalancerIP: string,
    ports: seq<nat>,
    data: string,
    version: nat)

  datatype Spec = Spec(awsLoadBalancer: bool, useServiceLoadBalancer: bool, data: string)

  // ---------- What the operator wants ----------

  const APP_PORTS: seq<nat> := [8065, 8067]
  const PUBLIC_PORTS: seq<nat> := [80, 443]

  /** GenerateServiceV1Beta: an ALB needs a node port; otherwise a load balancer, or a headless service. */
  function Desired(spec: Spec): Service {
    if spec.awsLoadBalancer then Service(NodePort, "", "", APP_PORTS, spec.data, 0)
    else if spec.useServiceLoadBalancer then Service(LoadBalancer, "", "", PUBLIC_PORTS, spec.data, 0)
    else Service(ClusterIP, HEADLESS, "", APP_PORTS, spec.data, 0)
  }

  /** CopyServiceEmptyAutoAssignedFields */
  function WithAutoAssigned(desired: Service, actual: Service): Service {
    desired.(
      clusterIP := OrElse(desired.clusterIP, actual.clusterIP),
      loadBalancerIP :=
        if desired.kind == LoadBalancer && actual.kind == LoadBalancer
          then OrElse(desired.loadBalancerIP, actual.loadBalancerIP)
        else desired.loadBalancerIP)
  }

  predicate SameContent(a: Service, b: Service) {
    a.(version := 0) == b.(version := 0)
  }

  // ---------- The machine ----------

  datatype Pc =
    | Idle
    | Ensuring(desired: Service)
    | Creating(desired: Service)
    | Getting(desired: Service)
    | FindingOld(desired: Service)
    | DeletingOld(desired: Service)
    | Recreating(desired: Service)
    | Updating(desired: Service, current: Service)

  datatype Write = Created(after: Service) | Updated(before: Service, after: Service) | Deleted(before: Service)

  datatype Cluster = Cluster(spec: Spec, service: Option<Service>, nextVersion: nat, pc: Pc, writes: seq<Write>)

  /** `ip` is the address that the API server assigns to a created service. */
  datatype Event =
    | Call(ok: bool, ip: string)
    | Crash
    | EditSpec(spec: Spec)
    | Removed
    | Touched(data: string, loadBalancerIP: string)

  function Create(c: Cluster, desired: Service, ip: string): Cluster {
    var stored := desired.(clusterIP := OrElse(desired.clusterIP, ip), version := c.nextVersion);
    c.(service := Some(stored), nextVersion := c.nextVersion + 1, writes := c.writes + [Created(stored)])
  }

  /** The worker's next call; a failed call ends the check. */
  function CallStep(c: Cluster, ok: bool, ip: string): Cluster {
    if !ok then c.(pc := Idle)
    else
      match c.pc
      case Idle => c.(pc := Ensuring(Desired(c.spec)))
      case Ensuring(desired) => c.(pc := if c.service.None? then Creating(desired) else Getting(desired))
      case Creating(desired) => if c.service.Some? then c.(pc := Idle)
        else Create(c, desired, ip).(pc := Getting(desired))
      case Getting(desired) =>
        if c.service.None? then c.(pc := Idle)
        else if c.service.value.kind != desired.kind && c.service.value.kind != UnsetType
          then c.(pc := FindingOld(desired))
        else c.(pc := Updating(WithAutoAssigned(desired, c.service.value), c.service.value))
      case FindingOld(desired) => c.(pc := if c.service.None? then Recreating(desired) else DeletingOld(desired))
      case DeletingOld(desired) =>
        if c.service.None? then c.(pc := Idle)
        else c.(service := None, writes := c.writes + [Deleted(c.service.value)], pc := Recreating(desired))
      case Recreating(desired) => if c.service.Some? then c.(pc := Idle) else Create(c, desired, ip).(pc := Idle)
      case Updating(desired, current) =>
        if SameContent(current, desired) || c.service.None? || c.service.value.version != current.version
          then c.(pc := Idle)
        else
          var stored := desired.(version := c.nextVersion);
          c.(service := Some(stored), nextVersion := c.nextVersion + 1,
            writes := c.writes + [Updated(c.service.value, stored)], pc := Idle)
  }

  function Step(c: Cluster, e: Event): Cluster {
    match e
    case Call(ok, ip) => CallStep(c, ok, ip)
    case Crash => c.(pc := Idle)
    case EditSpec(spec) => c.(spec := spec)
    case Removed => c.(service := None)
    case Touched(data, loadBalancerIP) =>
      if c.service.None? then c
      else
        var touched := c.service.value.(data := data, loadBalancerIP := loadBalancerIP, version := c.nextVersion);
        c.(service := Some(touched), nextVersion := c.nextVersion + 1)
  }

  function Run(c: Cluster, events: seq<Event>): Cluster {
    if events == [] then c else Step(Run(c, events[..|events| - 1]), events[|events| - 1])
  }

  // ---------- What every run keeps ----------

  /** A service as the operator creates it: typed, and headless exactly when it is a plain one. */
  predicate WellFormed(s: Service) {
    s.kind != UnsetType && (s.kind == ClusterIP <==> s.clusterIP == HEADLESS)
  }

  predicate Wanted(s: Service) {
    && s.kind != UnsetType
    && (s.kind == ClusterIP ==> s.clusterIP == HEADLESS)
    && (s.kind != ClusterIP ==> s.clusterIP == "")
  }

  /** The version identifies the content, so a copy of the stored version is a copy of what is stored. */
  predicate CopyIsTrue(service: Option<Service>, nextVersion: nat, pc: Pc) {
    pc.Updating? ==>
      && pc.current.version < nextVersion
      && WellFormed(pc.current)
      && pc.desired.kind == pc.current.kind && pc.desired.clusterIP == pc.current.clusterIP
      && (service.Some? && service.value.version == pc.current.version ==> service.value == pc.current)
  }

  predicate KeepsImmutable(w: Write) {
    w.Updated? ==> w.before.kind == w.after.kind && w.before.clusterIP == w.after.clusterIP
  }

  predicate Inv(c: Cluster) {
    && (c.service.Some? ==> WellFormed(c.service.value) && c.service.value.version < c.nextVersion)
    && CopyIsTrue(c.service, c.nextVersion, c.pc)
    && (!c.pc.Idle? && !c.pc.Updating? ==> Wanted(c.pc.desired))
    && (forall w :: w in c.writes ==> KeepsImmutable(w))
  }

  /** The API server assigns real addresses. */
  predicate RealAddress(e: Event) {
    e.Call? ==> e.ip != HEADLESS && e.ip != ""
  }

  lemma StepKeepsInv(c: Cluster, e: Event)
    requires Inv(c) && RealAddress(e)
    ensures Inv(Step(c, e))
  {
    if e.Call? {
      match c.pc
      case Getting(_) =>
      case Updating(_, _) =>
      case _ =>
    }
  }

  /** Over every sequence of spec edits, failed calls, crashes and outside changes of other fields, no update
      changes the type or the cluster IP. */
  lemma {:induction false} UpdatesKeepTypeAndAddress(c: Cluster, events: seq<Event>)
    requires Inv(c)
    requires forall e :: e in events ==> RealAddress(e)
    ensures Inv(Run(c, events))
    ensures forall w :: w in Run(c, events).writes ==> KeepsImmutable(w)
  {
    hide Step, RealAddress;
    if events != [] {
      UpdatesKeepTypeAndAddress(c, events[..|events| - 1]);
      StepKeepsInv(Run(c, events[..|events| - 1]), events[|events| - 1]);
    }
  }

  lemma StepKeepsType(c: Cluster, e: Event)
    requires Inv(c) && c.service.Some? && Step(c, e).service.Some?
    ensures Step(c, e).service.value.kind == c.service.value.kind
    ensures Step(c, e).service.value.clusterIP == c.service.value.clusterIP
  {
    if e.Call? {
      match c.pc
      case Updating(_, _) =>
      case _ =>
    }
  }

  /** As long as the service exists its type and address stay, so a type changes only through a time without
      a service. */
  lemma {:induction false} TypeChangesOnlyThroughAbsence(c: Cluster, events: seq<Event>)
    requires Inv(c) && c.service.Some?
    requires forall e :: e in events ==> RealAddress(e)
    requires forall k :: 0 <= k <= |events| ==> Run(c, events[..k]).service.Some?
    ensures Run(c, events).service.Some?
    ensures Run(c, events).service.value.kind == c.service.value.kind
    ensures Run(c, events).service.value.clusterIP == c.service.value.clusterIP
  {
    hide Step, RealAddress;
    assert events[..|events|] == events;
    if events != [] {
      var front := events[..|events| - 1];
      assert forall k :: 0 <= k <= |front| ==> front[..k] == events[..k];
      UpdatesKeepTypeAndAddress(c, front);
      TypeChangesOnlyThroughAbsence(c, front);
      StepKeepsType(Run(c, front), events[|events| - 1]);
    }
  }

  /** What an update writes over a service that somebody else made: the address is kept exactly when the
      wanted service is not headless or the stored one is; the type exactly when it was set. */
  lemma UpdateKeepsAddressIff(spec: Spec, stored: Service)
    requires stored.kind == Desired(spec).kind || stored.kind == UnsetType
    ensures var written := WithAutoAssigned(Desired(spec), stored);
      && (written.kind == stored.kind <==> stored.kind != UnsetType)
      && (written.clusterIP == stored.clusterIP <==> Desired(spec).kind != ClusterIP || stored.clusterIP == HEADLESS)
  {}

  // ---------- Repair ----------

  function CallsLeft(pc: Pc): nat {
    match pc
    case Idle => 0
    case Updating(_, _) => 1
    case Recreating(_) => 1
    case DeletingOld(_) => 2
    case FindingOld(_) => 3
    case Getting(_) => 4
    case Creating(_) => 5
    case Ensuring(_) => 6
  }

  /** The check runs on until it is done; `plan(n)` and `ips(n)` belong to the n-th call. */
  function UntilIdle(c: Cluster, plan: nat -> bool, ips: nat -> string, n: nat): Cluster
    decreases CallsLeft(c.pc)
  {
    if c.pc.Idle? then c else UntilIdle(CallStep(c, plan(n), ips(n)), plan, ips, n + 1)
  }

  ghost predicate Reliable(plan: nat -> bool, ips: nat -> string) {
    forall n :: plan(n) && ips(n) != HEADLESS && ips(n) != ""
  }

  /** The stored service is what the spec asks for. */
  predicate Serves(service: Option<Service>, spec: Spec) {
    service.Some? && WellFormed(service.value)
    && service.value.kind == Desired(spec).kind && service.value.ports == Desired(spec).ports &&
      service.value.data == Desired(spec).data
  }

  lemma FromGetting(c: Cluster, plan: nat -> bool, ips: nat -> string, n: nat)
    requires Reliable(plan, ips) && Inv(c) && c.pc == Getting(Desired(c.spec)) && c.service.Some?
    ensures Serves(UntilIdle(c, plan, ips, n).service, c.spec)
  {
    var c1 := CallStep(c, plan(n), ips(n));
    if c1.pc.FindingOld? {
      var c2 := CallStep(c1, plan(n + 1), ips(n + 1));
      var c3 := CallStep(c2, plan(n + 2), ips(n + 2));
      var c4 := CallStep(c3, plan(n + 3), ips(n + 3));
      assert UntilIdle(c1, plan, ips, n + 1) == UntilIdle(c3, plan, ips, n + 3);
      assert UntilIdle(c3, plan, ips, n + 3) == c4;
    } else {
      assert UntilIdle(c1, plan, ips, n + 1) == CallStep(c1, plan(n + 1), ips(n + 1));
    }
  }

  /** Whatever was lost before - a create after a delete, or the whole service - the next check that goes
      through brings it to what the spec asks for. */
  lemma NextCheckRepairs(c: Cluster, plan: nat -> bool, ips: nat -> string)
    requires Reliable(plan, ips) && Inv(c) && c.pc.Idle?
    ensures Serves(UntilIdle(c.(pc := Ensuring(Desired(c.spec))), plan, ips, 0).service, c.spec)
  {
    var c0 := c.(pc := Ensuring(Desired(c.spec)));
    var c1 := CallStep(c0, plan(0), ips(0));
    StepKeepsInv(c0, Call(plan(0), ips(0)));
    if c.service.None? {
      var c2 := CallStep(c1, plan(1), ips(1));
      StepKeepsInv(c1, Call(plan(1), ips(1)));
      FromGetting(c2, plan, ips, 2);
      assert UntilIdle(c0, plan, ips, 0) == UntilIdle(c2, plan, ips, 2);
    } else {
      FromGetting(c1, plan, ips, 1);
    }
  }

  // ---------- As the controller runs it ----------

  class ServiceReconciler {
    /** The stored objects. The `pc` of this value is kept Idle. */
    var cluster: Cluster
    var calls: nat
    const plan: nat -> bool
    const ips: nat -> string

    constructor (cluster: Cluster, plan: nat -> bool, ips: nat -> string)
      requires cluster.pc.Idle?
      ensures this.cluster == cluster && this.plan == plan && this.ips == ips && calls == 0
    {
      this.cluster, this.plan, this.ips, calls := cluster, plan, ips, 0;
    }

    ghost function Rest(pc: Pc): Cluster
      reads this
    {
      UntilIdle(cluster.(pc := pc), plan, ips, calls)
    }

    method CallMade() returns (ok: bool, ip: string)
      modifies this`calls
      ensures calls == old(calls) + 1 && ok == plan(old(calls)) && ip == ips(old(calls))
    {
      ok, ip := plan(calls), ips(calls);
      calls := calls + 1;
    }

    method CreateServiceIfNotExists(desired: Service) returns (done: bool)
      requires cluster.pc.Idle?
      modifies this
      ensures cluster.pc.Idle?
      ensures Rest(if done then Getting(desired) else Idle) == old(Rest(Ensuring(desired)))
    {
      hide WithAutoAssigned, SameContent;
      var ok, ip := CallMade();
      if !ok {
        return false;
      }
      if cluster.service.Some? {
        return true;
      }
      assert Rest(Creating(desired)) == old(Rest(Ensuring(desired)));
      ok, ip := CallMade();
      if ok {
        cluster := Create(cluster, desired, ip);
      }
      return ok;
    }

    method DeleteService(desired: Service) returns (done: bool)
      requires cluster.pc.Idle?
      modifies this
      ensures cluster.pc.Idle?
      ensures Rest(if done then Recreating(desired) else Idle) == old(Rest(FindingOld(desired)))
    {
      hide WithAutoAssigned, SameContent;
      var ok, ip := CallMade();
      if !ok {
        return false;
      }
      if cluster.service.None? {
        return true;
      }
      assert Rest(DeletingOld(desired)) == old(Rest(FindingOld(desired)));
      ok, ip := CallMade();
      if ok {
        cluster := cluster.(writes := cluster.writes + [Deleted(cluster.service.value)]).(service := None);
      }
      return ok;
    }

    method CheckMattermostService()
      requires cluster.pc.Idle?
      modifies this
      ensures cluster.pc.Idle?
      ensures Rest(Idle) == old(Rest(Ensuring(Desired(cluster.spec))))
    {
      hide WithAutoAssigned, SameContent, Desired;
      var desired := Desired(cluster.spec);
      var done := CreateServiceIfNotExists(desired);
      if !done {
        return;
      }
      var ok, ip := CallMade();
      if !ok || cluster.service.None? {
        return;
      }
      var current := cluster.service.value;
      if current.kind != desired.kind && current.kind != UnsetType {
        assert Rest(FindingOld(desired)) == old(Rest(Ensuring(desired)));
        done := DeleteService(desired);
        if !done {
          return;
        }
        ok, ip := CallMade();
        if ok && cluster.service.None? {
          cluster := Create(cluster, desired, ip);
        }
        return;
      }
      desired := WithAutoAssigned(desired, current);
      assert Rest(Updating(desired, current)) == old(Rest(Ensuring(Desired(cluster.spec))));
      Update(current, desired);
    }

    /** ResourceHelper.Update: writes what differs, on the version that was read. */
    method Update(current: Service, desired: Service)
      requires cluster.pc.Idle?
      modifies this
      ensures cluster.pc.Idle?
      ensures Rest(Idle) == old(Rest(Updating(desired, current)))
    {
      hide SameContent;
      var ok, ip := CallMade();
      if !ok || SameContent(current, desired) || cluster.service.None? ||
        cluster.service.value.version != current.version {
        return;
      }
      var stored := desired.(version := cluster.nextVersion);
      cluster := cluster.(writes := cluster.writes + [Updated(cluster.service.value, stored)]);
      cluster := cluster.(service := Some(stored), nextVersion := cluster.nextVersion + 1);
    }
  }
}
