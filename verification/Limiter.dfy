/** The admission limiter of the Mattermost controller.

    Any number of workers, one per resource, share a counter behind a mutex. The list
    of resources and the increment are separate steps under the lock; status writes and
    deletions happen outside of it. Events name single steps, so a sequence of events is
    an arbitrary interleaving. */
module Limiter {
  import opened Kube
  import opened Sets

  type Key = string

  datatype Resource = Resource(uid: nat, state: RunningState)

  /** A worker with the uid it read. `done` is set once Stable was published, after which the
      code returns without another status write. */
  datatype Worker =
    | Waiting(uid: nat)
    | Locked(uid: nat)
    | Listed(uid: nat, count: nat)
    | Granted(uid: nat)
    | Processing(uid: nat, admitted: bool, done: bool)
    | Leaving(uid: nat)
    | Decrementing(uid: nat)

  datatype System = System(
    resources: map<Key, Resource>,
    workers: map<Key, Worker>,
    lock: Option<Key>,
    counter: int,
    nextUid: nat,
    maxReconciling: int)

  datatype Event =
    | Start(key: Key)
    | Acquire(key: Key)
    | List(key: Key, ok: bool)
    | Decide(key: Key)
    | Release(key: Key)
    | WriteStatus(key: Key, state: RunningState, ok: bool)
    | Finish(key: Key)
    | Decrement(key: Key)
    | CreateResource(key: Key)
    | DeleteResource(key: Key)
    | RestartOperator

  predicate Unstable(state: RunningState) {
    state == Reconciling || state == Ready
  }

  function UnstableKeys(resources: map<Key, Resource>): set<Key> {
    set k | k in resources && Unstable(resources[k].state)
  }

  /** Workers between the increment and the decrement. */
  predicate Counted(w: Worker) {
    w.Granted? || (w.Processing? && w.admitted) || w.Leaving? || w.Decrementing?
  }

  function AdmittedKeys(workers: map<Key, Worker>): set<Key> {
    set k | k in workers && Counted(workers[k])
  }

  predicate HoldsLock(w: Worker) {
    w.Locked? || w.Listed? || w.Granted? || w.Decrementing?
  }

  /** Resources that are unstable or being processed by an admitted worker. */
  function Load(s: System): set<Key> {
    UnstableKeys(s.resources) + AdmittedKeys(s.workers)
  }

  predicate LimitReached(count: int, counter: int, maxReconciling: int) {
    count + counter >= maxReconciling
  }

  function Exit(s: System, k: Key): System {
    s.(workers := s.workers - {k})
  }

  function Become(s: System, k: Key, w: Worker): System {
    s.(workers := s.workers[k := w])
  }

  function StartWorker(s: System, k: Key): System {
    if k in s.workers || k !in s.resources then s
    else
      var r := s.resources[k];
      Become(s, k, if Unstable(r.state) then Processing(r.uid, false, false) else Waiting(r.uid))
  }

  /** A write reaches the resource that was read, or nothing. */
  function Write(s: System, k: Key, state: RunningState, ok: bool): System {
    if k !in s.workers || !s.workers[k].Processing? || s.workers[k].done || state == Unset then s
    else
      var w := s.workers[k];
      if ok && k in s.resources && s.resources[k].uid == w.uid then
        Become(s, k, w.(done := state == Stable)).(resources := s.resources[k := Resource(w.uid, state)])
      else s
  }

  function Step(s: System, e: Event): System {
    match e
    case Start(k) => StartWorker(s, k)
    case Acquire(k) =>
      if s.lock.Some? || k !in s.workers then s
      else if s.workers[k].Waiting? then Become(s, k, Locked(s.workers[k].uid)).(lock := Some(k))
      else if s.workers[k].Leaving? then Become(s, k, Decrementing(s.workers[k].uid)).(lock := Some(k))
      else s
    case List(k, ok) =>
      if k !in s.workers || !s.workers[k].Locked? then s
      else if ok then Become(s, k, Listed(s.workers[k].uid, |UnstableKeys(s.resources)|))
      else Exit(s, k).(lock := None)
    case Decide(k) =>
      if k !in s.workers || !s.workers[k].Listed? then s
      else if LimitReached(s.workers[k].count, s.counter, s.maxReconciling) then Exit(s, k).(lock := None)
      else Become(s, k, Granted(s.workers[k].uid)).(counter := s.counter + 1)
    case Release(k) =>
      if k !in s.workers || !s.workers[k].Granted? then s
      else Become(s, k, Processing(s.workers[k].uid, true, false)).(lock := None)
    case WriteStatus(k, state, ok) => Write(s, k, state, ok)
    case Finish(k) =>
      if k !in s.workers || !s.workers[k].Processing? then s
      else if s.workers[k].admitted then Become(s, k, Leaving(s.workers[k].uid))
      else Exit(s, k)
    case Decrement(k) =>
      if k !in s.workers || !s.workers[k].Decrementing? then s
      else Exit(s, k).(counter := s.counter - 1, lock := None)
    case CreateResource(k) =>
      if k in s.resources then s
      else s.(resources := s.resources[k := Resource(s.nextUid, Unset)], nextUid := s.nextUid + 1)
    case DeleteResource(k) => s.(resources := s.resources - {k})
    case RestartOperator => s.(workers := map[], lock := None, counter := 0)
  }

  function Run(s: System, events: seq<Event>): System
    decreases |events|
  {
    if events == [] then s else Step(Run(s, events[..|events| - 1]), events[|events| - 1])
  }

  /** The operator has just started, over resources in any state. */
  ghost predicate Init(s: System) {
    && s.workers == map[]
    && s.lock == None
    && s.counter == 0
    && forall k :: k in s.resources ==> s.resources[k].uid < s.nextUid
  }

  // ---------- The invariant ----------

  ghost predicate LockOk(s: System) {
    && (forall k :: k in s.workers && HoldsLock(s.workers[k]) ==> s.lock == Some(k))
    && (s.lock.Some? ==> s.lock.value in s.workers && HoldsLock(s.workers[s.lock.value]))
  }

  /** A worker that was let in without a check works on a resource that is unstable until it publishes Stable. */
  ghost predicate BypassOk(s: System) {
    forall k :: k in s.workers && Bypassing(s.workers[k]) && k in s.resources ==>
      s.resources[k].uid == s.workers[k].uid ==> Unstable(s.resources[k].state)
  }

  predicate Bypassing(w: Worker) {
    w.Processing? && !w.admitted && !w.done
  }

  ghost predicate UidsOk(s: System) {
    && (forall k :: k in s.resources ==> s.resources[k].uid < s.nextUid)
    && (forall k :: k in s.workers ==> s.workers[k].uid < s.nextUid)
  }

  /** While a worker holds a list, the load is covered by what it is going to add up. */
  ghost predicate ListOk(s: System) {
    forall k :: k in s.workers && s.workers[k].Listed? ==> |Load(s)| <= s.workers[k].count + s.counter
  }

  ghost predicate Inv(s: System, bound: int) {
    && LockOk(s) && BypassOk(s) && UidsOk(s) && ListOk(s)
    && s.counter == |AdmittedKeys(s.workers)|
    && s.maxReconciling <= bound
    && |Load(s)| <= bound
  }

  // ---------- What one step does ----------

  function At<T>(m: map<Key, T>, k: Key): Option<T> {
    if k in m then Some(m[k]) else None
  }

  /** A step of a worker or a user touches only the entries of its own resource. */
  lemma StepIsLocal(s: System, e: Event, k: Key)
    requires !e.RestartOperator? && k != e.key
    ensures At(Step(s, e).workers, k) == At(s.workers, k) && At(Step(s, e).resources, k) == At(s.resources, k)
  {
  }

  predicate InLoad(worker: Option<Worker>, resource: Option<Resource>) {
    (worker.Some? && Counted(worker.value)) || (resource.Some? && Unstable(resource.value.state))
  }

  lemma LoadAt(s: System, k: Key)
    ensures k in Load(s) <==> InLoad(At(s.workers, k), At(s.resources, k))
    ensures k in AdmittedKeys(s.workers) <==> At(s.workers, k).Some? && Counted(At(s.workers, k).value)
  {
  }

  /** The resource that a step admits, if any. */
  function Admission(s: System, e: Event): set<Key> {
    if e.Decide? && e.key in s.workers && s.workers[e.key].Listed?
       && !LimitReached(s.workers[e.key].count, s.counter, s.maxReconciling) then {e.key}
    else {}
  }

  lemma OwnStepBoundsLoad(s: System, e: Event)
    requires BypassOk(s) && !e.RestartOperator? && Admission(s, e) == {}
    ensures InLoad(At(Step(s, e).workers, e.key), At(Step(s, e).resources, e.key)) ==>
      InLoad(At(s.workers, e.key), At(s.resources, e.key))
  {
    hide UnstableKeys, AdmittedKeys, Load;
  }

  /** Every step but an admission leaves the load or shrinks it; an admission adds its own resource. */
  lemma StepBoundsLoad(s: System, e: Event)
    requires BypassOk(s)
    ensures Load(Step(s, e)) <= Load(s) + Admission(s, e)
  {
    hide Step, BypassOk, Load, InLoad;
    if e.RestartOperator? {
      RestartBoundsLoad(s);
    } else {
      forall k | k in Load(Step(s, e)) ensures k in Load(s) + Admission(s, e) {
        LoadAt(s, k);
        LoadAt(Step(s, e), k);
        if k != e.key {
          StepIsLocal(s, e, k);
        } else if Admission(s, e) == {} {
          OwnStepBoundsLoad(s, e);
        }
      }
    }
  }

  lemma RestartBoundsLoad(s: System)
    ensures Load(Step(s, RestartOperator)) <= Load(s)
  {
  }

  /** The counter moves exactly when a worker enters or leaves the counted stretch. */
  lemma OwnStepCounts(s: System, e: Event)
    requires !e.RestartOperator?
    ensures var before, after := At(s.workers, e.key), At(Step(s, e).workers, e.key);
      Step(s, e).counter - s.counter
        == (if after.Some? && Counted(after.value) then 1 else 0)
           - (if before.Some? && Counted(before.value) then 1 else 0)
  {
    hide UnstableKeys, AdmittedKeys, Load;
  }

  lemma CountMoves<T>(before: set<T>, after: set<T>, x: T)
    requires before - {x} == after - {x}
    ensures |after| - |before| == (if x in after then 1 else 0) - (if x in before then 1 else 0)
  {
    assert |before| == |before - {x}| + if x in before then 1 else 0;
    assert |after| == |after - {x}| + if x in after then 1 else 0;
  }

  lemma StepCounts(s: System, e: Event)
    requires s.counter == |AdmittedKeys(s.workers)|
    ensures Step(s, e).counter == |AdmittedKeys(Step(s, e).workers)|
  {
    if e.RestartOperator? {
      assert AdmittedKeys(map[]) == {};
    } else {
      hide Step, AdmittedKeys, Load, InLoad, Counted;
      var before, after := AdmittedKeys(s.workers), AdmittedKeys(Step(s, e).workers);
      forall k | k != e.key ensures k in before <==> k in after {
        LoadAt(s, k);
        LoadAt(Step(s, e), k);
        StepIsLocal(s, e, k);
      }
      LoadAt(s, e.key);
      LoadAt(Step(s, e), e.key);
      OwnStepCounts(s, e);
      CountMoves(before, after, e.key);
    }
  }

  lemma StepKeepsLock(s: System, e: Event)
    requires LockOk(s)
    ensures LockOk(Step(s, e))
  {
    hide UnstableKeys;
  }

  lemma StepKeepsBypass(s: System, e: Event)
    requires BypassOk(s) && UidsOk(s)
    ensures BypassOk(Step(s, e)) && UidsOk(Step(s, e))
  {
    hide UnstableKeys;
  }

  /** A worker with a list either got it in this step, or kept it while nobody else was counted in or out. */
  lemma ListIsOwnOrKept(s: System, e: Event, k: Key)
    requires LockOk(s)
    requires At(Step(s, e).workers, k).Some? && At(Step(s, e).workers, k).value.Listed?
    ensures Step(s, e).counter == s.counter && Admission(s, e) == {}
    ensures At(s.workers, k) != At(Step(s, e).workers, k) ==>
      && At(Step(s, e).workers, k).value.count == |UnstableKeys(s.resources)|
      && Step(s, e).resources == s.resources
      && AdmittedKeys(Step(s, e).workers) == AdmittedKeys(s.workers)
  {
    if At(s.workers, k) != At(Step(s, e).workers, k) {
      assert AdmittedKeys(Step(s, e).workers) == AdmittedKeys(s.workers);
    }
  }

  /** Under the lock nobody else is admitted and nobody leaves, so a list stays a cover of the load. */
  lemma {:induction false} StepKeepsList(s: System, e: Event)
    requires LockOk(s) && BypassOk(s) && ListOk(s) && s.counter == |AdmittedKeys(s.workers)|
    ensures ListOk(Step(s, e))
  {
    hide Step, BypassOk, LockOk, UnstableKeys, AdmittedKeys;
    var s' := Step(s, e);
    forall k | k in s'.workers && s'.workers[k].Listed? ensures |Load(s')| <= s'.workers[k].count + s'.counter {
      ListIsOwnOrKept(s, e, k);
      StepBoundsLoad(s, e);
      CardinalityOfUnion(UnstableKeys(s.resources), AdmittedKeys(s.workers));
      CardinalityOfSubset(Load(s'), Load(s));
    }
  }

  lemma StepKeepsInv(s: System, e: Event, bound: int)
    requires Inv(s, bound)
    ensures Inv(Step(s, e), bound)
  {
    hide Step, BypassOk, LockOk, UidsOk, AdmittedKeys;
    StepKeepsLock(s, e);
    StepKeepsBypass(s, e);
    StepCounts(s, e);
    StepBoundsLoad(s, e);
    StepKeepsList(s, e);
    StepKeepsLimit(s, e);
    CardinalityOfSubset(Load(Step(s, e)), Load(s) + Admission(s, e));
    CardinalityOfUnion(Load(s), Admission(s, e));
  }

  lemma StepKeepsLimit(s: System, e: Event)
    ensures Step(s, e).maxReconciling == s.maxReconciling
  {
  }

  lemma {:induction false} RunKeepsInv(start: System, events: seq<Event>, bound: int)
    requires Init(start) && start.maxReconciling <= bound && |Load(start)| <= bound
    ensures Inv(Run(start, events), bound)
    decreases |events|
  {
    hide Step, Load;
    if events == [] {
    } else {
      RunKeepsInv(start, events[..|events| - 1], bound);
      StepKeepsInv(Run(start, events[..|events| - 1]), events[|events| - 1], bound);
    }
  }

  // ---------- Results ----------

  /** However many workers interleave, the resources that are Reconciling, Ready or being processed by an
      admitted worker never exceed the larger of the limit and their number at the start. */
  lemma LoadStaysBounded(start: System, events: seq<Event>)
    requires Init(start)
    ensures var initially := |UnstableKeys(start.resources)|;
      |Load(Run(start, events))| <= if start.maxReconciling >= initially then start.maxReconciling else initially
  {
    assert Load(start) == UnstableKeys(start.resources);
    RunKeepsInv(start, events, if start.maxReconciling >= |Load(start)| then start.maxReconciling else |Load(start)|);
  }

  /** In every run the counter is the number of workers between admission and decrement: it is never
      negative, and 0 when no worker runs. */
  lemma CounterIsExact(start: System, events: seq<Event>)
    requires Init(start)
    ensures var s := Run(start, events);
      && s.counter == |AdmittedKeys(s.workers)|
      && s.counter >= 0
      && (s.workers == map[] ==> s.counter == 0)
  {
    RunKeepsInv(start, events, if start.maxReconciling >= |Load(start)| then start.maxReconciling else |Load(start)|);
    assert AdmittedKeys(map[]) == {};
  }

  /** With a single worker the admission test is a plain comparison of a count of stored resources with the
      limit. The older ClusterInstallation controller makes that comparison, too, but counts only Reconciling. */
  lemma SingleWorkerComparesPlainCount(start: System, events: seq<Event>, k: Key)
    requires Init(start)
    requires var s := Run(start, events); s.workers.Keys == {k} && s.workers[k].Listed?
    ensures var s := Run(start, events);
      LimitReached(s.workers[k].count, s.counter, s.maxReconciling) <==> s.workers[k].count >= s.maxReconciling
  {
    RunKeepsInv(start, events, if start.maxReconciling >= |Load(start)| then start.maxReconciling else |Load(start)|);
    assert AdmittedKeys(Run(start, events).workers) == {};
  }

  lemma RunExtends(s: System, events: seq<Event>, e: Event)
    ensures Run(s, events + [e]) == Step(Run(s, events), e)
  {
    hide Step;
    assert (events + [e])[..|events|] == events;
  }

  /** An undisturbed worker on a resource that is not unstable gets as far as its list. */
  lemma ReachesList(start: System, events: seq<Event>, k: Key) returns (longer: seq<Event>)
    requires var s := Run(start, events);
      s.lock.None? && k !in s.workers && k in s.resources && !Unstable(s.resources[k].state)
    ensures var s := Run(start, events);
      Run(start, longer) ==
        s.(workers := s.workers[k := Listed(s.resources[k].uid, |UnstableKeys(s.resources)|)], lock := Some(k))
  {
    hide Run, UnstableKeys;
    var s := Run(start, events);
    var uid := s.resources[k].uid;
    RunExtends(start, events, Start(k));
    longer := events + [Start(k)];
    assert Run(start, longer) == s.(workers := s.workers[k := Waiting(uid)]);
    RunExtends(start, longer, Acquire(k));
    longer := longer + [Acquire(k)];
    assert Run(start, longer) == s.(workers := s.workers[k := Locked(uid)], lock := Some(k));
    RunExtends(start, longer, List(k, true));
    longer := longer + [List(k, true)];
  }

  lemma FirstIsAdmitted(start: System) returns (events: seq<Event>)
    requires start == System(map["a" := Resource(0, Unset), "b" := Resource(1, Unset)], map[], None, 0, 2, 1)
    ensures Run(start, events) == start.(workers := map["a" := Processing(0, true, false)], counter := 1)
  {
    assert Run(start, []) == start;
    assert UnstableKeys(start.resources) == {};
    events := ReachesList(start, [], "a");
    hide Run, UnstableKeys;
    events := GetsAdmitted(start, events, "a");
  }

  /** The counter is needed: with two workers, the plain comparison would let in a resource beyond the limit
      while another one is admitted but not yet marked. */
  lemma PlainCountIsNotEnough() returns (start: System, events: seq<Event>)
    ensures Init(start)
    ensures var s := Run(start, events);
      && "b" in s.workers && s.workers["b"].Listed?
      && s.workers["b"].count < s.maxReconciling
      && |Load(s) + {"b"}| > s.maxReconciling
  {
    start := System(map["a" := Resource(0, Unset), "b" := Resource(1, Unset)], map[], None, 0, 2, 1);
    events := FirstIsAdmitted(start);
    assert UnstableKeys(start.resources) == {};
    hide Run, UnstableKeys;
    events := ReachesList(start, events, "b");
    OneIsAdmitted(Run(start, events));
  }

  lemma OneIsAdmitted(s: System)
    requires s.workers == map["a" := Processing(0, true, false), "b" := Listed(1, 0)]
    requires UnstableKeys(s.resources) == {}
    ensures Load(s) + {"b"} == {"a", "b"} && |Load(s) + {"b"}| == 2
  {
    hide UnstableKeys;
    assert AdmittedKeys(s.workers) == {"a"};
  }

  lemma GetsAdmitted(start: System, events: seq<Event>, k: Key) returns (longer: seq<Event>)
    requires var s := Run(start, events);
      k in s.workers && s.workers[k].Listed? && !LimitReached(s.workers[k].count, s.counter, s.maxReconciling)
    ensures var s := Run(start, events);
      Run(start, longer) == s.(workers := s.workers[k := Processing(s.workers[k].uid, true, false)], lock := None,
        counter := s.counter + 1)
  {
    hide Run, UnstableKeys;
    RunExtends(start, events, Decide(k));
    longer := events + [Decide(k)];
    RunExtends(start, longer, Release(k));
    longer := longer + [Release(k)];
  }

  // ---------- Saturation ----------

  /** As many resources are unstable as the limit allows. */
  ghost predicate Saturated(s: System) {
    |UnstableKeys(s.resources)| >= s.maxReconciling
  }

  /** No worker holds a list that would let it in. */
  ghost predicate NoRoom(s: System) {
    s.counter >= 0 && forall k :: k in s.workers && s.workers[k].Listed? ==> s.workers[k].count >= s.maxReconciling
  }

  lemma SaturatedStep(s: System, e: Event)
    requires Saturated(s) && NoRoom(s) && Step(s, e).counter >= 0
    ensures NoRoom(Step(s, e)) && AdmittedKeys(Step(s, e).workers) <= AdmittedKeys(s.workers)
  {
    hide UnstableKeys;
  }

  /** The resource is not unstable, and its worker, if any, is not let in yet. */
  ghost predicate Starves(s: System, k: Key) {
    && (k in s.resources ==> !Unstable(s.resources[k].state))
    && (k in s.workers ==> s.workers[k].Waiting? || s.workers[k].Locked? || s.workers[k].Listed?)
  }

  /** The resource is stored as it was `earlier`, or was deleted since. */
  ghost predicate SameOrNew(earlier: System, now: System, k: Key) {
    k in now.resources && (k !in earlier.resources || now.resources[k] != earlier.resources[k]) ==>
      now.resources[k].uid >= earlier.nextUid
  }

  lemma StarvedStep(earlier: System, s: System, e: Event, k: Key)
    requires NoRoom(s) && Starves(s, k) && SameOrNew(earlier, s, k) && earlier.nextUid <= s.nextUid
    ensures Starves(Step(s, e), k) && SameOrNew(earlier, Step(s, e), k) && earlier.nextUid <= Step(s, e).nextUid
  {
    hide UnstableKeys;
  }

  ghost predicate SaturatedFrom(start: System, events: seq<Event>, from: nat) {
    forall j :: from <= j <= |events| ==> Saturated(Run(start, events[..j]))
  }

  lemma ShorterSaturation(start: System, events: seq<Event>, from: nat)
    requires from < |events| && SaturatedFrom(start, events, from)
    ensures SaturatedFrom(start, events[..|events| - 1], from)
    ensures Saturated(Run(start, events[..|events| - 1]))
    ensures events[..|events| - 1][..from] == events[..from]
  {
    var front := events[..|events| - 1];
    assert forall j :: from <= j <= |front| ==> front[..j] == events[..j];
    assert front[..|front|] == front;
  }

  /** For as long as enough resources stay unstable, nobody is let in: from a moment on at which no worker holds a
      list that would admit it, the admitted workers only get fewer. */
  lemma {:induction false} SaturationStopsAdmission(start: System, events: seq<Event>, from: nat)
    requires Init(start) && from <= |events| && NoRoom(Run(start, events[..from]))
    requires SaturatedFrom(start, events, from)
    ensures NoRoom(Run(start, events))
    ensures AdmittedKeys(Run(start, events).workers) <= AdmittedKeys(Run(start, events[..from]).workers)
    decreases |events|
  {
    hide Step, Saturated, NoRoom, UnstableKeys, AdmittedKeys;
    if |events| == from {
      assert events[..from] == events;
    } else {
      var front := events[..|events| - 1];
      ShorterSaturation(start, events, from);
      SaturationStopsAdmission(start, front, from);
      CounterIsExact(start, events);
      SaturatedStep(Run(start, front), events[|events| - 1]);
    }
  }

  /** Meanwhile a resource that is Stable, or new, stays as it is: no reconcile gets to write its status, however
      many workers start on it. */
  lemma {:induction false} SaturationStarves(start: System, events: seq<Event>, from: nat, k: Key)
    requires Init(start) && from <= |events| && NoRoom(Run(start, events[..from]))
    requires SaturatedFrom(start, events, from) && Starves(Run(start, events[..from]), k)
    ensures Starves(Run(start, events), k) && SameOrNew(Run(start, events[..from]), Run(start, events), k)
    ensures Run(start, events[..from]).nextUid <= Run(start, events).nextUid
    decreases |events|
  {
    hide Step, NoRoom, Starves, SameOrNew, UnstableKeys;
    if |events| == from {
      assert events[..from] == events;
      NothingIsNew(Run(start, events), k);
    } else {
      var front := events[..|events| - 1];
      ShorterSaturation(start, events, from);
      SaturationStarves(start, front, from, k);
      SaturationStopsAdmission(start, front, from);
      StarvedStep(Run(start, events[..from]), Run(start, front), events[|events| - 1], k);
    }
  }

  lemma NothingIsNew(s: System, k: Key)
    ensures SameOrNew(s, s, k)
  {
  }

  /** An operator that starts while enough resources are unstable admits no worker until one of them recovers. */
  lemma {:induction false} SaturatedStartAdmitsNobody(start: System, events: seq<Event>)
    requires Init(start) && SaturatedFrom(start, events, 0)
    ensures AdmittedKeys(Run(start, events).workers) == {} && Run(start, events).counter == 0
  {
    assert events[..0] == [];
    assert AdmittedKeys(start.workers) == {};
    SaturationStopsAdmission(start, events, 0);
    CounterIsExact(start, events);
  }

  /** Without saturation an undisturbed worker gets in: exactly when unstable resources and admitted workers
      together are fewer than the limit. */
  lemma {:induction false} UndisturbedWorkerIsAdmittedIff(start: System, events: seq<Event>, k: Key)
    requires var s := Run(start, events);
      s.lock.None? && k !in s.workers && k in s.resources && !Unstable(s.resources[k].state)
    ensures var s := Run(start, events);
      k in AdmittedKeys(Run(start, events + [Start(k), Acquire(k), List(k, true), Decide(k)]).workers) <==>
        |UnstableKeys(s.resources)| + s.counter < s.maxReconciling
  {
    hide UnstableKeys;
    var s := Run(start, events);
    FourMore(start, events, Start(k), Acquire(k), List(k, true), Decide(k));
    var uid := s.resources[k].uid;
    assert Step(s, Start(k)) == s.(workers := s.workers[k := Waiting(uid)]);
    assert Step(Step(s, Start(k)), Acquire(k)) == s.(workers := s.workers[k := Locked(uid)], lock := Some(k));
    assert Step(Step(Step(s, Start(k)), Acquire(k)), List(k, true)) ==
      s.(workers := s.workers[k := Listed(uid, |UnstableKeys(s.resources)|)], lock := Some(k));
    hide Run;
  }

  lemma FourMore(s: System, events: seq<Event>, a: Event, b: Event, c: Event, d: Event)
    ensures Run(s, events + [a, b, c, d]) == Step(Step(Step(Step(Run(s, events), a), b), c), d)
  {
    hide Step, Run;
    RunExtends(s, events, a);
    RunExtends(s, events + [a], b);
    RunExtends(s, events + [a] + [b], c);
    RunExtends(s, events + [a] + [b] + [c], d);
    assert events + [a, b, c, d] == events + [a] + [b] + [c] + [d];
  }

  // ---------- The code ----------

  datatype Item = Item(key: Key, resource: Resource)

  /** The items are the stored resources, each listed once. */
  ghost predicate Lists(items: seq<Item>, resources: map<Key, Resource>) {
    && (forall i, j :: 0 <= i < j < |items| ==> items[i].key != items[j].key)
    && (forall i :: 0 <= i < |items| ==> items[i].key in resources && resources[items[i].key] == items[i].resource)
    && (forall k :: k in resources ==> exists i :: 0 <= i < |items| && items[i].key == k)
  }

  ghost function UnstableIn(items: seq<Item>): set<Key> {
    set i | 0 <= i < |items| && Unstable(items[i].resource.state) :: items[i].key
  }

  lemma OneMoreItem(items: seq<Item>, i: nat)
    requires i < |items| && forall j :: 0 <= j < i ==> items[j].key != items[i].key
    ensures items[i].key !in UnstableIn(items[..i])
    ensures UnstableIn(items[..i + 1]) ==
      UnstableIn(items[..i]) + if Unstable(items[i].resource.state) then {items[i].key} else {}
  {
    var before, after := UnstableIn(items[..i]), UnstableIn(items[..i + 1]);
    forall k ensures k in after <==> k in before || (k == items[i].key && Unstable(items[i].resource.state)) {
      if k in before {
        var j :| 0 <= j < i && Unstable(items[..i][j].resource.state) && items[..i][j].key == k;
        assert items[..i + 1][j] == items[j];
      }
      if k == items[i].key && Unstable(items[i].resource.state) {
        assert items[..i + 1][i] == items[i];
      }
    }
  }

  lemma AllItems(items: seq<Item>, resources: map<Key, Resource>)
    requires Lists(items, resources)
    ensures UnstableIn(items) == UnstableKeys(resources)
  {
    forall k | k in UnstableKeys(resources) ensures k in UnstableIn(items) {
      var i :| 0 <= i < |items| && items[i].key == k;
    }
  }

  method CountReconcilingOrReady(items: seq<Item>, ghost resources: map<Key, Resource>) returns (sum: nat)
    requires Lists(items, resources)
    ensures sum == |UnstableKeys(resources)|
  {
    sum := 0;
    AllItems(items, resources);
    assert items[..|items|] == items;
    hide UnstableIn, UnstableKeys;
    assert UnstableIn(items[..0]) == {} by { NoItems(items[..0]); }
    for i := 0 to |items|
      invariant sum == |UnstableIn(items[..i])|
    {
      OneMoreItem(items, i);
      if items[i].resource.state == Reconciling || items[i].resource.state == Ready {
        sum := sum + 1;
      }
    }
  }

  lemma NoItems(items: seq<Item>)
    requires items == []
    ensures UnstableIn(items) == {}
  {}

  /** The counter that the workers share; its methods run under the lock. */
  class UnstableInstallationsRateLimiter {
    var nonReconcilingBeingProcessed: int

    constructor ()
      ensures nonReconcilingBeingProcessed == 0
    {
      nonReconcilingBeingProcessed := 0;
    }

    /** startNonReconcilingMMProcessing of the worker that holds the lock: the List and Decide steps. */
    method StartNonReconcilingProcessing(listed: Option<seq<Item>>, maxReconciling: int, ghost s: System, ghost k: Key)
      returns (canProcess: bool, failed: bool)
      requires k in s.workers && s.workers[k].Locked?
      requires s.counter == nonReconcilingBeingProcessed && s.maxReconciling == maxReconciling
      requires listed.Some? ==> Lists(listed.value, s.resources)
      modifies this
      ensures var after := Step(Step(s, List(k, listed.Some?)), Decide(k));
        && nonReconcilingBeingProcessed == after.counter
        && (canProcess <==> k in after.workers && after.workers[k].Granted?)
        && (!canProcess ==> k !in after.workers && after.lock.None?)
      ensures failed <==> listed.None?
    {
      if listed.None? {
        return false, true;
      }
      var rCount := CountReconcilingOrReady(listed.value, s.resources);
      if rCount + nonReconcilingBeingProcessed >= maxReconciling {
        return false, false;
      }
      nonReconcilingBeingProcessed := nonReconcilingBeingProcessed + 1;
      return true, false;
    }

    method DecrementProcessing(ghost s: System, ghost k: Key)
      requires k in s.workers && s.workers[k].Decrementing?
      requires s.counter == nonReconcilingBeingProcessed
      modifies this
      ensures nonReconcilingBeingProcessed == Step(s, Decrement(k)).counter
    {
      nonReconcilingBeingProcessed := nonReconcilingBeingProcessed - 1;
    }
  }
}
