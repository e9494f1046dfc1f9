/** The Size field over a history of edits and reconciles: it is written by users, and consumed by the
    next reconcile. */
module SizeHistory {
  import opened Kube
  import opened Sizes
  import V1alpha1
  import V1beta1

  /** A part of the installation with its own replica count and resources. */
  datatype Component = App | Minio | Database

  datatype Amounts = Amounts(replicas: Option<int>, resources: Resources)

  datatype Edit = SetSize(size: string) | SetAmounts(component: Component, amounts: Amounts)

  // ---------- The specs ----------

  /** The operator runs the component, so its amounts are in the spec. */
  predicate Runs(mm: V1beta1.Spec, component: Component) {
    match component
    case App => true
    case Minio => !V1beta1.StoreIsNotManaged(mm.fileStore)
    case Database => !V1beta1.DatabaseIsExternal(mm.database)
  }

  function AmountsOf(mm: V1beta1.Spec, component: Component): Amounts {
    match component
    case App => Amounts(mm.replicas, mm.resources)
    case Minio => var managed := V1beta1.EnsuredMinio(mm.fileStore); Amounts(managed.replicas, managed.resources)
    case Database => var managed := V1beta1.EnsuredDatabase(mm.database); Amounts(managed.replicas, managed.resources)
  }

  function Apply(mm: V1beta1.Spec, edit: Edit): V1beta1.Spec {
    match edit
    case SetSize(size) => mm.(size := size)
    case SetAmounts(App, amounts) => mm.(replicas := amounts.replicas, resources := amounts.resources)
    case SetAmounts(Minio, amounts) =>
      var managed := V1beta1.EnsuredMinio(mm.fileStore).(replicas := amounts.replicas, resources := amounts.resources);
      mm.(fileStore := mm.fileStore.(managed := Some(managed)))
    case SetAmounts(Database, amounts) =>
      var ensured := V1beta1.EnsuredDatabase(mm.database);
      var managed := ensured.(replicas := amounts.replicas, resources := amounts.resources);
      mm.(database := mm.database.(managed := Some(managed)))
  }

  function ApplyAll(mm: V1beta1.Spec, edits: seq<Edit>): V1beta1.Spec {
    if edits == [] then mm else Apply(ApplyAll(mm, edits[..|edits| - 1]), edits[|edits| - 1])
  }

  /** Batches of edits, each followed by a reconcile. */
  function Replay(mm: V1beta1.Spec, batches: seq<seq<Edit>>): V1beta1.Spec {
    if batches == [] then mm
    else V1beta1.Sized(V1beta1.WithDefaults(ApplyAll(Replay(mm, batches[..|batches| - 1]), batches[|batches| - 1])))
  }

  // ---------- Who wrote last ----------

  /** The last size written in a batch, or the one that was pending before it. */
  function PendingSize(edits: seq<Edit>, before: string): string {
    if edits == [] then before
    else if edits[|edits| - 1].SetSize? then edits[|edits| - 1].size
    else PendingSize(edits[..|edits| - 1], before)
  }

  function LastAmounts(edits: seq<Edit>, component: Component): Option<Amounts> {
    if edits == [] then None
    else if edits[|edits| - 1].SetAmounts? && edits[|edits| - 1].component == component
      then Some(edits[|edits| - 1].amounts)
    else LastAmounts(edits[..|edits| - 1], component)
  }

  function SizeOf(size: ClusterSize, component: Component): Amounts {
    var chosen := match component case App => size.app case Minio => size.minio case Database => size.database;
    Amounts(Some(chosen.replicas), chosen.resources)
  }

  function Completed(amounts: Amounts, component: Component): Amounts {
    var default := SizeOf(DefaultSize(), component);
    Amounts(
      if amounts.replicas.None? then default.replicas else amounts.replicas,
      if amounts.resources == NO_RESOURCES then default.resources else amounts.resources)
  }

  /** After a history: the batch that wrote last decides. In it a valid size beats every other edit, in
      whatever order they were made; without one the last amounts stay, completed by the default size. */
  function Decided(initial: Amounts, pending: string, batches: seq<seq<Edit>>, component: Component): Amounts {
    if batches == [] then initial
    else
      var n := |batches| - 1;
      var size := GetClusterSize(PendingSize(batches[n], if n == 0 then pending else ""));
      if size.Some? then SizeOf(size.value, component)
      else
        var written := LastAmounts(batches[n], component);
        Completed(if written.Some? then written.value else Decided(initial, pending, batches[..n], component),
          component)
  }

  // ---------- Proofs ----------

  lemma {:induction false} AfterEdits(mm: V1beta1.Spec, edits: seq<Edit>, component: Component)
    ensures ApplyAll(mm, edits).size == PendingSize(edits, mm.size)
    ensures Runs(ApplyAll(mm, edits), component) == Runs(mm, component)
    ensures AmountsOf(ApplyAll(mm, edits), component) ==
      if LastAmounts(edits, component).Some? then LastAmounts(edits, component).value else AmountsOf(mm, component)
  {
    if edits != [] {
      AfterEdits(mm, edits[..|edits| - 1], component);
    }
  }

  lemma AfterReconcile(mm: V1beta1.Spec, component: Component)
    requires Runs(mm, component)
    ensures var sized := V1beta1.Sized(V1beta1.WithDefaults(mm));
      && sized.size == ""
      && Runs(sized, component)
      && AmountsOf(sized, component) ==
        if GetClusterSize(mm.size).Some? then SizeOf(GetClusterSize(mm.size).value, component)
        else Completed(AmountsOf(mm, component), component)
  {
    hide GetClusterSize, DefaultSize, OrElse;
  }

  /** Size is a write-only field: after any history it is empty, and the amounts of a component are those
      of its last writer. */
  lemma {:induction false} LastWriterWins(mm: V1beta1.Spec, batches: seq<seq<Edit>>, component: Component)
    requires Runs(mm, component)
    ensures var result := Replay(mm, batches);
      && (batches != [] ==> result.size == "")
      && Runs(result, component)
      && AmountsOf(result, component) == Decided(AmountsOf(mm, component), mm.size, batches, component)
  {
    hide V1beta1.Sized, V1beta1.WithDefaults, GetClusterSize, DefaultSize, AmountsOf, Runs, Completed;
    if batches != [] {
      var n := |batches| - 1;
      LastWriterWins(mm, batches[..n], component);
      var before := Replay(mm, batches[..n]);
      AfterEdits(before, batches[n], component);
      AfterReconcile(ApplyAll(before, batches[n]), component);
    }
  }
}
