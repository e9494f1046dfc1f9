/** Local storage: the access modes of the persistent volume claim, which must never change. */
module AccessModes {
  import opened Kube
  import opened Sets
  import V1beta1

  type Modes = seq<string>

  datatype Claim = Claim(modes: Modes, storageSize: string)

  const READ_WRITE_MANY := "ReadWriteMany"

  // ---------- Comparing modes ----------

  predicate Compares(a: Modes, b: Modes) {
    |a| == |b| && forall i :: 0 <= i < |a| ==> a[i] in b
  }

  ghost predicate NoDuplicates(a: Modes) {
    forall i, j :: 0 <= i < j < |a| ==> a[i] != a[j]
  }

  ghost function Elements(a: Modes): set<string> {
    set m | m in a
  }

  method AccessModesEqual(a: Modes, b: Modes) returns (equal: bool)
    ensures equal <==> Compares(a, b)
    ensures NoDuplicates(a) ==> (equal <==> Elements(a) == Elements(b) && NoDuplicates(b))
  {
    if NoDuplicates(a) {
      ComparesIff(a, b);
    }
    if |a| != |b| {
      return false;
    }
    for i := 0 to |a|
      invariant forall k :: 0 <= k < i ==> a[k] in b
    {
      if a[i] !in b {
        return false;
      }
    }
    return true;
  }

  lemma {:induction false} ElementsBound(a: Modes)
    ensures |Elements(a)| <= |a|
    ensures |Elements(a)| == |a| <==> NoDuplicates(a)
  {
    if a != [] {
      var front, last := a[..|a| - 1], a[|a| - 1];
      ElementsBound(front);
      assert a == front + [last];
      if last in front {
        assert Elements(a) == Elements(front);
        var i :| 0 <= i < |front| && front[i] == last;
        assert a[i] == a[|a| - 1];
      } else {
        assert Elements(a) == Elements(front) + {last};
        assert forall i :: 0 <= i < |front| ==> a[i] == front[i] && front[i] in front;
      }
    }
  }

  /** Against modes without duplicates, the comparison is equality of sets. */
  lemma ComparesIff(a: Modes, b: Modes)
    requires NoDuplicates(a)
    ensures Compares(a, b) <==> Elements(a) == Elements(b) && NoDuplicates(b)
  {
    ElementsBound(a);
    ElementsBound(b);
    if Compares(a, b) {
      assert Elements(a) <= Elements(b);
      CardinalityOfSubset(Elements(a), Elements(b));
    }
    if Elements(a) == Elements(b) {
      assert forall i :: 0 <= i < |a| ==> a[i] in Elements(a);
    }
  }

  function Longer(a: Modes): string {
    if a == [] then "x" else a[0] + Longer(a[1..])
  }

  lemma {:induction false} LongerIsNew(a: Modes)
    ensures forall m :: m in a ==> |m| < |Longer(a)|
  {
    if a != [] {
      LongerIsNew(a[1..]);
      assert forall m :: m in a ==> m == a[0] || m in a[1..];
      assert |Longer(a[1..])| > 0 by {
        LongerHasText(a[1..]);
      }
    }
  }

  lemma {:induction false} LongerHasText(a: Modes)
    ensures |Longer(a)| > 0
  {
    if a != [] {
      LongerHasText(a[1..]);
    }
  }

  /** A duplicate can be exchanged for another mode unnoticed. */
  lemma DuplicateGivesWay(a: Modes, i: nat, j: nat, m: string)
    requires i < j < |a| && a[i] == a[j]
    ensures Compares(a, a[j := m]) && a[j := m][j] == m
  {
    var b := a[j := m];
    assert b[i] == a[i];
    assert forall k :: 0 <= k < |a| && k != j ==> b[k] == a[k];
    assert forall k :: 0 <= k < |a| ==> a[k] in b;
  }

  /** Among arbitrary texts, the comparison can be trusted exactly for stored modes without duplicates. */
  lemma ComparisonIsTrustworthyIff(a: Modes)
    ensures (forall b :: Compares(a, b) ==> Elements(a) == Elements(b)) <==> NoDuplicates(a)
  {
    if NoDuplicates(a) {
      forall b | Compares(a, b) ensures Elements(a) == Elements(b) {
        ComparesIff(a, b);
      }
    } else {
      var i, j :| 0 <= i < j < |a| && a[i] == a[j];
      var b := a[j := Longer(a)];
      LongerIsNew(a);
      DuplicateGivesWay(a, i, j, Longer(a));
      assert b[j] in Elements(b) && b[j] !in a;
    }
  }

  /** The same among modes of a limited choice: a stored list that names all of them can be trusted, too. */
  lemma {:induction false} LimitedComparisonIsTrustworthyIff(a: Modes, choice: set<string>)
    requires Elements(a) <= choice
    ensures (forall b :: Elements(b) <= choice && Compares(a, b) ==> Elements(a) == Elements(b)) <==>
      NoDuplicates(a) || Elements(a) == choice
  {
    if NoDuplicates(a) {
      ComparisonIsTrustworthyIff(a);
    } else if Elements(a) == choice {
      assert forall b :: Compares(a, b) ==> Elements(a) <= Elements(b);
    } else {
      var m :| m in choice && m !in Elements(a);
      var i, j :| 0 <= i < j < |a| && a[i] == a[j];
      DuplicateGivesWay(a, i, j, m);
      assert Elements(a[j := m]) <= Elements(a) + {m} && m in Elements(a[j := m]);
    }
  }

  const SHARED_MODES := {"ReadWriteOnce", "ReadOnlyMany", READ_WRITE_MANY}
  const ONE_POD_MODE := {"ReadWriteOncePod"}

  /** The API server knows four modes, and accepts the last one only by itself. */
  ghost predicate Legal(a: Modes) {
    Elements(a) <= SHARED_MODES || Elements(a) <= ONE_POD_MODE
  }

  /** For the modes of a claim the comparison can be trusted exactly when they have no duplicates, or are all three
      shared modes, or the one mode for a single pod. */
  lemma {:induction false} ClaimComparisonIsTrustworthyIff(a: Modes)
    requires Legal(a)
    ensures (forall b :: Legal(b) && Compares(a, b) ==> Elements(a) == Elements(b)) <==>
      NoDuplicates(a) || Elements(a) == SHARED_MODES || Elements(a) == ONE_POD_MODE
  {
    if a != [] {
      assert a[0] in Elements(a);
      var choice := if Elements(a) <= SHARED_MODES then SHARED_MODES else ONE_POD_MODE;
      LimitedComparisonIsTrustworthyIff(a, choice);
      forall b | Compares(a, b) ensures Legal(b) <==> Elements(b) <= choice {
        assert a[0] in Elements(b);
      }
    }
  }

  // ---------- The claim over runs ----------

  /** Outcomes of the calls of one check, in their order. */
  datatype Outcomes = Outcomes(read: bool, readAgain: bool, created: bool, readCreated: bool, updated: bool)

  function DetermineAccessModes(local: V1beta1.LocalStore, current: Modes, found: bool): Modes {
    if local.accessModes != [] then local.accessModes
    else if found then current
    else [READ_WRITE_MANY]
  }

  function Desired(local: V1beta1.LocalStore, current: Option<Claim>, found: bool): Claim {
    Claim(
      DetermineAccessModes(local, if found && current.Some? then current.value.modes else [], found),
      OrElse(local.storageSize, DEFAULT_STORAGE_SIZE))
  }

  /** One check. A read that fails counts as a missing claim, and the claim is read again before it is created. */
  function Checked(claim: Option<Claim>, local: V1beta1.LocalStore, o: Outcomes): Option<Claim> {
    var found := o.read && claim.Some?;
    var desired := Desired(local, claim, found);
    if !found then
      if o.readAgain && claim.None? && o.created then Some(desired) else claim
    else if local.accessModes != [] && !Compares(claim.value.modes, desired.modes) then claim
    else if o.updated then Some(desired)
    else claim
  }

  class LocalFileStore {
    var claim: Option<Claim>

    constructor ()
      ensures claim == None
    {
      claim := None;
    }

    /** checkLocalFileStore: false is an error of the check. */
    method Check(local: V1beta1.LocalStore, o: Outcomes) returns (ok: bool)
      modifies this
      ensures claim == Checked(old(claim), local, o)
      ensures ok ==> claim.Some?
    {
      var found := o.read && claim.Some?;
      var current := if found then claim.value.modes else [];
      var modes := DetermineAccessModes(local, current, found);
      var desired := Claim(modes, OrElse(local.storageSize, DEFAULT_STORAGE_SIZE));
      if !found {
        if !o.readAgain {
          return false;
        }
        if claim.None? {
          if !o.created {
            return false;
          }
          claim := Some(desired);
        }
        return o.readCreated;
      }
      if local.accessModes != [] {
        var equal := AccessModesEqual(current, modes);
        if !equal {
          return false;
        }
      }
      if o.updated {
        claim := Some(desired);
      }
      return o.updated;
    }
  }

  /** Between two checks, users edit the spec, and others delete or create the claim. */
  datatype Event =
    | Edit(local: V1beta1.LocalStore)
    | Check(outcomes: Outcomes)
    | DeleteClaim
    | CreateClaim(claim: Claim)

  datatype Store = Store(local: V1beta1.LocalStore, claim: Option<Claim>)

  function Step(s: Store, e: Event): Store {
    match e
    case Edit(local) => s.(local := local)
    case Check(o) => s.(claim := Checked(s.claim, s.local, o))
    case DeleteClaim => s.(claim := None)
    case CreateClaim(claim) => s.(claim := if s.claim.None? then Some(claim) else s.claim)
  }

  function Run(s: Store, events: seq<Event>): Store {
    if events == [] then s else Step(Run(s, events[..|events| - 1]), events[|events| - 1])
  }

  /** The claim exists from moment `k` on. */
  ghost predicate ExistsFrom(s: Store, events: seq<Event>, k: nat) {
    forall j :: k <= j <= |events| ==> Run(s, events[..j]).claim.Some?
  }

  lemma StepKeepsModes(s: Store, e: Event)
    requires s.claim.Some? && NoDuplicates(s.claim.value.modes) && Step(s, e).claim.Some?
    ensures NoDuplicates(Step(s, e).claim.value.modes)
    ensures Elements(Step(s, e).claim.value.modes) == Elements(s.claim.value.modes)
  {
    if s.local.accessModes != [] {
      ComparesIff(s.claim.value.modes, s.local.accessModes);
    }
  }

  /** A claim whose modes have no duplicates keeps the same set of modes for as long as it exists, whatever modes
      users ask for and whichever calls fail. */
  lemma {:induction false} ModesNeverChange(s: Store, events: seq<Event>)
    requires s.claim.Some? && NoDuplicates(s.claim.value.modes) && ExistsFrom(s, events, 0)
    ensures var claim := Run(s, events).claim;
      claim.Some? && NoDuplicates(claim.value.modes) && Elements(claim.value.modes) == Elements(s.claim.value.modes)
  {
    assert events[..|events|] == events && Run(s, events[..0]) == s;
    if events != [] {
      var front := events[..|events| - 1];
      assert forall j :: 0 <= j <= |front| ==> front[..j] == events[..j];
      ModesNeverChange(s, front);
      StepKeepsModes(Run(s, front), events[|events| - 1]);
    }
  }

  /** The modes with which the claim appears in a step: somebody else's, or those that the spec asks for, or the
      default. */
  function FirstModes(s: Store, e: Event): Modes {
    if e.CreateClaim? then e.claim.modes else DetermineAccessModes(s.local, [], false)
  }

  /** The claim appeared at moment `k` with these modes and has existed since then. */
  ghost predicate AppearedWith(s: Store, events: seq<Event>, k: nat, modes: set<string>)
    requires k < |events|
  {
    var before := Run(s, events[..k]);
    before.claim.None? && ExistsFrom(s, events, k + 1) && Elements(FirstModes(before, events[k])) == modes
  }

  /** Nobody asks for a mode twice. */
  ghost predicate AsksOnce(e: Event) {
    && (e.Edit? ==> NoDuplicates(e.local.accessModes))
    && (e.CreateClaim? ==> NoDuplicates(e.claim.modes))
  }

  lemma ExistsLonger(s: Store, events: seq<Event>, k: nat)
    requires events != [] && ExistsFrom(s, events[..|events| - 1], k) && Run(s, events).claim.Some?
    ensures ExistsFrom(s, events, k)
  {
    var front := events[..|events| - 1];
    forall j | k <= j <= |events| ensures Run(s, events[..j]).claim.Some? {
      if j < |events| {
        assert front[..j] == events[..j];
      } else {
        assert events[..j] == events;
      }
    }
  }

  /** Starting without a claim: whenever there is one, it has exactly the modes with which it appeared, and it has
      kept them for all the time since. */
  lemma {:induction false} FirstModesStay(s: Store, events: seq<Event>)
    requires s.claim.None?
    requires NoDuplicates(s.local.accessModes) && forall e :: e in events ==> AsksOnce(e)
    ensures var claim := Run(s, events).claim;
      claim.Some? ==>
        && NoDuplicates(claim.value.modes)
        && exists k :: 0 <= k < |events| && AppearedWith(s, events, k, Elements(claim.value.modes))
    ensures NoDuplicates(Run(s, events).local.accessModes)
  {
    hide NoDuplicates, Elements, ExistsFrom;
    if events != [] {
      var last := |events| - 1;
      var front := events[..last];
      FirstModesStay(s, front);
      var before, claim := Run(s, front), Run(s, events).claim;
      assert AsksOnce(events[last]);
      if claim.Some? {
        if before.claim.Some? {
          StepKeepsModes(before, events[last]);
          var k :| 0 <= k < last && AppearedWith(s, front, k, Elements(before.claim.value.modes));
          assert front[..k] == events[..k];
          ExistsLonger(s, events, k + 1);
          assert AppearedWith(s, events, k, Elements(claim.value.modes));
        } else {
          OneModeHasNoDuplicates();
          ExistsNow(s, events);
          assert AppearedWith(s, events, last, Elements(claim.value.modes));
        }
      }
    }
  }

  lemma OneModeHasNoDuplicates()
    ensures NoDuplicates([READ_WRITE_MANY])
  {
  }

  lemma ExistsNow(s: Store, events: seq<Event>)
    requires Run(s, events).claim.Some?
    ensures ExistsFrom(s, events, |events|)
  {
    assert events[..|events|] == events;
  }

  /** With a duplicate in the stored modes, a single edit gets a mode dropped and another added. */
  lemma DuplicatesLetModesChange(o: Outcomes)
    requires o.read && o.updated
    ensures var stored := Claim(["ReadWriteOnce", "ReadWriteOnce"], "1Gi");
      var asked := V1beta1.LocalStore(true, "1Gi", ["ReadWriteOnce", "ReadWriteMany"]);
      Checked(Some(stored), asked, o) == Some(Claim(["ReadWriteOnce", "ReadWriteMany"], "1Gi"))
  {
    assert "ReadWriteOnce" in ["ReadWriteOnce", "ReadWriteMany"];
  }
}
