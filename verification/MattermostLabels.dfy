/** The label functions of Mattermost resources. Each returns the very map of the spec when there is one, and
    writes into it, so results share state with the spec and with each other. */
module MattermostLabels {
  import opened Kube
  import opened LabelMaps

  // ---------- What a call answers and leaves behind ----------

  datatype Query = ResourceQuery | PodQuery | JobServerQuery

  function App(query: Query): string {
    if query.JobServerQuery? then JOB_SERVER_CONTAINER else MATTERMOST_APP_CONTAINER
  }

  /** The labels that a call writes over those of the spec. */
  function Written(name: string, extra: Labels, query: Query): Labels {
    (if query.ResourceQuery? then map[] else extra) + DefaultLabels(name, App(query))
  }

  function Answer(name: string, resource: Option<Labels>, extra: Labels, query: Query): Labels {
    OrEmpty(resource) + Written(name, extra, query)
  }

  /** The map of the spec after a call; a spec without one gets none. */
  function Left(name: string, resource: Option<Labels>, extra: Labels, query: Query): Option<Labels> {
    if resource.None? then None else Some(Answer(name, resource, extra, query))
  }

  function LeftByAll(name: string, resource: Option<Labels>, extra: Labels, queries: seq<Query>): Option<Labels> {
    if queries == [] then resource
    else Left(name, LeftByAll(name, resource, extra, queries[..|queries| - 1]), extra, queries[|queries| - 1])
  }

  lemma PlusAssociates<K, V>(a: map<K, V>, b: map<K, V>, c: map<K, V>)
    ensures (a + b) + c == a + (b + c)
  {}

  lemma Overwritten<K, V>(a: map<K, V>, b: map<K, V>, c: map<K, V>)
    requires b.Keys <= c.Keys
    ensures (a + b) + c == a + c
  {}

  lemma WrittenKeys(name: string, extra: Labels, first: Query, second: Query)
    requires first.ResourceQuery? || !second.ResourceQuery?
    ensures Written(name, extra, first).Keys <= Written(name, extra, second).Keys
  {}

  /** A query that writes at least the same keys hides an earlier one. */
  lemma LaterQueryHidesEarlier(name: string, resource: Option<Labels>, extra: Labels, first: Query, second: Query)
    requires first.ResourceQuery? || !second.ResourceQuery?
    ensures Answer(name, Left(name, resource, extra, first), extra, second) == Answer(name, resource, extra, second)
  {
    if resource.Some? {
      WrittenKeys(name, extra, first, second);
      hide Written;
      Overwritten(resource.value, Written(name, extra, first), Written(name, extra, second));
    }
  }

  // ---------- In place ----------

  /** A Go map. */
  class LabelMap {
    var entries: Labels

    constructor (entries: Labels)
      ensures this.entries == entries
    {
      this.entries := entries;
    }

    /** Writes every entry of the other map, in the order in which Go happens to iterate. */
    method PutAll(other: LabelMap)
      requires other != this
      modifies this
      ensures entries == old(entries) + other.entries
    {
      var todo := other.entries.Keys;
      while todo != {}
        invariant todo <= other.entries.Keys
        invariant entries == old(entries) + (other.entries - todo)
      {
        var k :| k in todo;
        entries := entries[k := other.entries[k]];
        todo := todo - {k};
      }
    }

    method PutDefaults(name: string, app: string)
      modifies this
      ensures entries == old(entries) + DefaultLabels(name, app)
    {
      entries := entries[ClusterResourceLabel := name];
      entries := entries[ClusterLabel := name];
      entries := entries[AppLabel := app];
    }
  }

  class Mattermost {
    var resourceLabels: LabelMap?
    var extraLabels: LabelMap?

    constructor (resourceLabels: LabelMap?, extraLabels: LabelMap?)
      ensures this.resourceLabels == resourceLabels && this.extraLabels == extraLabels
    {
      this.resourceLabels, this.extraLabels := resourceLabels, extraLabels;
    }

    /** A decoded spec never uses one map twice. */
    ghost predicate Valid()
      reads this
    {
      resourceLabels == null || resourceLabels != extraLabels
    }

    ghost function Resource(): Option<Labels>
      reads this, resourceLabels
    {
      if resourceLabels == null then None else Some(resourceLabels.entries)
    }

    ghost function Extra(): Labels
      reads this, extraLabels
    {
      if extraLabels == null then map[] else extraLabels.entries
    }

    /** MattermostLabels, MattermostPodLabels and MattermostJobServerPodLabels, by the query. */
    method LabelsFor(name: string, query: Query) returns (l: LabelMap)
      requires Valid()
      modifies resourceLabels
      ensures Valid()
      ensures l.entries == Answer(name, old(Resource()), old(Extra()), query)
      ensures Resource() == Left(name, old(Resource()), old(Extra()), query)
      ensures Extra() == old(Extra())
      ensures if resourceLabels == null then fresh(l) else l == resourceLabels
    {
      if resourceLabels == null {
        l := new LabelMap(map[]);
      } else {
        l := resourceLabels;
      }
      if !query.ResourceQuery? && extraLabels != null {
        l.PutAll(extraLabels);
      }
      l.PutDefaults(name, App(query));
      hide DefaultLabels;
      PlusAssociates(OrEmpty(old(Resource())), old(Extra()), DefaultLabels(name, App(query)));
      assert Written(name, old(Extra()), query) ==
        if query.ResourceQuery? then DefaultLabels(name, App(query))
          else old(Extra()) + DefaultLabels(name, App(query));
    }
  }

  class Deployment {
    var labels: LabelMap
    var selector: LabelMap
    var podLabels: LabelMap

    constructor (labels: LabelMap, selector: LabelMap, podLabels: LabelMap)
      ensures this.labels == labels && this.selector == selector && this.podLabels == podLabels
    {
      this.labels, this.selector, this.podLabels := labels, selector, podLabels;
    }
  }

  method NewSelectorLabels(name: string) returns (l: LabelMap)
    ensures fresh(l) && l.entries == SelectorLabels(name)
  {
    l := new LabelMap(map[]);
    l.PutDefaults(name, MATTERMOST_APP_CONTAINER);
  }

  /** The three maps of GenerateDeploymentV1Beta. With resource labels in the spec the Deployment's own labels
      are the map of its pods, so they carry the extra labels as well. */
  method GenerateDeployment(mm: Mattermost, name: string) returns (d: Deployment)
    requires mm.Valid()
    modifies mm.resourceLabels
    ensures fresh(d) && mm.Valid()
    ensures mm.Extra() == old(mm.Extra())
    ensures mm.resourceLabels != null ==> d.labels == d.podLabels == mm.resourceLabels
    ensures mm.resourceLabels == null ==> fresh(d.labels)
    ensures fresh(d.selector) && d.selector.entries == SelectorLabels(name)
    ensures d.podLabels.entries == Answer(name, old(mm.Resource()), old(mm.Extra()), PodQuery)
    ensures d.labels.entries ==
      Answer(name, old(mm.Resource()), if mm.resourceLabels == null then map[] else old(mm.Extra()), PodQuery)
  {
    hide Answer, Left, DefaultLabels;
    var labels := mm.LabelsFor(name, ResourceQuery);
    var selector := NewSelectorLabels(name);
    var podLabels := mm.LabelsFor(name, PodQuery);
    LaterQueryHidesEarlier(name, old(mm.Resource()), old(mm.Extra()), ResourceQuery, PodQuery);
    WithoutExtra(name, old(mm.Resource()), old(mm.Extra()));
    d := new Deployment(labels, selector, podLabels);
  }

  lemma WithoutExtra(name: string, resource: Option<Labels>, extra: Labels)
    ensures Answer(name, resource, extra, ResourceQuery) == Answer(name, resource, map[], PodQuery)
    ensures Left(name, resource, extra, PodQuery) ==
      if resource.None? then None else Some(Answer(name, resource, extra, PodQuery))
  {
    hide DefaultLabels;
  }

  /** GenerateJobServerDeploymentV1Beta replaces the pod labels and the selector of a main Deployment. */
  method GenerateJobServerDeployment(mm: Mattermost, name: string) returns (d: Deployment)
    requires mm.Valid()
    modifies mm.resourceLabels
    ensures fresh(d) && mm.Valid()
    ensures d.podLabels.entries == Answer(name, old(mm.Resource()), old(mm.Extra()), JobServerQuery)
    ensures d.selector.entries == Answer(name, old(mm.Resource()), old(mm.Extra()), JobServerQuery)
    ensures d.labels.entries ==
      if mm.resourceLabels == null then Answer(name, None, map[], ResourceQuery)
      else Answer(name, old(mm.Resource()), old(mm.Extra()), JobServerQuery)
  {
    hide Answer, Left, DefaultLabels;
    ghost var resource, extra := mm.Resource(), mm.Extra();
    d := GenerateDeployment(mm, name);
    ghost var left := mm.Resource();
    assert left == Left(name, resource, extra, PodQuery) by { WithoutExtra(name, resource, extra); }
    var podLabels := mm.LabelsFor(name, JobServerQuery);
    LaterQueryHidesEarlier(name, resource, extra, PodQuery, JobServerQuery);
    LaterQueryHidesEarlier(name, left, extra, JobServerQuery, JobServerQuery);
    d.podLabels := podLabels;
    var selector := mm.LabelsFor(name, JobServerQuery);
    d.selector := selector;
    WithoutExtra(name, None, map[]);
  }

  // ---------- The order of calls ----------

  /** Pod labels do not depend on the label calls made before: they are the resource labels of the spec,
      overridden by its extra labels, overridden by the defaults. */
  lemma {:induction false} PodAnswerIgnoresHistory(name: string, resource: Option<Labels>, extra: Labels,
      queries: seq<Query>, query: Query)
    requires !query.ResourceQuery?
    ensures Answer(name, LeftByAll(name, resource, extra, queries), extra, query)
         == OrEmpty(resource) + extra + DefaultLabels(name, App(query))
  {
    if queries == [] {
      PlusAssociates(OrEmpty(resource), extra, DefaultLabels(name, App(query)));
    } else {
      var front, last := queries[..|queries| - 1], queries[|queries| - 1];
      PodAnswerIgnoresHistory(name, resource, extra, front, query);
      hide Answer, Left, DefaultLabels;
      LaterQueryHidesEarlier(name, LeftByAll(name, resource, extra, front), extra, last, query);
    }
  }

  /** The extra labels that a resource query would not give by itself. */
  ghost predicate AddsNothing(name: string, resource: Labels, extra: Labels) {
    forall k :: k in extra && k !in DefaultLabels(name, MATTERMOST_APP_CONTAINER) ==>
      k in resource && resource[k] == extra[k]
  }

  lemma {:induction false} LeftKeeps(name: string, resource: Labels, extra: Labels, queries: seq<Query>)
    ensures LeftByAll(name, Some(resource), extra, queries).Some?
    ensures forall k :: k !in extra && k !in DefaultLabels(name, MATTERMOST_APP_CONTAINER) ==>
      var left := LeftByAll(name, Some(resource), extra, queries).value;
      (k in left <==> k in resource) && (k in left ==> left[k] == resource[k])
    ensures forall k :: k in extra && k !in DefaultLabels(name, MATTERMOST_APP_CONTAINER) ==>
      var left := LeftByAll(name, Some(resource), extra, queries).value;
      if exists query :: query in queries && !query.ResourceQuery? then k in left && left[k] == extra[k]
      else (k in left <==> k in resource) && (k in left ==> left[k] == resource[k])
  {
    if queries != [] {
      LeftKeeps(name, resource, extra, queries[..|queries| - 1]);
      var front, last := queries[..|queries| - 1], queries[|queries| - 1];
      assert forall query :: query in queries <==> query in front || query == last;
    }
  }

  /** Labels of other resources do depend on it: they stay as they are exactly when the spec has no
      resource labels, no pod labels were asked for before, or the extra labels add nothing. */
  lemma ResourceAnswerIgnoresHistoryIff(name: string, resource: Option<Labels>, extra: Labels, queries: seq<Query>)
    ensures var left := LeftByAll(name, resource, extra, queries);
      Answer(name, left, extra, ResourceQuery) == Answer(name, resource, extra, ResourceQuery) <==>
      || resource.None?
      || (forall query :: query in queries ==> query.ResourceQuery?)
      || AddsNothing(name, resource.value, extra)
  {
    if resource.None? {
      NoneIsLeft(name, extra, queries);
    } else {
      LeftKeeps(name, resource.value, extra, queries);
      var left := LeftByAll(name, resource, extra, queries).value;
      AnswersAgreeIff(name, resource.value, left, extra);
      hide Answer, LeftByAll, DefaultLabels;
      if !AddsNothing(name, resource.value, extra) && exists query :: query in queries && !query.ResourceQuery? {
        var k :| k in extra && k !in DefaultLabels(name, MATTERMOST_APP_CONTAINER) &&
          !(k in resource.value && resource.value[k] == extra[k]);
        assert k in left && left[k] == extra[k];
      }
    }
  }

  /** Two maps give the same resource labels exactly when they agree on every key but the defaults. */
  lemma AnswersAgreeIff(name: string, one: Labels, other: Labels, extra: Labels)
    ensures Answer(name, Some(one), extra, ResourceQuery) == Answer(name, Some(other), extra, ResourceQuery) <==>
      forall k :: k !in DefaultLabels(name, MATTERMOST_APP_CONTAINER) ==>
        (k in one <==> k in other) && (k in one ==> one[k] == other[k])
  {
    var a, b := Answer(name, Some(one), extra, ResourceQuery), Answer(name, Some(other), extra, ResourceQuery);
    var defaults := DefaultLabels(name, MATTERMOST_APP_CONTAINER);
    assert a == one + defaults && b == other + defaults;
    hide DefaultLabels, Answer;
    if forall k :: k !in defaults ==> (k in one <==> k in other) && (k in one ==> one[k] == other[k]) {
      assert a == b;
    }
    if a == b {
      forall k | k !in defaults ensures (k in one <==> k in other) && (k in one ==> one[k] == other[k]) {
        assert k in one <==> k in a;
        assert k in other <==> k in b;
      }
    }
  }

  lemma {:induction false} NoneIsLeft(name: string, extra: Labels, queries: seq<Query>)
    ensures LeftByAll(name, None, extra, queries) == None
  {
    if queries != [] {
      NoneIsLeft(name, extra, queries[..|queries| - 1]);
    }
  }

  // ---------- Who selects whom ----------

  /** The selector of the main Deployment finds its own main pods and nobody else's. */
  lemma MainSelectorFindsIff(name: string, other: string, resource: Option<Labels>, extra: Labels, query: Query)
    ensures Selects(SelectorLabels(name), Answer(other, resource, extra, query)) <==>
      name == other && !query.JobServerQuery?
  {
    var labels := Answer(other, resource, extra, query);
    assert ClusterLabel in SelectorLabels(name) && AppLabel in SelectorLabels(name);
    assert labels[ClusterLabel] == other && labels[ClusterResourceLabel] == other && labels[AppLabel] == App(query);
    assert |JOB_SERVER_CONTAINER| != |MATTERMOST_APP_CONTAINER|;
  }

  /** The selector of the job server finds a pod, whatever spec that was made from, exactly when it is a job
      server's pod of the same installation and has all the labels that the selector was made with. Main pods
      are never found. */
  lemma {:induction false} JobServerSelectorFindsIff(name: string, resource: Option<Labels>, extra: Labels,
          other: string, otherResource: Option<Labels>, otherExtra: Labels, query: Query)
    ensures Selects(Answer(name, resource, extra, JobServerQuery), Answer(other, otherResource, otherExtra, query)) <==>
      && name == other && query.JobServerQuery?
      && HasLabels(OrEmpty(otherResource) + otherExtra, OrEmpty(resource) + extra, name)
  {
    var selector, labels :=
      Answer(name, resource, extra, JobServerQuery), Answer(other, otherResource, otherExtra, query);
    assert ClusterLabel in selector && AppLabel in selector;
    assert selector[ClusterLabel] == name && selector[AppLabel] == JOB_SERVER_CONTAINER;
    assert labels[ClusterLabel] == other && labels[AppLabel] == App(query);
    assert |JOB_SERVER_CONTAINER| != |MATTERMOST_APP_CONTAINER|;
    if name == other && query.JobServerQuery? {
      var below, otherBelow := OrEmpty(resource) + extra, OrEmpty(otherResource) + otherExtra;
      var defaults := DefaultLabels(name, JOB_SERVER_CONTAINER);
      PlusAssociates(OrEmpty(resource), extra, defaults);
      PlusAssociates(OrEmpty(otherResource), otherExtra, defaults);
      assert defaults.Keys == DefaultLabels(name, MATTERMOST_APP_CONTAINER).Keys;
      hide DefaultLabels, Answer;
      SelectsUnderDefaultsIff(below, otherBelow, defaults);
    }
  }

  /** The labels include the others, leaving out the defaults. */
  ghost predicate HasLabels(labels: Labels, others: Labels, name: string) {
    forall k :: k in others && k !in DefaultLabels(name, MATTERMOST_APP_CONTAINER) ==>
      k in labels && labels[k] == others[k]
  }

  lemma SelectsUnderDefaultsIff(below: Labels, otherBelow: Labels, defaults: Labels)
    ensures Selects(below + defaults, otherBelow + defaults) <==>
      forall k :: k in below && k !in defaults ==> k in otherBelow && otherBelow[k] == below[k]
  {
    var selector, labels := below + defaults, otherBelow + defaults;
    if Selects(selector, labels) {
      forall k | k in below && k !in defaults ensures k in otherBelow && otherBelow[k] == below[k] {
        assert k in selector;
      }
    }
  }

  /** Unlike the main selector, the job server's is made from the spec's labels: a new extra label changes
      the immutable selector exactly when it is not one of the defaults and not there already. */
  lemma ExtraLabelChangesJobServerSelectorIff(name: string, resource: Option<Labels>, extra: Labels, key: LabelKey,
      value: string)
    ensures var changed := Answer(name, resource, extra[key := value], JobServerQuery);
      changed != Answer(name, resource, extra, JobServerQuery) <==>
      && key !in DefaultLabels(name, JOB_SERVER_CONTAINER)
      && !(key in OrEmpty(resource) + extra && (OrEmpty(resource) + extra)[key] == value)
  {
    var below, defaults := OrEmpty(resource) + extra, DefaultLabels(name, JOB_SERVER_CONTAINER);
    hide DefaultLabels;
    PlusAssociates(OrEmpty(resource), extra, defaults);
    PlusAssociates(OrEmpty(resource), extra[key := value], defaults);
    assert OrEmpty(resource) + extra[key := value] == below[key := value];
    UpdateShowsIff(below, defaults, key, value);
  }

  lemma UpdateShowsIff<K, V>(below: map<K, V>, above: map<K, V>, key: K, value: V)
    ensures below[key := value] + above != below + above <==> key !in above && !(key in below && below[key] == value)
  {
    var before, after := below + above, below[key := value] + above;
    assert key in after;
    if key in above || (key in below && below[key] == value) {
      assert before == after;
    } else {
      assert after[key] == value;
      assert key in before ==> before[key] == below[key];
    }
  }

  /** The health check looks for the load balancer's Service, or the Ingress, with the labels of the pods, but
      these objects were labelled before any pod labels were asked for. It finds them exactly when the extra
      labels add nothing to the resource labels. */
  lemma EndpointIsFoundIff(name: string, resource: Option<Labels>, extra: Labels)
    ensures Selects(Answer(name, resource, extra, PodQuery), Answer(name, resource, extra, ResourceQuery)) <==>
      AddsNothing(name, OrEmpty(resource), extra)
  {
    var wanted, found := Answer(name, resource, extra, PodQuery), Answer(name, resource, extra, ResourceQuery);
    if AddsNothing(name, OrEmpty(resource), extra) {
      assert wanted == found;
    } else {
      var k :| k in extra && k !in DefaultLabels(name, MATTERMOST_APP_CONTAINER) &&
        !(k in OrEmpty(resource) && OrEmpty(resource)[k] == extra[k]);
      assert k in wanted && wanted[k] == extra[k];
    }
  }
}
