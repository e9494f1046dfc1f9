/** Labels and selectors of Mattermost resources, as maps. The keys that the operator sets are
    named; every other key is `OtherLabel` with its text. */
module LabelMaps {
  import opened Kube

  datatype LabelKey =
    | AppLabel
    | ClusterLabel
    | ClusterResourceLabel
    | OldClusterLabel
    | OldClusterResourceLabel
    | OtherLabel(text: string)

  type Labels = map<LabelKey, string>

  function OrEmpty(labels: Option<Labels>): Labels {
    if labels.Some? then labels.value else map[]
  }

  /** A list or a selector with these labels finds an object with those labels. */
  predicate Selects(selector: Labels, labels: Labels) {
    forall k :: k in selector ==> k in labels && labels[k] == selector[k]
  }

  /** Labels set on everything that belongs to one installation; `app` tells the main pods from the job server. */
  function DefaultLabels(name: string, app: string): Labels {
    map[ClusterResourceLabel := name, ClusterLabel := name, AppLabel := app]
  }

  /** MattermostSelectorLabels */
  function SelectorLabels(name: string): Labels {
    DefaultLabels(name, MATTERMOST_APP_CONTAINER)
  }

  /** Labels of ClusterInstallation resources: here the resource labels of the spec come last. */
  function OldSelectorLabels(name: string): Labels {
    map[OldClusterResourceLabel := name, OldClusterLabel := name, AppLabel := MATTERMOST_APP_CONTAINER]
  }

  function OldLabels(name: string, resourceLabels: Labels): Labels {
    OldSelectorLabels(name) + resourceLabels
  }

  /** MattermostLabels on a fresh resource */
  function NewLabels(name: string, resourceLabels: Labels): Labels {
    resourceLabels + SelectorLabels(name)
  }
}
