/** The gateway's create handlers stamp a freshly built object with the cluster the request
    asked for, unless the object already names one. The object is held by reference, as the
    handlers hold it, and only its labels change. */
module GatewayHandlers {
  import opened Common
  import GatewayDTO
  import GatewayClient

  /** A label's value, "" when the label is absent (a Go map read). */
  function LabelValue(labels: map<string, string>, key: string): string {
    if key in labels then labels[key] else ""
  }

  /** A resource under construction in a handler. */
  class Resource {
    var meta: ObjectMeta

    constructor (meta: ObjectMeta)
      ensures this.meta == meta
    {
      this.meta := meta;
    }
  }

  /** Whether the fallback writes a cluster label: clusters were requested, the object has no
      non-empty cluster label, and the first requested entry, taken as given, is neither empty
      nor "all". */
  predicate FallbackApplies(labels: map<string, string>, clusters: seq<string>) {
    && clusters != []
    && LabelValue(labels, GatewayDTO.LabelCluster) == ""
    && clusters[0] != "" && clusters[0] != GatewayClient.All
  }

  /** The labels after the fallback. */
  function FallbackLabels(labels: map<string, string>, clusters: seq<string>): (r: map<string, string>)
    ensures FallbackApplies(labels, clusters) ==>
      GatewayDTO.LabelCluster in r && r[GatewayDTO.LabelCluster] == clusters[0]
    ensures !FallbackApplies(labels, clusters) ==> r == labels
    ensures forall k :: k != GatewayDTO.LabelCluster ==> (k in r <==> k in labels)
    ensures forall k :: k != GatewayDTO.LabelCluster && k in labels ==> r[k] == labels[k]
  {
    if FallbackApplies(labels, clusters) then labels[GatewayDTO.LabelCluster := clusters[0]] else labels
  }

  /** applyClusterFallback: no object, or no clusters, changes nothing; otherwise only the
      labels of the object change, as FallbackLabels says. */
  method ApplyClusterFallback(obj: Resource?, opts: GatewayClient.QueryOptions)
    modifies obj
    ensures obj != null ==> obj.meta == old(obj.meta).(labels := FallbackLabels(old(obj.meta.labels), opts.clusters))
    ensures obj != null && opts.clusters == [] ==> obj.meta == old(obj.meta)
  {
    if obj == null {
      return;
    }
    if |opts.clusters| == 0 {
      return;
    }
    var labels := obj.meta.labels;
    if LabelValue(labels, GatewayDTO.LabelCluster) == "" {
      var cluster := opts.clusters[0];
      if cluster != "" && cluster != GatewayClient.All {
        labels := labels[GatewayDTO.LabelCluster := cluster];
      }
    }
    obj.meta := obj.meta.(labels := labels);
  }

  /** Applying the fallback a second time changes nothing, and an existing non-empty cluster
      label is never overwritten. */
  lemma FallbackStable(labels: map<string, string>, clusters: seq<string>)
    ensures FallbackLabels(FallbackLabels(labels, clusters), clusters) == FallbackLabels(labels, clusters)
    ensures LabelValue(labels, GatewayDTO.LabelCluster) != "" ==> FallbackLabels(labels, clusters) == labels
  {
  }

  /** The fallback reads the first requested entry as given, not the normalized filter: an
      empty first entry writes no label though the list filter is the second entry, and a
      first entry before "all" is written though the list filter is "all". */
  lemma FallbackUsesRawFirstEntry()
    ensures FallbackLabels(map[], ["", "east"]) == map[]
    ensures GatewayClient.Normalized(["", "east"]) == ["east"]
    ensures FallbackLabels(map[], ["east", "all"]) == map[GatewayDTO.LabelCluster := "east"]
    ensures GatewayClient.Normalized(["east", "all"]) == [GatewayClient.All]
  {
    assert ["", "east"][1..] == ["east"] && ["east"][1..] == [];
    assert ["east", "all"][1..] == ["all"];
    calc {
      GatewayClient.Normalized(["", "east"]);
      GatewayClient.NormalizeFrom(["east"], []);
      GatewayClient.NormalizeFrom([], [] + ["east"]);
    }
  }

  /** When the first requested entry is a real cluster and "all" was not requested, the
      label the fallback writes is the first cluster of the normalized filter. */
  lemma FallbackAgreesWithFilter(labels: map<string, string>, clusters: seq<string>)
    requires FallbackApplies(labels, clusters) && GatewayClient.All !in clusters
    ensures var n := GatewayClient.Normalized(clusters);
      |n| > 0 && FallbackLabels(labels, clusters)[GatewayDTO.LabelCluster] == n[0]
  {
    GatewayClient.NormalizedProperties(clusters);
    var r := GatewayClient.Normalized(clusters);
    assert clusters[0] in r;
    var k :| 0 <= k < |r| && r[k] == clusters[0];
    assert GatewayClient.IndexOf(clusters, clusters[0]) == 0;
  }
}
