/** The gateway's store client: cluster-filter normalisation, the list options built from a
    query, the VirtualMachine list that fans out over several clusters, the power-state
    update and the console address. The Kubernetes API is an oracle: `env` says what each
    list, get and update returns, and `trace` records every call in order. */
module GatewayClient {
  import opened Common
  import B = V1Beta1
  import GatewayDTO

  type VM = B.VirtualMachine

  /** The cluster filter that means "no filter". */
  const All := "all"

  /** A list query: the route's namespace and the requested clusters. */
  datatype QueryOptions = QueryOptions(namespace: string, clusters: seq<string>)

  /** The list options the client passes to the API. */
  datatype ListOption = InNamespace(namespace: string) | MatchingLabel(key: string, value: string)

  // ---------------------------------------------------------------------------------
  // normalizeClusters
  // ---------------------------------------------------------------------------------

  /** The filter walk from `rest` on, with `acc` kept so far: empty entries and entries
      already kept are skipped, and "all" ends the walk with just ["all"]. */
  function NormalizeFrom(rest: seq<string>, acc: seq<string>): seq<string>
    decreases |rest|
  {
    if rest == [] then acc
    else if rest[0] == "" then NormalizeFrom(rest[1..], acc)
    else if rest[0] == All then [All]
    else if rest[0] in acc then NormalizeFrom(rest[1..], acc)
    else NormalizeFrom(rest[1..], acc + [rest[0]])
  }

  function Normalized(clusters: seq<string>): seq<string> {
    NormalizeFrom(clusters, [])
  }

  method NormalizeClusters(clusters: seq<string>) returns (normalized: seq<string>)
    ensures normalized == Normalized(clusters)
  {
    if |clusters| == 0 {
      return [];
    }
    var seen: set<string> := {};
    normalized := [];
    var i := 0;
    while i < |clusters|
      invariant 0 <= i <= |clusters|
      invariant forall c :: c in seen <==> c in normalized
      invariant NormalizeFrom(clusters[i..], normalized) == Normalized(clusters)
    {
      var cluster := clusters[i];
      assert clusters[i..][1..] == clusters[i + 1..];
      if cluster == "" {
        i := i + 1;
        continue;
      }
      if cluster == All {
        return [All];
      }
      if cluster in seen {
        i := i + 1;
        continue;
      }
      seen := seen + {cluster};
      normalized := normalized + [cluster];
      i := i + 1;
    }
    assert clusters[i..] == [];
  }

  predicate Distinct(xs: seq<string>) {
    forall i, j :: 0 <= i < j < |xs| ==> xs[i] != xs[j]
  }

  /** `xs` is `ys` with some elements left out, the rest in their order. */
  predicate IsSubsequence(xs: seq<string>, ys: seq<string>)
    decreases |ys|
  {
    if xs == [] then true
    else if ys == [] then false
    else
      var taken := xs[|xs| - 1] == ys[|ys| - 1] && IsSubsequence(xs[..|xs| - 1], ys[..|ys| - 1]);
      taken || IsSubsequence(xs, ys[..|ys| - 1])
  }

  lemma SubsequenceSkip(xs: seq<string>, ys: seq<string>, a: string)
    requires IsSubsequence(xs, ys)
    ensures IsSubsequence(xs, ys + [a])
  {
    assert (ys + [a])[..|ys|] == ys;
  }

  lemma SubsequenceTake(xs: seq<string>, ys: seq<string>, a: string)
    requires IsSubsequence(xs, ys)
    ensures IsSubsequence(xs + [a], ys + [a])
  {
    assert (ys + [a])[..|ys|] == ys;
    assert (xs + [a])[..|xs|] == xs;
  }

  /** The position of the first occurrence of `x`. */
  function IndexOf(xs: seq<string>, x: string): (k: nat)
    requires x in xs
    ensures k < |xs| && xs[k] == x
    ensures forall j :: 0 <= j < k ==> xs[j] != x
  {
    if xs[0] == x then 0 else 1 + IndexOf(xs[1..], x)
  }

  /** The walk's invariant, stated over the processed prefix `cs[..i]`: the kept entries are
      distinct, non-empty, exactly the non-empty entries seen so far, in the order of their
      first occurrences, and a subsequence of what was seen. */
  ghost predicate KeptSoFar(cs: seq<string>, i: nat, acc: seq<string>)
    requires i <= |cs|
  {
    && Distinct(acc)
    && (forall c :: c in acc <==> c in cs[..i] && c != "")
    && (forall c :: c in acc ==> c in cs)
    && (forall j, k :: 0 <= j < k < |acc| ==> IndexOf(cs, acc[j]) < IndexOf(cs, acc[k]))
    && IsSubsequence(acc, cs[..i])
  }

  /** An empty or already kept entry leaves the kept list as it is. */
  lemma KeptSkip(cs: seq<string>, i: nat, acc: seq<string>)
    requires i < |cs| && KeptSoFar(cs, i, acc)
    requires cs[i] == "" || cs[i] in acc
    ensures KeptSoFar(cs, i + 1, acc)
  {
    var c := cs[i];
    assert cs[..i + 1] == cs[..i] + [c];
    forall x ensures x in acc <==> x in cs[..i + 1] && x != "" {
      assert x in cs[..i + 1] <==> x in cs[..i] || x == c;
    }
    SubsequenceSkip(acc, cs[..i], c);
  }

  /** Every kept entry first occurs before position `i`. */
  lemma KeptBefore(cs: seq<string>, i: nat, acc: seq<string>)
    requires i < |cs| && KeptSoFar(cs, i, acc)
    ensures forall j :: 0 <= j < |acc| ==> acc[j] in cs && IndexOf(cs, acc[j]) < i
  {
    forall j | 0 <= j < |acc| ensures acc[j] in cs && IndexOf(cs, acc[j]) < i {
      assert acc[j] in cs[..i];
      var w :| 0 <= w < i && cs[..i][w] == acc[j];
      assert cs[w] == acc[j];
    }
  }

  /** A new non-empty entry is kept at the end: its first occurrence is here, after the
      first occurrences of everything kept before it. */
  lemma KeptTake(cs: seq<string>, i: nat, acc: seq<string>)
    requires i < |cs| && KeptSoFar(cs, i, acc)
    requires cs[i] != "" && cs[i] !in acc
    ensures KeptSoFar(cs, i + 1, acc + [cs[i]])
  {
    var c := cs[i];
    var acc' := acc + [c];
    assert cs[..i + 1] == cs[..i] + [c];
    assert c !in cs[..i];
    assert IndexOf(cs, c) == i;
    KeptBefore(cs, i, acc);
    assert forall j :: 0 <= j < |acc| ==> acc'[j] == acc[j];
    forall x ensures x in acc' <==> x in cs[..i + 1] && x != "" {
      assert x in cs[..i + 1] <==> x in cs[..i] || x == c;
    }
    SubsequenceTake(acc, cs[..i], c);
  }

  lemma {:induction false} NormalizeFromKeeps(cs: seq<string>, i: nat, acc: seq<string>)
    requires i <= |cs| && All !in cs
    requires KeptSoFar(cs, i, acc)
    ensures KeptSoFar(cs, |cs|, NormalizeFrom(cs[i..], acc))
    decreases |cs| - i
  {
    if i == |cs| {
      assert cs[i..] == [];
    } else {
      var c := cs[i];
      assert cs[i..][0] == c && cs[i..][1..] == cs[i + 1..];
      if c == "" || c in acc {
        KeptSkip(cs, i, acc);
        NormalizeFromKeeps(cs, i + 1, acc);
      } else {
        KeptTake(cs, i, acc);
        NormalizeFromKeeps(cs, i + 1, acc + [c]);
      }
    }
  }

  /** "all" anywhere in the filter means exactly ["all"]; everything before it is dropped. */
  lemma {:induction false} AllWins(rest: seq<string>, acc: seq<string>)
    requires All in rest
    ensures NormalizeFrom(rest, acc) == [All]
    decreases |rest|
  {
    if rest[0] != All {
      assert All in rest[1..];
      if rest[0] == "" || rest[0] in acc {
        AllWins(rest[1..], acc);
      } else {
        AllWins(rest[1..], acc + [rest[0]]);
      }
    }
  }

  /** Only empty entries leave the kept list as it is. */
  lemma {:induction false} OnlyEmptyKeepsNothing(rest: seq<string>, acc: seq<string>)
    requires forall i :: 0 <= i < |rest| ==> rest[i] == ""
    ensures NormalizeFrom(rest, acc) == acc
    decreases |rest|
  {
    if rest != [] {
      assert forall i :: 0 <= i < |rest[1..]| ==> rest[1..][i] == rest[i + 1];
      OnlyEmptyKeepsNothing(rest[1..], acc);
    }
  }

  /** normalizeClusters: no entries or only empty ones give nothing; "all" gives exactly
      ["all"]; otherwise the result is the non-empty entries without repeats, each at its
      first occurrence, in input order. */
  lemma NormalizedProperties(clusters: seq<string>)
    ensures (forall i :: 0 <= i < |clusters| ==> clusters[i] == "") ==> Normalized(clusters) == []
    ensures All in clusters ==> Normalized(clusters) == [All]
    ensures All !in clusters ==>
      var r := Normalized(clusters);
      && Distinct(r)
      && (forall c :: c in r <==> c in clusters && c != "")
      && (forall j, k :: 0 <= j < k < |r| ==> IndexOf(clusters, r[j]) < IndexOf(clusters, r[k]))
      && IsSubsequence(r, clusters)
  {
    if forall i :: 0 <= i < |clusters| ==> clusters[i] == "" {
      OnlyEmptyKeepsNothing(clusters, []);
    }
    if All in clusters {
      AllWins(clusters, []);
    } else {
      assert clusters[..0] == [] && clusters[0..] == clusters && clusters[..|clusters|] == clusters;
      NormalizeFromKeeps(clusters, 0, []);

    }
  }

  // ---------------------------------------------------------------------------------
  // buildListOptions
  // ---------------------------------------------------------------------------------

  /** The cluster a query narrows to, if it narrows to exactly one. */
  predicate SingleCluster(clusters: seq<string>) {
    var n := Normalized(clusters);
    |n| == 1 && n[0] != "" && n[0] != All
  }

  /** buildListOptions' result. */
  function ListOptionsFor(opts: QueryOptions): (r: seq<ListOption>)
  {
    var ns := if opts.namespace != "" then [InNamespace(opts.namespace)] else [];
    var n := Normalized(opts.clusters);
    if |n| == 1 && n[0] != "" && n[0] != All then ns + [MatchingLabel(GatewayDTO.LabelCluster, n[0])]
    else ns
  }

  /** A namespace option exactly when a namespace is given, then a cluster-label filter
      exactly when the query narrows to one cluster, naming that cluster. */
  lemma ListOptionsForProperties(opts: QueryOptions)
    ensures var r := ListOptionsFor(opts);
      && (InNamespace(opts.namespace) in r <==> opts.namespace != "")
      && ((exists i :: 0 <= i < |r| && r[i].MatchingLabel?) <==> SingleCluster(opts.clusters))
      && (forall i :: 0 <= i < |r| ==>
            r[i] == InNamespace(opts.namespace) ||
            (SingleCluster(opts.clusters) && r[i] == MatchingLabel(GatewayDTO.LabelCluster, Normalized(opts.clusters)[0])))
      && |r| <= 2 && (|r| == 2 ==> r[0].InNamespace?)
  {
    var r := ListOptionsFor(opts);
    var ns := if opts.namespace != "" then [InNamespace(opts.namespace)] else [];
    if SingleCluster(opts.clusters) {
      assert r[|ns|].MatchingLabel?;
    }
  }

  method BuildListOptions(opts: QueryOptions) returns (options: seq<ListOption>)
    ensures options == ListOptionsFor(opts)
  {
    options := [];
    if opts.namespace != "" {
      options := options + [InNamespace(opts.namespace)];
    }
    var clusters := NormalizeClusters(opts.clusters);
    if |clusters| == 1 && clusters[0] != "" && clusters[0] != All {
      options := options + [MatchingLabel(GatewayDTO.LabelCluster, clusters[0])];
    }
  }

  /** Two or more distinct clusters put no cluster filter on a single list call. */
  lemma SeveralClustersUnfiltered(opts: QueryOptions)
    requires |Normalized(opts.clusters)| >= 2
    ensures forall i :: 0 <= i < |ListOptionsFor(opts)| ==> ListOptionsFor(opts)[i] == InNamespace(opts.namespace)
  {
  }

  // ---------------------------------------------------------------------------------
  // The store
  // ---------------------------------------------------------------------------------

  /** An API error; RBAC denials are told apart. */
  datatype ApiError = Forbidden(message: string) | ApiFailure(message: string)

  /** What the client returns: its own forbidden marker, or the API's error unchanged. */
  datatype Error = ErrForbidden | Upstream(cause: ApiError)

  predicate IsForbidden(e: Error) { e.ErrForbidden? }

  /** A write or read error as UpdatePowerState reports it. */
  function MapForbidden(e: ApiError): (r: Error)
    ensures IsForbidden(r) <==> e.Forbidden?
    ensures !IsForbidden(r) ==> r == Upstream(e)
  {
    if e.Forbidden? then ErrForbidden else Upstream(e)
  }

  datatype Listing = Listed(items: seq<VM>) | ListFailed(err: ApiError)

  datatype Fetch = Fetched(vm: VM) | FetchFailed(err: ApiError)

  datatype Call = List(options: seq<ListOption>) | Get(key: ObjectKey) | Update(vm: VM)

  /** The API's answers. */
  datatype Environment = Environment(
    list: seq<ListOption> -> Listing,
    get: ObjectKey -> Fetch,
    update: VM -> Option<ApiError>)

  /** The calls a list operation makes and what it returns. */
  datatype ListPass = ListPass(calls: seq<Call>, outcome: Listing)

  /** The list call for one cluster of a fan-out. */
  function ClusterList(namespace: string, cluster: string): Call {
    List(ListOptionsFor(QueryOptions(namespace, [cluster])))
  }

  /** The options of one cluster's list in a fan-out. */
  method ClusterOptions(namespace: string, cluster: string) returns (options: seq<ListOption>)
    ensures options == ClusterList(namespace, cluster).options
  {
    options := BuildListOptions(QueryOptions(namespace, [cluster]));
  }

  /** The fan-out from the given cluster on: one list per cluster, items concatenated; the
      first failure ends it with that error and no items. */
  function FanOut(env: Environment, namespace: string, clusters: seq<string>): ListPass
    decreases |clusters|
  {
    if clusters == [] then ListPass([], Listed([]))
    else
      var c := ClusterList(namespace, clusters[0]);
      match env.list(c.options)
      case ListFailed(e) => ListPass([c], ListFailed(e))
      case Listed(items) =>
        var rest := FanOut(env, namespace, clusters[1..]);
        ListPass([c] + rest.calls, if rest.outcome.Listed? then Listed(items + rest.outcome.items) else rest.outcome)
  }

  /** listVirtualMachines: one list for at most one normalized cluster, a fan-out otherwise. */
  function ListVMsSpec(env: Environment, opts: QueryOptions): ListPass {
    if |Normalized(opts.clusters)| <= 1 then
      var options := ListOptionsFor(opts);
      ListPass([List(options)], env.list(options))
    else FanOut(env, opts.namespace, Normalized(opts.clusters))
  }

  /** The calls done so far and the items gathered so far, followed by the rest of a pass. */
  function After(done: seq<Call>, gathered: seq<VM>, p: ListPass): ListPass {
    ListPass(done + p.calls, if p.outcome.Listed? then Listed(gathered + p.outcome.items) else p.outcome)
  }

  /** One step of the fan-out: the first cluster's list, then the rest. */
  lemma FanOutStep(env: Environment, namespace: string, clusters: seq<string>)
    requires clusters != []
    ensures var c := ClusterList(namespace, clusters[0]);
      var l := env.list(c.options);
      FanOut(env, namespace, clusters) ==
        if l.ListFailed? then ListPass([c], l) else After([c], l.items, FanOut(env, namespace, clusters[1..]))
  {
  }

  /** The loop step of the fan-out: after cluster `i` is listed, the pass either ends with its
      failure or goes on from cluster `i + 1` with its items gathered. */
  lemma FanOutAdvance(env: Environment, namespace: string, clusters: seq<string>, i: nat, done: seq<Call>, gathered: seq<VM>)
    requires i < |clusters|
    requires FanOut(env, namespace, clusters) == After(done, gathered, FanOut(env, namespace, clusters[i..]))
    ensures var c := ClusterList(namespace, clusters[i]);
      var l := env.list(c.options);
      if l.ListFailed? then FanOut(env, namespace, clusters) == ListPass(done + [c], l)
      else FanOut(env, namespace, clusters) == After(done + [c], gathered + l.items, FanOut(env, namespace, clusters[i + 1..]))
  {
    assert clusters[i..][1..] == clusters[i + 1..];
    FanOutStep(env, namespace, clusters[i..]);
    var c := ClusterList(namespace, clusters[i]);
    var l := env.list(c.options);
    if l.Listed? {
      AfterAfter(done, gathered, c, l.items, FanOut(env, namespace, clusters[i + 1..]));
    }
  }

  lemma AfterAfter(done: seq<Call>, gathered: seq<VM>, c: Call, items: seq<VM>, p: ListPass)
    ensures After(done, gathered, After([c], items, p)) == After(done + [c], gathered + items, p)
  {
    if p.outcome.Listed? {
      assert gathered + (items + p.outcome.items) == (gathered + items) + p.outcome.items;
    }
  }

  /** The power-state update: read the VM, set the desired state, write it back; a forbidden
      answer to either call is reported as ErrForbidden. */
  function UpdatePowerSpec(env: Environment, key: ObjectKey, state: B.PowerState): (seq<Call>, Option<Error>) {
    match env.get(key)
    case FetchFailed(e) => ([Get(key)], Some(MapForbidden(e)))
    case Fetched(vm) =>
      var updated := vm.(spec := vm.spec.(powerState := state));
      match env.update(updated)
      case Some(e) => ([Get(key), Update(updated)], Some(MapForbidden(e)))
      case None => ([Get(key), Update(updated)], None)
  }

  class Store {
    const env: Environment
    /** Every API call made so far, in order. */
    var trace: seq<Call>

    constructor (env: Environment)
      ensures this.env == env && trace == []
    {
      this.env := env;
      trace := [];
    }

    method List(options: seq<ListOption>) returns (result: Listing)
      modifies this
      ensures trace == old(trace) + [Call.List(options)]
      ensures result == env.list(options)
    {
      trace := trace + [Call.List(options)];
      result := env.list(options);
    }

    method ListVirtualMachines(opts: QueryOptions) returns (result: Listing)
      modifies this
      ensures trace == old(trace) + ListVMsSpec(env, opts).calls
      ensures result == ListVMsSpec(env, opts).outcome
    {
      var clusters := NormalizeClusters(opts.clusters);
      if |clusters| <= 1 {
        var options := BuildListOptions(opts);
        result := List(options);
        return;
      }
      result := FanOutLists(opts.namespace, clusters);
    }

    /** The per-cluster lists of a fan-out, in order, stopping at the first failure. */
    method FanOutLists(namespace: string, clusters: seq<string>) returns (result: Listing)
      modifies this
      ensures trace == old(trace) + FanOut(env, namespace, clusters).calls
      ensures result == FanOut(env, namespace, clusters).outcome
    {
      var aggregated: seq<VM> := [];
      ghost var done: seq<Call> := [];
      var i := 0;
      while i < |clusters|
        invariant 0 <= i <= |clusters|
        invariant trace == old(trace) + done
        invariant FanOut(env, namespace, clusters) == After(done, aggregated, FanOut(env, namespace, clusters[i..]))
      {
        var options := ClusterOptions(namespace, clusters[i]);
        var listed := List(options);
        FanOutAdvance(env, namespace, clusters, i, done, aggregated);
        done := done + [Call.List(options)];
        if listed.ListFailed? {
          return listed;
        }
        aggregated := aggregated + listed.items;
        i := i + 1;
      }
      assert clusters[i..] == [];
      return Listed(aggregated);
    }

    method UpdatePowerState(namespace: string, name: string, state: B.PowerState) returns (err: Option<Error>)
      modifies this
      ensures trace == old(trace) + UpdatePowerSpec(env, ObjectKey(namespace, name), state).0
      ensures err == UpdatePowerSpec(env, ObjectKey(namespace, name), state).1
    {
      var key := ObjectKey(namespace, name);
      trace := trace + [Get(key)];
      var fetched := env.get(key);
      if fetched.FetchFailed? {
        return Some(MapForbidden(fetched.err));
      }
      var vm := fetched.vm;
      vm := vm.(spec := vm.spec.(powerState := state));
      trace := trace + [Update(vm)];
      var failed := env.update(vm);
      if failed.Some? {
        return Some(MapForbidden(failed.value));
      }
      return None;
    }
  }

  // ---------------------------------------------------------------------------------
  // Properties of the list and update operations
  // ---------------------------------------------------------------------------------

  /** The list call for a cluster succeeds. */
  predicate ClusterListed(env: Environment, namespace: string, cluster: string) {
    env.list(ClusterList(namespace, cluster).options).Listed?
  }

  /** The fan-out lists the clusters one by one, in order, each with its own options, and
      makes at most one call per cluster. */
  lemma {:induction false} FanOutCalls(env: Environment, namespace: string, clusters: seq<string>)
    ensures var p := FanOut(env, namespace, clusters);
      && |p.calls| <= |clusters| && (clusters != [] ==> |p.calls| >= 1)
      && forall i :: 0 <= i < |p.calls| ==> p.calls[i] == ClusterList(namespace, clusters[i])
    decreases |clusters|
  {
    if clusters != [] {
      FanOutCalls(env, namespace, clusters[1..]);
      var p := FanOut(env, namespace, clusters);
      var rest := FanOut(env, namespace, clusters[1..]);
      if ClusterListed(env, namespace, clusters[0]) {
        assert p.calls == [ClusterList(namespace, clusters[0])] + rest.calls;
        forall i | 1 <= i < |p.calls| ensures p.calls[i] == ClusterList(namespace, clusters[i]) {
          assert p.calls[i] == rest.calls[i - 1] && clusters[1..][i - 1] == clusters[i];
        }
      }
    }
  }

  /** The fan-out succeeds exactly when every cluster's list succeeds, and then it has listed
      every cluster. */
  lemma {:induction false} FanOutSucceeds(env: Environment, namespace: string, clusters: seq<string>)
    ensures var p := FanOut(env, namespace, clusters);
      && (p.outcome.Listed? <==> forall i :: 0 <= i < |clusters| ==> ClusterListed(env, namespace, clusters[i]))
      && (p.outcome.Listed? ==> |p.calls| == |clusters|)
    decreases |clusters|
  {
    if clusters != [] {
      var tail := clusters[1..];
      FanOutSucceeds(env, namespace, tail);
      if ClusterListed(env, namespace, clusters[0]) {
        if FanOut(env, namespace, tail).outcome.Listed? {
          forall i | 1 <= i < |clusters| ensures ClusterListed(env, namespace, clusters[i]) {
            assert clusters[i] == tail[i - 1];
          }
        } else {
          var k :| 0 <= k < |tail| && !ClusterListed(env, namespace, tail[k]);
          assert clusters[k + 1] == tail[k];
        }
      }
    }
  }

  /** A failed fan-out stops at the cluster that failed, all before it having succeeded, and
      returns that failure with no partial items. */
  lemma {:induction false} FanOutFails(env: Environment, namespace: string, clusters: seq<string>)
    ensures var p := FanOut(env, namespace, clusters);
      p.outcome.ListFailed? ==>
        && 0 < |p.calls| <= |clusters|
        && p.outcome == env.list(ClusterList(namespace, clusters[|p.calls| - 1]).options)
        && forall i :: 0 <= i < |p.calls| - 1 ==> ClusterListed(env, namespace, clusters[i])
    decreases |clusters|
  {
    if clusters != [] && ClusterListed(env, namespace, clusters[0]) {
      var tail := clusters[1..];
      FanOutFails(env, namespace, tail);
      var p := FanOut(env, namespace, clusters);
      var rest := FanOut(env, namespace, tail);
      if rest.outcome.ListFailed? {
        assert |p.calls| == 1 + |rest.calls|;
        assert clusters[|p.calls| - 1] == tail[|rest.calls| - 1];
        forall i | 1 <= i < |p.calls| - 1 ensures ClusterListed(env, namespace, clusters[i]) {
          assert clusters[i] == tail[i - 1];
        }
      }
    }
  }

  /** The items of a fully successful fan-out are the per-cluster items in cluster order. */
  function Gathered(env: Environment, namespace: string, clusters: seq<string>): seq<VM>
    decreases |clusters|
  {
    if clusters == [] then []
    else
      var l := env.list(ClusterList(namespace, clusters[0]).options);
      (if l.Listed? then l.items else []) + Gathered(env, namespace, clusters[1..])
  }

  lemma {:induction false} FanOutGathers(env: Environment, namespace: string, clusters: seq<string>)
    requires FanOut(env, namespace, clusters).outcome.Listed?
    ensures FanOut(env, namespace, clusters).outcome.items == Gathered(env, namespace, clusters)
    decreases |clusters|
  {
    if clusters != [] {
      FanOutGathers(env, namespace, clusters[1..]);
    }
  }

  /** Each list call of a multi-cluster fan-out carries that cluster's label filter. */
  lemma FanOutFiltersEachCluster(namespace: string, cluster: string)
    requires cluster != "" && cluster != All
    ensures MatchingLabel(GatewayDTO.LabelCluster, cluster) in ClusterList(namespace, cluster).options
    ensures (InNamespace(namespace) in ClusterList(namespace, cluster).options) <==> namespace != ""
  {
    assert Normalized([cluster]) == [cluster] by {
      assert [cluster][0] == cluster && [cluster][1..] == [];
      assert NormalizeFrom([cluster], []) == NormalizeFrom([], [] + [cluster]);
    }
    var r := ClusterList(namespace, cluster).options;
    assert r[|r| - 1] == MatchingLabel(GatewayDTO.LabelCluster, cluster);
  }

  /** At most one normalized cluster means a single list call with the query's own options. */
  lemma SingleListWhenOneCluster(env: Environment, opts: QueryOptions)
    requires |Normalized(opts.clusters)| <= 1
    ensures ListVMsSpec(env, opts) == ListPass([List(ListOptionsFor(opts))], env.list(ListOptionsFor(opts)))
  {
  }

  /** UpdatePowerState writes back the VM it read with only the power state changed, and it
      reports ErrForbidden exactly when the failing call was denied by RBAC. */
  lemma UpdatePowerStateProperties(env: Environment, key: ObjectKey, state: B.PowerState)
    ensures var (calls, err) := UpdatePowerSpec(env, key, state);
      && calls[0] == Get(key)
      && (env.get(key).FetchFailed? ==> calls == [Get(key)] && err == Some(MapForbidden(env.get(key).err)))
      && (env.get(key).Fetched? ==>
            var vm := env.get(key).vm;
            && |calls| == 2 && calls[1].Update?
            && calls[1].vm.spec.powerState == state
            && calls[1].vm.(spec := calls[1].vm.spec.(powerState := vm.spec.powerState)) == vm
            && (err.None? <==> env.update(calls[1].vm).None?))
      && (err.Some? && IsForbidden(err.value) <==>
            (env.get(key).FetchFailed? && env.get(key).err.Forbidden?) ||
            (env.get(key).Fetched? && env.update(calls[1].vm).Some? && env.update(calls[1].vm).value.Forbidden?))
  {
  }

  // ---------------------------------------------------------------------------------
  // Console
  // ---------------------------------------------------------------------------------

  const ConsolePrefix := "/console/"

  /** The console address of a VM. */
  function Console(namespace: string, name: string): (url: string)
    ensures |url| == |ConsolePrefix| + |namespace| + 1 + |name|
    ensures url[..|ConsolePrefix|] == ConsolePrefix
    ensures url[|ConsolePrefix| + |namespace|] == '/'
    ensures url[|ConsolePrefix|..|ConsolePrefix| + |namespace|] == namespace
    ensures url[|ConsolePrefix| + |namespace| + 1..] == name
  {
    ConsolePrefix + namespace + "/" + name
  }

  /** Namespaces contain no '/', so different VMs get different console addresses. */
  lemma ConsoleInjective(ns1: string, name1: string, ns2: string, name2: string)
    requires '/' !in ns1 && '/' !in ns2
    requires Console(ns1, name1) == Console(ns2, name2)
    ensures ns1 == ns2 && name1 == name2
  {
    var u := Console(ns1, name1);
    var p := |ConsolePrefix|;
    assert u[p..] == ns1 + "/" + name1;
    assert u[p..] == ns2 + "/" + name2;
    var t := u[p..];
    assert ns1 == t[..|ns1|] == ns2;
    assert name1 == t[|ns1| + 1..] == name2;
  }
}
