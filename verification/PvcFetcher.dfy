/** Resolving a target to its claims: the claims mounted by the pods of a workload, each once. */
module PvcFetcher {
  import opened Api
  import opened Visiting
  import opened Tick
  import opened OfflineResize

  /** Some pod mounts a claim of this name. */
  ghost predicate Mounted(pods: seq<Pod>, name: string) {
    exists i :: 0 <= i < |pods| && Some(name) in pods[i].volumes
  }

  /** The distinct claims of the pods, in whatever order a Go map yields them, or None if one of
      them cannot be read. */
  method GetPVCsFromPods(pods: seq<Pod>, readable: string -> bool) returns (r: Option<seq<string>>)
    ensures r.Some? <==> forall n :: Mounted(pods, n) ==> readable(n)
    ensures r.Some? ==> NoDup(r.value) && forall n :: n in r.value <==> Mounted(pods, n)
  {
    var found: set<string> := {};
    for i := 0 to |pods|
      invariant forall n :: n in found <==> Mounted(pods[..i], n)
      invariant forall n :: n in found ==> readable(n)
    {
      var volumes := pods[i].volumes;
      for j := 0 to |volumes|
        invariant forall n :: n in found <==> Mounted(pods[..i], n) || Some(n) in volumes[..j]
        invariant forall n :: n in found ==> readable(n)
      {
        assert volumes[..j + 1] == volumes[..j] + [volumes[j]];
        if volumes[j].None? { continue; }
        var n := volumes[j].value;
        if n in found { continue; }
        if !readable(n) {
          assert Some(n) in pods[i].volumes && Mounted(pods, n);
          return None;
        }
        found := found + {n};
      }
      assert volumes[..|volumes|] == volumes;
      MountedNext(pods, i);
    }
    assert pods[..|pods|] == pods;
    var names: seq<string> := [];
    var todo := found;
    while todo != {}
      invariant NoDup(names) && todo <= found && forall n :: n in names <==> n in found && n !in todo
      decreases |todo|
    {
      var n :| n in todo;
      names, todo := names + [n], todo - {n};
    }
    r := Some(names);
  }

  lemma MountedNext(pods: seq<Pod>, i: nat)
    requires i < |pods|
    ensures forall n :: Mounted(pods[..i + 1], n) <==> Mounted(pods[..i], n) || Some(n) in pods[i].volumes
  {
    forall n ensures Mounted(pods[..i + 1], n) <==> Mounted(pods[..i], n) || Some(n) in pods[i].volumes {
      if Mounted(pods[..i], n) {
        var j :| 0 <= j < |pods[..i]| && Some(n) in pods[..i][j].volumes;
        assert Some(n) in pods[..i + 1][j].volumes;
      }
      if Some(n) in pods[i].volumes { assert Some(n) in pods[..i + 1][i].volumes; }
      if Mounted(pods[..i + 1], n) {
        var j :| 0 <= j < |pods[..i + 1]| && Some(n) in pods[..i + 1][j].volumes;
        assert j == i || Some(n) in pods[..i][j].volumes;
      }
    }
  }

  /** The fetch of a target: `direct` is the claim name of a target that is itself a claim; pods
      None stands for a target or pod list that cannot be read. Successful results are free of
      duplicates, which the ownership map relies on. */
  method FetchTarget(direct: Option<string>, pods: Option<seq<Pod>>, readable: string -> bool) returns (f: Fetch)
    ensures f.Fetched? ==> NoDup(f.names) && f.names != [] && forall n :: n in f.names ==> readable(n)
    ensures direct.Some? ==> f == if readable(direct.value) then Fetched([direct.value]) else FetchFailed
    ensures direct.None? && pods.Some? && f.Fetched? ==> forall n :: n in f.names <==> Mounted(pods.value, n)
    ensures direct.None? ==> (f.NothingMatched? <==> pods.Some? && forall n :: !Mounted(pods.value, n))
    ensures direct.None? ==>
              (f.FetchFailed? <==> pods.None? || exists n :: Mounted(pods.value, n) && !readable(n))
  {
    if direct.Some? {
      return if readable(direct.value) then Fetched([direct.value]) else FetchFailed;
    }
    if pods.None? { return FetchFailed; }
    if |pods.value| == 0 { return NothingMatched; }
    var names := GetPVCsFromPods(pods.value, readable);
    if names.None? { return FetchFailed; }
    if |names.value| == 0 { return NothingMatched; }
    assert names.value[0] in names.value;
    f := Fetched(names.value);
  }
}
