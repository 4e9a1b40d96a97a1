/** The objects the autoscaler reads and writes, reduced to the fields its logic looks at.
    Sizes are exact byte counts, times are ticks of an abstract clock. */
module Api {

  datatype Option<+T> = None | Some(value: T)

  /** Namespace and name of an API object. */
  datatype Key = Key(ns: string, name: string)

  datatype Strategy = PreferInPlace | InPlace | Off

  /** A volume policy with its scale-up rules, defaults already filled in. */
  datatype Policy = Policy(
    maxCapacity: int,
    threshold: int,
    stepPercent: int,
    minStep: int,
    cooldown: Option<int>,
    strategy: Strategy)

  /** What admission guarantees about a stored policy. */
  predicate ValidPolicy(p: Policy) {
    && p.maxCapacity > 0
    && 1 <= p.threshold <= 100
    && 5 <= p.stepPercent <= 100
    && p.minStep >= GI
    && (p.cooldown.Some? ==> p.cooldown.value > 0)
  }

  /** One gibibyte: the scaling resolution. */
  const GI: int := 1073741824

  /** Does a pattern match a name? None for a malformed pattern. */
  type Glob = (string, string) -> Option<bool>

  /** Entry of spec.volumePolicies: a name pattern and the policy it selects. */
  datatype Rule = Rule(pattern: string, policy: Policy)

  datatype ConditionKind =
    | Resizing
    | FileSystemResizePending
    | ModifyingVolume
    | ControllerResizeError
    | NodeResizeError
    | OtherKind

  datatype Status = Unknown | False | True

  /** A resize-error message, reduced to the two questions asked about it: does it name a
      provider size limit, and does it ask for the volume to be detached first. */
  datatype Message = Message(limitError: bool, offlineOnly: bool)

  datatype ClaimCondition = ClaimCondition(kind: ConditionKind, status: Status, message: Message)

  /** The prev-size annotation. */
  datatype PrevSize = NoAnnotation | BadAnnotation | Prev(size: int)

  datatype StorageClass = Unnamed | LookupFails | Class(allowsExpansion: bool)

  datatype Claim = Claim(
    spec: nat,
    status: nat,
    prev: PrevSize,
    conditions: seq<ClaimCondition>,
    infeasible: bool,
    storageClass: StorageClass,
    filesystem: bool,
    bound: bool)

  /** Volume statistics of one claim. */
  datatype VolumeInfo = VolumeInfo(availBytes: int, capBytes: int, availInodes: int, capInodes: int)

  /** A volume recommendation in the status of an autoscaler object. */
  datatype Rec = Rec(
    name: string,
    usedSpace: Option<int>,
    usedInodes: Option<int>,
    current: Option<int>,
    target: Option<int>,
    lastResize: Option<int>)

  function FreshRec(name: string): Rec {
    Rec(name, None, None, None, None, None)
  }

  /** The first condition of the given kind, if any. */
  function GetCondition(cs: seq<ClaimCondition>, kind: ConditionKind): (r: Option<ClaimCondition>)
    ensures r.None? <==> forall i :: 0 <= i < |cs| ==> cs[i].kind != kind
    ensures r.Some? ==> exists i :: 0 <= i < |cs| && cs[i] == r.value && cs[i].kind == kind
                                    && forall j :: 0 <= j < i ==> cs[j].kind != kind
  {
    if cs == [] then None
    else if cs[0].kind == kind then Some(cs[0])
    else
      var rest := GetCondition(cs[1..], kind);
      assert forall i :: 0 < i < |cs| ==> cs[i] == cs[1..][i - 1];
      rest
  }

  predicate IsTrue(c: Claim, kind: ConditionKind) {
    GetCondition(c.conditions, kind).Some? && GetCondition(c.conditions, kind).value.status == True
  }

  /** The resize keeps failing on the controller side and is not yet waiting for a mount. */
  predicate Stuck(c: Claim) {
    IsTrue(c, ControllerResizeError) && !IsTrue(c, FileSystemResizePending)
  }

  /** The claim's resize error asks for the volume to be detached. */
  predicate OfflineResizeRequired(c: Claim) {
    var e := GetCondition(c.conditions, ControllerResizeError);
    e.Some? && e.value.message.offlineOnly
  }
}
