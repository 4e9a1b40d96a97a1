/** What one tick decides about one claim, from the copy of the claim it has just read. */
module ClaimLogic {
  import opened Api
  import opened Sizing
  import opened Recovery

  datatype Reason = SpaceThreshold | InodesThreshold

  /** The outcome of judging a claim: record the recommendation and leave the claim alone, ask
      for less storage, or ask for more. */
  datatype Verdict =
    | Hold(rec: Rec, note: Option<Note>)
    | Reduce(rec: Rec, target: nat)
    | Grow(rec: Rec, target: nat, reason: Reason)

  /** A remark about a claim for the Resizing condition. */
  datatype Remark =
    | ResizeStarted
    | FileSystemPending
    | VolumeModified
    | UnreadableAnnotation
    | StillResizing
    | MaxCapacityReached
    | CoolingDown

  datatype Note = Note(status: Status, remark: Remark, due: Option<Reason>)

  /** Why a claim is skipped in a tick. */
  datatype Cause =
    | ZeroSize
    | AboveMax
    | NoStorageClass
    | StorageClassLookup
    | NoExpansion
    | NotFilesystem
    | NotBound
    | NoMetrics
    | NoSpaceFigures
    | NoInodeFigures
    | StaleMetrics

  datatype Judgement = Rejected(cause: Cause) | Accepted(verdict: Verdict)

  function GetOr(o: Option<int>, default: int): int {
    match o case None => default case Some(v) => v
  }

  function ScalingReason(p: Policy, rec: Rec): Option<Reason> {
    if GetOr(rec.usedSpace, 0) > p.threshold then Some(SpaceThreshold)
    else if GetOr(rec.usedInodes, 0) > p.threshold then Some(InodesThreshold)
    else None
  }

  /** Why the claim cannot be scaled at all, checked in the order the controller checks. */
  function Objection(p: Policy, c: Claim): Option<Cause> {
    if c.status == 0 then Some(ZeroSize)
    else if p.maxCapacity < c.status then Some(AboveMax)
    else match c.storageClass
      case Unnamed => Some(NoStorageClass)
      case LookupFails => Some(StorageClassLookup)
      case Class(allows) =>
        if !allows then Some(NoExpansion)
        else if !c.filesystem then Some(NotFilesystem)
        else if !c.bound then Some(NotBound)
        else None
  }

  datatype Updated = Fresh(rec: Rec) | Unusable(cause: Cause)

  /** The entry with the latest observations, unless the metrics are missing, empty or stale. */
  function Update(entry: Rec, c: Claim, info: Option<VolumeInfo>): Updated {
    match info
    case None => Unusable(NoMetrics)
    case Some(i) =>
      var space := UsedPercent(i.availBytes, i.capBytes);
      var inodes := UsedPercent(i.availInodes, i.capInodes);
      if space.None? then Unusable(NoSpaceFigures)
      else if inodes.None? then Unusable(NoInodeFigures)
      else if Stale(c.status, i.capBytes) then Unusable(StaleMetrics)
      else Fresh(entry.(
                 usedSpace := space,
                 usedInodes := inodes,
                 current := Some(c.status),
                 target := if entry.target.None? then Some(c.spec) else entry.target))
  }

  /** The status and remark of the note left when a resize is in flight. */
  function InProgress(c: Claim): Option<(Status, Remark)> {
    if IsTrue(c, Resizing) then Some((True, ResizeStarted))
    else if IsTrue(c, FileSystemResizePending) then Some((True, FileSystemPending))
    else if IsTrue(c, ModifyingVolume) then Some((True, VolumeModified))
    else match c.prev
      case NoAnnotation => None
      case BadAnnotation => Some((Unknown, UnreadableAnnotation))
      case Prev(size) =>
        if size == c.status then Some((True, StillResizing)) else None
  }

  predicate InCooldown(p: Policy, rec: Rec, now: int) {
    && p.strategy != Off
    && p.cooldown.Some?
    && rec.lastResize.Some?
    && now - rec.lastResize.value < p.cooldown.value
  }

  /** The decision once the entry carries fresh observations. */
  function Decide(recovery: bool, p: Policy, c: Claim, rec: Rec, now: int): Verdict {
    if ShouldRecover(c) then
      if !recovery then Hold(rec, None)
      else match Reduced(c.status, c.spec)
        case None => Hold(rec, None)
        case Some(t) => Reduce(rec, t)
    else
      var reason := ScalingReason(p, rec);
      match InProgress(c)
      case Some((status, remark)) => Hold(rec, Some(Note(status, remark, reason)))
      case None =>
        if reason.None? then Hold(rec, None)
        else match RecommendSize(c.spec, p)
          case NotLarger => Hold(rec, None)
          case MaxReached =>
            Hold(rec, if p.strategy == Off then None else Some(Note(False, MaxCapacityReached, None)))
          case Target(t) =>
            if p.strategy == Off then Hold(rec.(target := Some(t)), None)
            else if InCooldown(p, rec, now) then Hold(rec, Some(Note(False, CoolingDown, None)))
            else Grow(rec, t, reason.value)
  }

  function Judge(recovery: bool, p: Policy, c: Claim, entry: Rec, info: Option<VolumeInfo>, now: int): Judgement {
    match Objection(p, c)
    case Some(cause) => Rejected(cause)
    case None =>
      match Update(entry, c, info)
      case Unusable(cause) => Rejected(cause)
      case Fresh(rec) => Accepted(Decide(recovery, p, c, rec, now))
  }

  // ----- what the patches write -----

  function Grown(c: Claim, from: nat, target: nat): Claim { c.(prev := Prev(from), spec := target) }

  function Shrunk(c: Claim, target: nat): Claim { c.(spec := target) }

  /** The entry after a successful scale-up patch. */
  function GrownRec(rec: Rec, target: nat, stamp: int): Rec {
    rec.(target := Some(target), lastResize := Some(stamp))
  }

  function ShrunkRec(rec: Rec, target: nat): Rec { rec.(target := Some(target)) }

  // ----- facts about a single decision -----

  /** Judging never touches the name or the time of the last resize. */
  lemma JudgeKeepsMemory(recovery: bool, p: Policy, c: Claim, entry: Rec, info: Option<VolumeInfo>, now: int)
    ensures
      var j := Judge(recovery, p, c, entry, info, now);
      j.Accepted? ==> j.verdict.rec.name == entry.name && j.verdict.rec.lastResize == entry.lastResize
  {
  }

  /** A bound file system claim of a class that allows expansion, with a size within the maximum. */
  predicate Eligible(p: Policy, c: Claim) {
    0 < c.status <= p.maxCapacity && c.storageClass == Class(true) && c.filesystem && c.bound
  }

  /** There is a report with figures, and its capacity is the claim's within the tolerance. */
  predicate Usable(c: Claim, info: Option<VolumeInfo>) {
    info.Some? && info.value.capBytes != 0 && info.value.capInodes != 0 && InTolerance(c.status, info.value.capBytes)
  }

  /** The objection to a claim is the first of the requirements it does not meet. */
  lemma ObjectionExactly(p: Policy, c: Claim)
    ensures Objection(p, c).None? <==> Eligible(p, c)
    ensures Objection(p, c) == Some(ZeroSize) <==> c.status == 0
    ensures Objection(p, c) == Some(AboveMax) <==> c.status > 0 && c.status > p.maxCapacity
    ensures Objection(p, c) == Some(NoStorageClass) <==> 0 < c.status <= p.maxCapacity && c.storageClass == Unnamed
    ensures Objection(p, c) == Some(StorageClassLookup) <==>
              0 < c.status <= p.maxCapacity && c.storageClass == LookupFails
    ensures Objection(p, c) == Some(NoExpansion) <==> 0 < c.status <= p.maxCapacity && c.storageClass == Class(false)
    ensures Objection(p, c) == Some(NotFilesystem) <==>
              0 < c.status <= p.maxCapacity && c.storageClass == Class(true) && !c.filesystem
    ensures Objection(p, c) == Some(NotBound) <==>
              0 < c.status <= p.maxCapacity && c.storageClass == Class(true) && c.filesystem && !c.bound
  {
  }

  /** A claim is judged exactly when it is eligible and its report is usable. The entry then holds
      the figures of the report and the current size, and keeps its name, its last resize and,
      unless strategy Off publishes a new one, its target; a first target is the request. */
  lemma RecordedExactly(recovery: bool, p: Policy, c: Claim, entry: Rec, info: Option<VolumeInfo>, now: int)
    ensures
      var j := Judge(recovery, p, c, entry, info, now);
      && (j.Accepted? <==> Eligible(p, c) && Usable(c, info))
      && (j.Accepted? ==>
            && var rec := j.verdict.rec;
            && rec.name == entry.name && rec.lastResize == entry.lastResize
            && rec.current == Some(c.status)
            && rec.usedSpace == UsedPercent(info.value.availBytes, info.value.capBytes)
            && rec.usedInodes == UsedPercent(info.value.availInodes, info.value.capInodes)
            && (p.strategy != Off ==> rec.target == if entry.target.Some? then entry.target else Some(c.spec)))
  {
    ObjectionExactly(p, c);
    if info.Some? { StaleIff(c.status, info.value.capBytes); }
  }

  predicate SpaceDue(p: Policy, i: VolumeInfo) { GetOr(UsedPercent(i.availBytes, i.capBytes), 0) > p.threshold }

  predicate InodesDue(p: Policy, i: VolumeInfo) { GetOr(UsedPercent(i.availInodes, i.capInodes), 0) > p.threshold }

  /** A true condition of the claim shows a resize or modification under way. */
  predicate ShowsResize(c: Claim) {
    IsTrue(c, Resizing) || IsTrue(c, FileSystemResizePending) || IsTrue(c, ModifyingVolume)
  }

  /** A resize is under way, or the annotation does not tell. */
  predicate Busy(c: Claim) { ShowsResize(c) || c.prev == BadAnnotation || c.prev == Prev(c.status) }

  /** Less than the cooldown has passed since the last scale-up. */
  predicate StillCooling(p: Policy, entry: Rec, now: int) {
    p.cooldown.Some? && entry.lastResize.Some? && now < entry.lastResize.value + p.cooldown.value
  }

  /** The claim is judged, and utilization asks for more storage that a resize could give. */
  predicate WantsMore(p: Policy, c: Claim, info: Option<VolumeInfo>) {
    && Eligible(p, c) && Usable(c, info) && !ShouldRecover(c) && !Busy(c)
    && (SpaceDue(p, info.value) || InodesDue(p, info.value))
  }

  /** A failed expansion calls for a smaller request. */
  predicate CallsForLess(recovery: bool, p: Policy, c: Claim, info: Option<VolumeInfo>) {
    && Eligible(p, c) && Usable(c, info)
    && recovery && ShouldRecover(c) && c.spec > LeastRequest(c.status)
  }

  /** Utilization calls for a larger request, and nothing stands in the way. */
  predicate CallsForMore(p: Policy, c: Claim, entry: Rec, info: Option<VolumeInfo>, now: int) {
    WantsMore(p, c, info) && p.strategy != Off && p.maxCapacity - c.spec >= GI && !StillCooling(p, entry, now)
  }

  /** For every strategy, a claim is reduced exactly when it is eligible with a usable report, its
      expansion failed, recovery is supported and the request is above the least one; the new
      request is then the half step. */
  lemma ReduceIff(recovery: bool, p: Policy, c: Claim, entry: Rec, info: Option<VolumeInfo>, now: int)
    ensures
      var j := Judge(recovery, p, c, entry, info, now);
      && (j.Accepted? && j.verdict.Reduce? <==> CallsForLess(recovery, p, c, info))
      && (j.Accepted? && j.verdict.Reduce? ==> Reduced(c.status, c.spec) == Some(j.verdict.target))
  {
    RecordedExactly(recovery, p, c, entry, info, now);
    if c.status > 0 { ReducedExactly(c.status, c.spec); }
  }

  /** A claim is grown exactly when it wants more, the strategy resizes, there is 1Gi of headroom
      and the cooldown has passed; the new request is then the policy's step. */
  lemma GrowIff(recovery: bool, p: Policy, c: Claim, entry: Rec, info: Option<VolumeInfo>, now: int)
    requires ValidPolicy(p)
    ensures
      var j := Judge(recovery, p, c, entry, info, now);
      && (j.Accepted? && j.verdict.Grow? <==> CallsForMore(p, c, entry, info, now))
      && (j.Accepted? && j.verdict.Grow? ==>
            && IsScaleUp(j.verdict.target, c.spec, p)
            && (j.verdict.reason == SpaceThreshold <==> SpaceDue(p, info.value)))
  {
    RecordedExactly(recovery, p, c, entry, info, now);
    ScaleUpExactly(c.spec, p);
  }

  /** The target published under strategy Off is the size a resize would have asked for, exactly
      when the claim wants more and has headroom; otherwise it stays. */
  lemma OffTargetExactly(recovery: bool, p: Policy, c: Claim, entry: Rec, info: Option<VolumeInfo>, now: int)
    requires ValidPolicy(p) && p.strategy == Off
    ensures
      var j := Judge(recovery, p, c, entry, info, now);
      j.Accepted? ==>
        && var target := j.verdict.rec.target;
        if WantsMore(p, c, info) && p.maxCapacity - c.spec >= GI then
          target.Some? && IsScaleUp(target.value, c.spec, p)
        else
          target == if entry.target.Some? then entry.target else Some(c.spec)
  {
    RecordedExactly(recovery, p, c, entry, info, now);
    ScaleUpExactly(c.spec, p);
  }

  /** What is said about a claim that is left alone. */
  lemma NoteExactly(recovery: bool, p: Policy, c: Claim, entry: Rec, info: Option<VolumeInfo>, now: int)
    requires ValidPolicy(p)
    requires Judge(recovery, p, c, entry, info, now).Accepted? && Judge(recovery, p, c, entry, info, now).verdict.Hold?
    ensures
      var note := Judge(recovery, p, c, entry, info, now).verdict.note;
      var full := p.maxCapacity - c.spec < GI;
      && (note.Some? <==>
            || (!ShouldRecover(c) && Busy(c))
            || (WantsMore(p, c, info) && p.strategy != Off && (full || StillCooling(p, entry, now))))
      && (note.Some? ==>
            && (note.value.status == True <==> Busy(c) && (ShowsResize(c) || c.prev != BadAnnotation))
            && (note.value.status == Unknown <==> !ShowsResize(c) && c.prev == BadAnnotation)
            && (note.value.status == False <==> !Busy(c))
            && (note.value.remark == CoolingDown <==> !Busy(c) && !full)
            && (note.value.remark == MaxCapacityReached <==> !Busy(c) && full)
            && (note.value.remark == ResizeStarted <==> IsTrue(c, Resizing))
            && (note.value.remark == FileSystemPending <==> !IsTrue(c, Resizing) && IsTrue(c, FileSystemResizePending))
            && (note.value.remark == UnreadableAnnotation <==> note.value.status == Unknown)
            && (note.value.remark == StillResizing <==> !ShowsResize(c) && c.prev == Prev(c.status))
            && (note.value.due == Some(SpaceThreshold) <==> Busy(c) && SpaceDue(p, info.value))
            && (note.value.due == Some(InodesThreshold) <==>
                  Busy(c) && !SpaceDue(p, info.value) && InodesDue(p, info.value)))
  {
    RecordedExactly(recovery, p, c, entry, info, now);
    ScaleUpExactly(c.spec, p);
  }

  /** A scale-up is decided only on an eligible claim with no resize in flight, on a report within
      the tolerance, out of cooldown and with the strategy on; its target is sound. */
  lemma GrowImplies(recovery: bool, p: Policy, c: Claim, entry: Rec, info: Option<VolumeInfo>, now: int)
    requires ValidPolicy(p)
    requires Judge(recovery, p, c, entry, info, now).Accepted?
    requires Judge(recovery, p, c, entry, info, now).verdict.Grow?
    ensures
      var v := Judge(recovery, p, c, entry, info, now).verdict;
      && p.strategy != Off
      && 0 < c.status <= p.maxCapacity && c.storageClass == Class(true) && c.filesystem && c.bound
      && !IsTrue(c, Resizing) && !IsTrue(c, FileSystemResizePending) && !IsTrue(c, ModifyingVolume)
      && c.prev != Prev(c.status) && c.prev != BadAnnotation
      && info.Some? && !Stale(c.status, info.value.capBytes)
      && !ShouldRecover(c) && !InCooldown(p, entry, now)
      && c.spec + GI <= v.target <= p.maxCapacity && IsScaleUp(v.target, c.spec, p)
      && (Stale(v.target, c.spec) || v.target == p.maxCapacity)
  {
    ScaleUpSound(c.spec, p);
    ScaleUpExactly(c.spec, p);
    GrowthEscapesTolerance(c.spec, p);
  }

  /** The reason given for a scale-up is the true one: space if the used share of the bytes
      exceeds the threshold, otherwise inodes, and one of them does. */
  lemma GrowReasonExact(recovery: bool, p: Policy, c: Claim, entry: Rec, i: VolumeInfo, now: int)
    requires i.availBytes >= 0 && i.capBytes > 0 && i.availInodes >= 0 && i.capInodes > 0
    requires Judge(recovery, p, c, entry, Some(i), now).Accepted?
    requires Judge(recovery, p, c, entry, Some(i), now).verdict.Grow?
    ensures
      var v := Judge(recovery, p, c, entry, Some(i), now).verdict;
      && (v.reason == SpaceThreshold <==> 100 * (i.capBytes - i.availBytes) > p.threshold * i.capBytes)
      && (v.reason == InodesThreshold ==> 100 * (i.capInodes - i.availInodes) > p.threshold * i.capInodes)
  {
    ThresholdExact(i.availBytes, i.capBytes, p.threshold);
    ThresholdExact(i.availInodes, i.capInodes, p.threshold);
  }

  /** A reduction stays at or above the least request for the capacity it was computed from. */
  lemma ReduceImplies(recovery: bool, p: Policy, c: Claim, entry: Rec, info: Option<VolumeInfo>, now: int)
    requires Judge(recovery, p, c, entry, info, now).Accepted?
    requires Judge(recovery, p, c, entry, info, now).verdict.Reduce?
    ensures
      var v := Judge(recovery, p, c, entry, info, now).verdict;
      && recovery && ShouldRecover(c) && 0 < c.status
      && Reduced(c.status, c.spec) == Some(v.target)
      && c.status + GI <= v.target < c.spec && v.target % GI == 0
  {
  }

  /** "Off turns off resizing" is not the whole story: with strategy Off a claim never grows,
      but it is reduced exactly when it is eligible and its report is usable, its expansion
      failed, recovery is supported and the request is above the least one. */
  lemma OffWritesIff(recovery: bool, p: Policy, c: Claim, entry: Rec, info: Option<VolumeInfo>, now: int)
    requires p.strategy == Off
    ensures
      var j := Judge(recovery, p, c, entry, info, now);
      && !(j.Accepted? && j.verdict.Grow?)
      && (j.Accepted? && j.verdict.Reduce? <==> CallsForLess(recovery, p, c, info))
  {
    ReduceIff(recovery, p, c, entry, info, now);
  }

  /** A claim of 1Gi whose request of 5Gi was rejected: strategy Off, and still patched to 3Gi. */
  lemma OffStillPatches()
    ensures
      var p := Policy(10 * GI, 80, 10, GI, None, Off);
      var c := Claim(5 * GI, GI, Prev(GI), [], true, Class(true), true, true);
      var info := VolumeInfo(GI, GI, 1, 1);
      var j := Judge(true, p, c, FreshRec("data"), Some(info), 0);
      && ValidPolicy(p)
      && j.Accepted? && j.verdict.Reduce? && j.verdict.target == 3 * GI
  {
  }
}
