/**
 The NFS export references of one volume: agent/storage/export.go, the helpers of
 agent/storage/model.go, and the label sets that integrations/kubernetes/controller/publish.go
 adds and removes.

 A volume's metadata lists references, several of which may share an IP; the kernel exports the
 volume to an IP while at least one reference has it.
 */
module VolumeExports {
  import opened Collections
  import opened LabelFilters
  import opened SortedStrings

  datatype Ref = Ref(ip: string, labels: Labels, createdAt: int)

  predicate LabelsContain(stored: Labels, match_: Labels)
  {
    forall k | k in match_ :: Lookup(stored, k) == match_[k]
  }

  predicate HasExport(refs: seq<Ref>, ip: string, labels: Labels)
  {
    exists r :: r in refs && r.ip == ip && r.labels == labels
  }

  function Ips(refs: seq<Ref>): set<string>
  {
    set r | r in refs :: r.ip
  }

  // ---------------------------------------------------------------- the loops of model.go

  method HasExportLoop(refs: seq<Ref>, ip: string, labels: Labels) returns (found: bool)
    ensures found <==> HasExport(refs, ip, labels)
  {
    for i := 0 to |refs|
      invariant !HasExport(refs[..i], ip, labels)
    {
      if refs[i].ip == ip && refs[i].labels == labels {
        return true;
      }
    }
    assert refs[..|refs|] == refs;
    return false;
  }

  method UniqueExportIps(refs: seq<Ref>) returns (ips: seq<string>)
    ensures Sorted(ips) && Distinct(ips)
    ensures forall ip :: ip in ips <==> ip in Ips(refs)
  {
    var seen: set<string> := {};
    for i := 0 to |refs|
      invariant seen == Ips(refs[..i])
    {
      assert refs[..i + 1] == refs[..i] + [refs[i]];
      seen := seen + {refs[i].ip};
    }
    assert refs[..|refs|] == refs;
    ips := SortedList(seen);
  }

  method ExportsForIp(refs: seq<Ref>, ip: string) returns (n: nat)
    ensures n == |Filter(refs, (r: Ref) => r.ip == ip)|
    ensures n > 0 <==> ip in Ips(refs)
  {
    var keep := (r: Ref) => r.ip == ip;
    n := 0;
    for i := 0 to |refs|
      invariant n == |Filter(refs[..i], keep)|
    {
      assert refs[..i + 1] == refs[..i] + [refs[i]];
      FilterSnoc(refs[..i], refs[i], keep);
      if refs[i].ip == ip {
        n := n + 1;
      }
    }
    assert refs[..|refs|] == refs;
    CountIsPresence(refs, ip);
  }

  lemma CountIsPresence(refs: seq<Ref>, ip: string)
    ensures |Filter(refs, (r: Ref) => r.ip == ip)| > 0 <==> ip in Ips(refs)
  {
    var kept := Filter(refs, (r: Ref) => r.ip == ip);
    FilterMembers(refs, (r: Ref) => r.ip == ip);
    if |kept| > 0 {
      assert kept[0] in kept;
    }
    if ip in Ips(refs) {
      var r :| r in refs && r.ip == ip;
      assert r in kept;
    }
  }

  // ---------------------------------------------------------------- one volume on values

  datatype ExporterCall = Export(ip: string) | Unexport(ip: string)

  // A volume as its metadata and the kernel have it.
  datatype Volume = Absent | Present(refs: seq<Ref>)

  datatype State = State(volume: Volume, kernel: set<string>)

  // The reference list after CreateVolumeExport.
  function WithRef(refs: seq<Ref>, r: Ref): seq<Ref>
  {
    if HasExport(refs, r.ip, r.labels) then refs else refs + [r]
  }

  // What DeleteVolumeExport leaves: other IPs, and with labels given also the references they do not match.
  function Kept(ip: string, labels: Option<Labels>): Ref -> bool
  {
    (r: Ref) => r.ip != ip || (labels.Some? && !LabelsContain(r.labels, labels.value))
  }

  function WithoutRefs(refs: seq<Ref>, ip: string, labels: Option<Labels>): seq<Ref>
  {
    Filter(refs, Kept(ip, labels))
  }

  // The removal takes the last reference of the IP.
  predicate LosesLast(refs: seq<Ref>, ip: string, labels: Option<Labels>)
  {
    ip in Ips(refs) && ip !in Ips(WithoutRefs(refs, ip, labels))
  }

  function Apply(kernel: set<string>, calls: seq<ExporterCall>): set<string>
  {
    if calls == [] then kernel
    else
      var k := Apply(kernel, calls[..|calls| - 1]);
      match calls[|calls| - 1]
      case Export(ip) => k + {ip}
      case Unexport(ip) => k - {ip}
  }

  datatype Op =
    | CreateVolume
    | AddRef(ip: string, labels: Labels, now: int)
    | RemoveRefs(ip: string, match_: Option<Labels>)
    | DeleteVolume

  // The volume after one failure-free operation, and the exporter calls it makes.
  function Step(s: State, op: Op): (State, seq<ExporterCall>)
  {
    match (op, s.volume)
    case (CreateVolume, Absent) => (State(Present([]), s.kernel), [])
    case (AddRef(ip, labels, now), Present(refs)) =>
      var calls := if ip !in Ips(refs) then [Export(ip)] else [];
      (State(Present(WithRef(refs, Ref(ip, labels, now))), Apply(s.kernel, calls)), calls)
    case (RemoveRefs(ip, labels), Present(refs)) =>
      var calls := if LosesLast(refs, ip, labels) then [Unexport(ip)] else [];
      (State(Present(WithoutRefs(refs, ip, labels)), Apply(s.kernel, calls)), calls)
    case (DeleteVolume, Present(refs)) => (State(if refs == [] then Absent else s.volume, s.kernel), [])
    case _ => (s, [])
  }

  lemma ApplyOne(kernel: set<string>, ip: string)
    ensures Apply(kernel, []) == kernel && Apply(kernel, [Export(ip)]) == kernel + {ip}
        && Apply(kernel, [Unexport(ip)]) == kernel - {ip}
  {
    assert [Export(ip)][..0] == [] && [Unexport(ip)][..0] == [];
  }

  lemma AddStep(refs: seq<Ref>, kernel: set<string>, r: Ref)
    ensures Step(State(Present(refs), kernel), AddRef(r.ip, r.labels, r.createdAt))
      == (State(Present(WithRef(refs, r)), if r.ip !in Ips(refs) then kernel + {r.ip} else kernel),
          if r.ip !in Ips(refs) then [Export(r.ip)] else [])
  {
    ApplyOne(kernel, r.ip);
  }

  lemma RemoveStep(refs: seq<Ref>, kernel: set<string>, ip: string, labels: Option<Labels>)
    ensures var last := LosesLast(refs, ip, labels);
      Step(State(Present(refs), kernel), RemoveRefs(ip, labels))
      == (State(Present(WithoutRefs(refs, ip, labels)), if last then kernel - {ip} else kernel),
          if last then [Unexport(ip)] else [])
  {
    ApplyOne(kernel, ip);
  }

  /**
   A removal takes the references of the IP whose labels agree with every given one; without labels, all
   of the IP.
   */
  lemma RemovalMeans(refs: seq<Ref>, ip: string, labels: Option<Labels>, r: Ref)
    ensures r in WithoutRefs(refs, ip, labels)
      <==> && r in refs
           && (r.ip != ip || (labels.Some? && exists k :: k in labels.value && Lookup(r.labels, k) != labels.value[k]))
  {
    FilterMembers(refs, Kept(ip, labels));
  }

  /** So a removal without labels leaves nothing of the IP, and unexports it exactly if it was there. */
  lemma RemovalOfAddress(refs: seq<Ref>, kernel: set<string>, ip: string)
    ensures forall r :: r in WithoutRefs(refs, ip, None) <==> r in refs && r.ip != ip
    ensures Step(State(Present(refs), kernel), RemoveRefs(ip, None)).1
      == if exists r :: r in refs && r.ip == ip then [Unexport(ip)] else []
  {
    forall r
      ensures r in WithoutRefs(refs, ip, None) <==> r in refs && r.ip != ip
    {
      RemovalMeans(refs, ip, None, r);
    }
  }

  /**
   After an add some reference has this IP and these labels: one that was there, and then nothing changes, or the
   new one behind the others; the IP is exported exactly if no reference had it.
   */
  lemma AddMeans(refs: seq<Ref>, kernel: set<string>, ip: string, labels: Labels, now: int)
    ensures var (after, calls) := Step(State(Present(refs), kernel), AddRef(ip, labels, now));
      && after.volume.Present?
      && (exists r :: r in after.volume.refs && r.ip == ip && r.labels == labels)
      && after.volume.refs
         == (if exists r :: r in refs && r.ip == ip && r.labels == labels then refs
             else refs + [Ref(ip, labels, now)])
      && calls == if exists r :: r in refs && r.ip == ip then [] else [Export(ip)]
  {
    var after := WithRef(refs, Ref(ip, labels, now));
    assert !HasExport(refs, ip, labels) ==> after[|refs|] == Ref(ip, labels, now);
  }

  // ---------------------------------------------------------------- one volume in memory

  datatype Outcome = Ok | NotFound | Busy | WriteFailed | ExporterFailed

  /**
   The cached metadata of a volume.  Go's Update hands the callback a copy of the struct, but the
   copy's slice shares the cached slice's array: `exports` is that array, `len` the cached length.
   `ok` parameters say whether the metadata write and the exporter call succeed.
   */
  class CachedVolume {
    var present: bool
    var exports: array<Ref>
    var len: nat
    var kernel: set<string>
    ghost var calls: seq<ExporterCall>

    ghost predicate Valid()
      reads this
    {
      len <= exports.Length
    }

    ghost function Refs(): seq<Ref>
      reads this, exports
      requires Valid()
    {
      exports[..len]
    }

    ghost function View(): State
      reads this, exports
      requires Valid()
    {
      State(if present then Present(Refs()) else Absent, kernel)
    }

    constructor ()
      ensures Valid() && View() == State(Present([]), {}) && calls == [] && fresh(exports)
    {
      present, exports, len, kernel, calls := true, new Ref[0], 0, {}, [];
    }

    method CallExporter(call: ExporterCall, ok: bool)
      modifies this`kernel, this`calls
      ensures calls == old(calls) + [call]
      ensures kernel == if ok then Apply(old(kernel), [call]) else old(kernel)
    {
      calls := calls + [call];
      if ok {
        match call
        case Export(ip) => kernel := kernel + {ip};
        case Unexport(ip) => kernel := kernel - {ip};
      }
      ApplyOne(old(kernel), call.ip);
    }

    // append writes into spare capacity, behind what the cache shows, or into a new array.
    method AppendRef(ref: Ref, written: bool)
      requires Valid()
      modifies this`exports, this`len, exports
      ensures Valid() && (exports == old(exports) || fresh(exports))
      ensures Refs() == if written then old(Refs()) + [ref] else old(Refs())
    {
      ghost var refs := exports[..len];
      if len < exports.Length {
        exports[len] := ref;
        assert exports[..len] == refs;
        if written {
          len := len + 1;
        }
      } else if written {
        var shown := exports[..len];
        var grown := new Ref[2 * len + 1](i => if 0 <= i < |shown| then shown[i] else ref);
        assert grown[..len + 1] == shown + [ref];
        exports, len := grown, len + 1;
      }
    }

    // The in-place filter of the removal; the cached length stays for now.
    method CompactRefs(ip: string, labels: Option<Labels>) returns (n: nat)
      requires Valid()
      modifies exports
      ensures n <= len && exports[..n] == WithoutRefs(old(Refs()), ip, labels)
      ensures Refs() == Overwritten(old(Refs()), WithoutRefs(old(Refs()), ip, labels))
    {
      ghost var before := exports[..len];
      n := FilterInPlace(exports, len, Kept(ip, labels));
      assert exports[..len] == Overwritten(before, exports[..n]);
    }

    method CreateVolumeExport(ip: string, labels: Labels, now: int, written: bool, exported: bool) returns (r: Outcome)
      requires Valid()
      modifies this, exports
      ensures Valid() && (exports == old(exports) || fresh(exports)) && present == old(present)
      ensures r == if !present then NotFound else if !written then WriteFailed
                   else if ip !in Ips(old(Refs())) && !exported then ExporterFailed else Ok
      ensures Refs() == if present && written then WithRef(old(Refs()), Ref(ip, labels, now)) else old(Refs())
      ensures calls == old(calls) + (if present && written && ip !in Ips(old(Refs())) then [Export(ip)] else [])
      ensures kernel
        == if present && written && ip !in Ips(old(Refs())) && exported then old(kernel) + {ip} else old(kernel)
      ensures r == Ok ==>
        && View() == Step(old(View()), AddRef(ip, labels, now)).0
        && calls == old(calls) + Step(old(View()), AddRef(ip, labels, now)).1
    {
      if !present {
        return NotFound;
      }
      var refs := exports[..len];
      AddStep(refs, kernel, Ref(ip, labels, now));
      var firstRef := false;
      var known := HasExportLoop(refs, ip, labels);
      if !known {
        var n := ExportsForIp(refs, ip);
        firstRef := n == 0;
        AppendRef(Ref(ip, labels, now), written);
      }
      if !written {
        return WriteFailed;
      }
      if firstRef {
        CallExporter(Export(ip), exported);
        if !exported {
          return ExporterFailed;
        }
      }
      return Ok;
    }

    method DeleteVolumeExport(ip: string, labels: Option<Labels>, written: bool, unexported: bool) returns (r: Outcome)
      requires Valid()
      modifies this, exports
      ensures Valid() && exports == old(exports) && present == old(present)
      ensures var after := WithoutRefs(old(Refs()), ip, labels);
        var last := LosesLast(old(Refs()), ip, labels);
        && r == (if !present then NotFound else if !written then WriteFailed
                 else if last && !unexported then ExporterFailed else Ok)
        && Refs() == (if !present then old(Refs()) else if written then after else Overwritten(old(Refs()), after))
        && calls == old(calls) + (if present && written && last then [Unexport(ip)] else [])
        && kernel == (if present && written && last && unexported then old(kernel) - {ip} else old(kernel))
      ensures r == Ok ==>
        && View() == Step(old(View()), RemoveRefs(ip, labels)).0
        && calls == old(calls) + Step(old(View()), RemoveRefs(ip, labels)).1
    {
      if !present {
        return NotFound;
      }
      RemovedMeansGone(Refs(), ip, labels);
      RemoveStep(Refs(), kernel, ip, labels);
      var n := CompactRefs(ip, labels);
      var removed := n < len;
      var left := ExportsForIp(exports[..n], ip);
      if !written {
        return WriteFailed;
      }
      len := n;
      if removed && left == 0 {
        CallExporter(Unexport(ip), unexported);
        if !unexported {
          return ExporterFailed;
        }
      }
      return Ok;
    }

    // DeleteVolume refuses while there are references.
    method DeleteVolume(dataDeleted: bool) returns (r: Outcome)
      requires Valid()
      modifies this`present
      ensures Valid()
      ensures r == if !old(present) then NotFound else if Refs() != [] then Busy
                   else if dataDeleted then Ok else WriteFailed
      ensures present == (old(present) && r != Ok)
      ensures r == Ok ==> View() == Step(old(View()), Op.DeleteVolume).0
    {
      if !present {
        return NotFound;
      }
      if len > 0 {
        return Busy;
      }
      if !dataDeleted {
        return WriteFailed;
      }
      present := false;
      return Ok;
    }
  }

  // What a slice of the old length shows after its array was filtered in place.
  function Overwritten(before: seq<Ref>, kept: seq<Ref>): seq<Ref>
    requires |kept| <= |before|
  {
    kept + before[|kept|..]
  }

  lemma {:induction false} RemovedMeansGone(refs: seq<Ref>, ip: string, labels: Option<Labels>)
    ensures var after := WithoutRefs(refs, ip, labels);
      LosesLast(refs, ip, labels) <==> |after| < |refs| && ip !in Ips(after)
  {
    var after := WithoutRefs(refs, ip, labels);
    FilterMembers(refs, Kept(ip, labels));
    if |after| < |refs| {
      var r := FilterDrops(refs, Kept(ip, labels));
      assert r.ip in Ips(refs);
    }
    if |after| == |refs| {
      FilterWhole(refs, Kept(ip, labels));
    }
  }

  lemma {:induction false} FilterWhole(refs: seq<Ref>, keep: Ref -> bool)
    requires |Filter(refs, keep)| == |refs|
    ensures Filter(refs, keep) == refs
  {
    if refs != [] {
      FilterWhole(refs[..|refs| - 1], keep);
      assert refs == refs[..|refs| - 1] + [refs[|refs| - 1]];
    }
  }

  lemma {:induction false} FilterDrops(refs: seq<Ref>, keep: Ref -> bool) returns (r: Ref)
    requires |Filter(refs, keep)| < |refs|
    ensures r in refs && !keep(r)
  {
    var last := refs[|refs| - 1];
    if keep(last) {
      r := FilterDrops(refs[..|refs| - 1], keep);
    } else {
      r := last;
    }
  }

  // ---------------------------------------------------------------- a failed write

  /**
   "A failed write leaves the cache unchanged" is false for the removal: the cached list becomes
   `Overwritten(before, kept)`.  It is unchanged exactly when no removed reference stands before
   a kept one.
   */
  lemma {:induction false} FailedRemovalKeepsCacheIff(before: seq<Ref>, ip: string, labels: Option<Labels>)
    ensures Overwritten(before, WithoutRefs(before, ip, labels)) == before
      <==> forall i, j | 0 <= i < j < |before| && !Kept(ip, labels)(before[i]) :: !Kept(ip, labels)(before[j])
  {
    var keep := Kept(ip, labels);
    var after := WithoutRefs(before, ip, labels);
    assert before == before[..|after|] + before[|after|..];
    if Overwritten(before, after) == before {
      assert after == Overwritten(before, after)[..|after|];
      PrefixFilterIsOrdered(before, keep);
    }
    if forall i, j | 0 <= i < j < |before| && !keep(before[i]) :: !keep(before[j]) {
      OrderedFilterIsPrefix(before, keep);
    }
  }

  lemma {:induction false} OrderedFilterIsPrefix(s: seq<Ref>, keep: Ref -> bool)
    requires forall i, j | 0 <= i < j < |s| && !keep(s[i]) :: !keep(s[j])
    ensures Filter(s, keep) == s[..|Filter(s, keep)|]
  {
    if s != [] {
      var init := s[..|s| - 1];
      OrderedFilterIsPrefix(init, keep);
      if keep(s[|s| - 1]) {
        FilterAll(init, keep);
        assert s == init + [s[|s| - 1]];
      }
    }
  }

  lemma PrefixFilterIsOrdered(s: seq<Ref>, keep: Ref -> bool)
    requires Filter(s, keep) == s[..|Filter(s, keep)|]
    ensures forall i, j | 0 <= i < j < |s| && !keep(s[i]) :: !keep(s[j])
  {
    KeptPrefix(s, keep);
    NothingKeptBehind(s, keep);
  }

  lemma KeptPrefix(s: seq<Ref>, keep: Ref -> bool)
    requires Filter(s, keep) == s[..|Filter(s, keep)|]
    ensures forall k | 0 <= k < |Filter(s, keep)| :: keep(s[k])
  {
    FilterMembers(s, keep);
    forall k | 0 <= k < |Filter(s, keep)|
      ensures keep(s[k])
    {
      assert s[k] == Filter(s, keep)[k];
    }
  }

  // As many kept in front as there are kept at all: none is kept behind them.
  lemma {:induction false} NothingKeptBehind(s: seq<Ref>, keep: Ref -> bool)
    requires forall k | 0 <= k < |Filter(s, keep)| :: keep(s[k])
    ensures forall j | |Filter(s, keep)| <= j < |s| :: !keep(s[j])
  {
    if s != [] {
      var init, n := s[..|s| - 1], |Filter(s, keep)|;
      assert forall k | 0 <= k < |init| :: init[k] == s[k];
      assert 0 < n < |s| ==> keep(init[n - 1]);
      NothingKeptBehind(init, keep);
    }
  }

  lemma {:induction false} FilterAll(s: seq<Ref>, keep: Ref -> bool)
    requires forall k | 0 <= k < |s| :: keep(s[k])
    ensures Filter(s, keep) == s
  {
    if s != [] {
      FilterAll(s[..|s| - 1], keep);
      assert s == s[..|s| - 1] + [s[|s| - 1]];
    }
  }

  // ---------------------------------------------------------------- reference counting over runs

  function Exec(s: State, ops: seq<Op>): State
  {
    if ops == [] then s else Step(Exec(s, ops[..|ops| - 1]), ops[|ops| - 1]).0
  }

  function Clients(v: Volume): set<string>
  {
    if v.Present? then Ips(v.refs) else {}
  }

  ghost predicate NoDuplicates(refs: seq<Ref>)
  {
    forall i, j | 0 <= i < j < |refs| :: refs[i].ip != refs[j].ip || refs[i].labels != refs[j].labels
  }

  ghost predicate InStep(s: State)
  {
    s.kernel == Clients(s.volume) && (s.volume.Present? ==> NoDuplicates(s.volume.refs))
  }

  /**
   One operation keeps the kernel in step and calls the exporter exactly when an IP gets its first or
   loses its last reference.
   */
  lemma StepCountsReferences(s: State, op: Op)
    requires InStep(s)
    ensures var (t, calls) := Step(s, op);
      && InStep(t)
      && |calls| <= 1
      && (forall ip :: Export(ip) in calls <==> ip !in Clients(s.volume) && ip in Clients(t.volume))
      && (forall ip :: Unexport(ip) in calls <==> ip in Clients(s.volume) && ip !in Clients(t.volume))
  {
    var (t, calls) := Step(s, op);
    match (op, s.volume)
    case (AddRef(ip, labels, now), Present(refs)) =>
      AddCountsReferences(refs, Ref(ip, labels, now));
      ApplyOne(s.kernel, ip);
    case (RemoveRefs(ip, labels), Present(refs)) => RemoveCountsReferences(refs, ip, labels); ApplyOne(s.kernel, ip);
    case _ =>
  }

  lemma AddCountsReferences(refs: seq<Ref>, r: Ref)
    requires NoDuplicates(refs)
    ensures Ips(WithRef(refs, r)) == Ips(refs) + {r.ip} && NoDuplicates(WithRef(refs, r))
  {
    var after := WithRef(refs, r);
    if HasExport(refs, r.ip, r.labels) {
      assert after == refs;
    } else {
      assert forall x :: x in after <==> x in refs || x == r;
    }
  }

  lemma RemoveCountsReferences(refs: seq<Ref>, ip: string, labels: Option<Labels>)
    requires NoDuplicates(refs)
    ensures var after := WithoutRefs(refs, ip, labels);
      && NoDuplicates(after)
      && Ips(after) <= Ips(refs) && Ips(refs) <= Ips(after) + {ip}
  {
    var after := WithoutRefs(refs, ip, labels);
    FilterMembers(refs, Kept(ip, labels));
    FilterKeepsDistinct(refs, Kept(ip, labels));
    forall x | x in Ips(refs) && x != ip
      ensures x in Ips(after)
    {
      var r :| r in refs && r.ip == x;
      assert r in after;
    }
  }

  lemma {:induction false} FilterKeepsDistinct(refs: seq<Ref>, keep: Ref -> bool)
    requires NoDuplicates(refs)
    ensures NoDuplicates(Filter(refs, keep))
  {
    if refs != [] {
      var init := refs[..|refs| - 1];
      FilterKeepsDistinct(init, keep);
      FilterMembers(init, keep);
      forall i | 0 <= i < |Filter(init, keep)|
        ensures Filter(init, keep)[i] in init
      {
        assert Filter(init, keep)[i] in Filter(init, keep);
      }
    }
  }

  /** After every serial failure-free run the kernel's clients are exactly the distinct IPs of the metadata. */
  lemma {:induction false} ReferencesCounted(ops: seq<Op>)
    ensures InStep(Exec(State(Absent, {}), ops))
  {
    if ops != [] {
      ReferencesCounted(ops[..|ops| - 1]);
      StepCountsReferences(Exec(State(Absent, {}), ops[..|ops| - 1]), ops[|ops| - 1]);
    }
  }

  // ---------------------------------------------------------------- publish and unpublish

  const NODE_NAME := "kubernetes.node.name"
  const PV_NAME := "kubernetes.pv.name"
  const PV_STORAGE_CLASS := "kubernetes.pv.storageclassname"
  const VOLUME_ATTACHMENT_NAME := "kubernetes.volumeattachment.name"
  const PVC_NAME := "kubernetes.pvc.name"
  const PVC_NAMESPACE := "kubernetes.pvc.namespace"
  const CREATED_BY := "created-by"

  // The labels ControllerPublishVolume sends; the client adds its identity when there is none.
  function PublishLabels(node: string, pv: string, class_: string, attachment: string, pvc: string,
      namespace_: string, identity: string): Labels
  {
    var base: Labels := map[NODE_NAME := node, PV_NAME := pv,
                            PV_STORAGE_CLASS := class_, VOLUME_ATTACHMENT_NAME := attachment];
    var named := if pvc != "" then base[PVC_NAME := pvc] else base;
    var spaced := if namespace_ != "" then named[PVC_NAMESPACE := namespace_] else named;
    spaced[CREATED_BY := identity]
  }

  // The labels ControllerUnpublishVolume sends.
  function UnpublishLabels(node: string, pv: string, class_: string): Labels
  {
    map[NODE_NAME := node, PV_NAME := pv, PV_STORAGE_CLASS := class_]
  }

  // A reference that publishing this volume to this node and address made, at any time and for any claim.
  predicate PublishedFor(r: Ref, node: string, pv: string, class_: string, ip: string)
  {
    && r.ip == ip && Lookup(r.labels, NODE_NAME) == node && Lookup(r.labels, PV_NAME) == pv
        && Lookup(r.labels, PV_STORAGE_CLASS) == class_
  }

  lemma LabelKeysDiffer()
    ensures |NODE_NAME| == 20 && |PV_NAME| == 18 && |PV_STORAGE_CLASS| == 30 && |VOLUME_ATTACHMENT_NAME| == 32
    ensures |PVC_NAME| == 19 && |PVC_NAMESPACE| == 24 && |CREATED_BY| == 10
  {
  }

  /** Whatever claim it names, a publish makes a reference that the unpublish of its node matches. */
  lemma PublishIsRecognised(node: string, pv: string, class_: string, attachment: string, pvc: string,
      namespace_: string, identity: string, ip: string, now: int)
    ensures PublishedFor(Ref(ip, PublishLabels(node, pv, class_, attachment, pvc, namespace_, identity), now), node,
        pv, class_, ip)
  {
    LabelKeysDiffer();
  }

  lemma UnpublishMatches(r: Ref, node: string, pv: string, class_: string, ip: string)
    ensures !Kept(ip, Some(UnpublishLabels(node, pv, class_)))(r) <==> PublishedFor(r, node, pv, class_, ip)
  {
    LabelKeysDiffer();
    var m := UnpublishLabels(node, pv, class_);
    assert NODE_NAME in m && PV_NAME in m && PV_STORAGE_CLASS in m;
  }

  /**
   Publish then unpublish: no reference of the node is left, references that are not the node's
   are untouched and in order, also when they share the IP, and the IP stays exported exactly
   when one of those has it.
   */
  lemma PublishThenUnpublish(s: State, node: string, pv: string, class_: string, attachment: string, pvc: string,
      namespace_: string, identity: string, ip: string, now: int)
    requires InStep(s) && s.volume.Present?
    ensures
      var labels := PublishLabels(node, pv, class_, attachment, pvc, namespace_, identity);
      var t := Step(Step(s, AddRef(ip, labels, now)).0, RemoveRefs(ip, Some(UnpublishLabels(node, pv, class_)))).0;
      && t.volume.Present?
      && t.volume.refs == Filter(s.volume.refs, (r: Ref) => !PublishedFor(r, node, pv, class_, ip))
      && (forall r :: r in t.volume.refs <==> r in s.volume.refs && !PublishedFor(r, node, pv, class_, ip))
      && (ip in t.kernel <==> exists r :: r in s.volume.refs && r.ip == ip && !PublishedFor(r, node, pv, class_, ip))
  {
    var labels := PublishLabels(node, pv, class_, attachment, pvc, namespace_, identity);
    var unlabels := Some(UnpublishLabels(node, pv, class_));
    var others := (r: Ref) => !PublishedFor(r, node, pv, class_, ip);
    var r0 := Ref(ip, labels, now);
    var refs := s.volume.refs;
    StepCountsReferences(s, AddRef(ip, labels, now));
    StepCountsReferences(Step(s, AddRef(ip, labels, now)).0, RemoveRefs(ip, unlabels));
    PublishIsRecognised(node, pv, class_, attachment, pvc, namespace_, identity, ip, now);
    forall r | r in WithRef(refs, r0)
      ensures Kept(ip, unlabels)(r) == others(r)
    {
      UnpublishMatches(r, node, pv, class_, ip);
    }
    FilterSame(WithRef(refs, r0), Kept(ip, unlabels), others);
    FilterSnoc(refs, r0, others);
    FilterMembers(refs, others);
  }
}