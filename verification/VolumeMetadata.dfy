/**
 How a volume's metadata changes after creation: UpdateVolume (agent/storage/volume.go) with the
 label protection of agent/storage/utils.go, and the usage pass of agent/storage/usage.go.
 */
module VolumeMetadata {
  import opened Collections
  import opened LabelFilters
  import opened VolumeExports

  datatype Meta = Meta(
    size: nat,
    quota: nat,
    noCow: bool,
    compression: string,
    uid: int,
    gid: int,
    mode: string,
    labels: Labels,
    used: nat,
    refs: seq<Ref>)

  datatype UpdateRequest = UpdateRequest(
    size: Option<nat>,
    noCow: Option<bool>,
    compression: Option<string>,
    uid: Option<int>,
    gid: Option<int>,
    mode: Option<string>,
    labels: Option<Labels>)

  // ---------------------------------------------------------------- protected labels

  const CLONE_SOURCE_TYPE := "clone.source.type"
  const CLONE_SOURCE_NAME := "clone.source.name"

  // The configured immutable keys and the soft-reserved ones.
  function ProtectedKeys(keys: seq<string>): set<string>
  {
    (set k | k in keys) + {CREATED_BY, CLONE_SOURCE_TYPE, CLONE_SOURCE_NAME}
  }

  // The request would change a protected label; setting created-by for the first time is allowed.
  predicate Forbidden(k: string, cur: Labels, updated: Labels)
  {
    k in updated && updated[k] != Lookup(cur, k) && !(k == CREATED_BY && Lookup(cur, k) == "")
  }

  // The labels of `cur` under some keys, as far as they have a value.
  function Valued(cur: Labels, keys: set<string>): Labels
  {
    map k | k in keys && Lookup(cur, k) != "" :: Lookup(cur, k)
  }

  lemma ValuedStep(cur: Labels, updated: Labels, keys: set<string>, k: string)
    ensures updated + Valued(cur, keys + {k})
      == if Lookup(cur, k) != "" then (updated + Valued(cur, keys))[k := Lookup(cur, k)]
         else updated + Valued(cur, keys)
  {
  }

  // The labels after protectImmutableLabels, or None when it rejects the request.
  function ProtectLabels(keys: seq<string>, cur: Labels, updated: Labels): Option<Labels>
  {
    if exists k :: k in ProtectedKeys(keys) && Forbidden(k, cur, updated) then None
    else Some(updated + Valued(cur, ProtectedKeys(keys)))
  }

  /** protectImmutableLabels: the keys are walked in any order and `updated` is completed on the way. */
  method ProtectImmutableLabels(keys: seq<string>, cur: Labels, updated: Labels) returns (r: Option<Labels>)
    ensures r == ProtectLabels(keys, cur, updated)
  {
    var all := ProtectedKeys(keys);
    var todo := all;
    var labels := updated;
    while todo != {}
      invariant todo <= all
      invariant forall k | k in all - todo :: !Forbidden(k, cur, updated)
      invariant labels == updated + Valued(cur, all - todo)
      decreases todo
    {
      var k :| k in todo;
      assert all - (todo - {k}) == (all - todo) + {k};
      ValuedStep(cur, updated, all - todo, k);
      assert k in labels <==> k in updated;
      if k in labels && labels[k] != Lookup(cur, k) {
        if k == CREATED_BY && Lookup(cur, k) == "" {
          todo := todo - {k};
          continue;
        }
        assert Forbidden(k, cur, updated);
        return None;
      }
      if Lookup(cur, k) != "" {
        labels := labels[k := Lookup(cur, k)];
      }
      todo := todo - {k};
    }
    assert all - {} == all;
    return Some(labels);
  }

  // ---------------------------------------------------------------- UpdateVolume

  // What the request may not be, apart from what depends on the volume: malformed labels, compression, owner or mode.
  datatype Settings = Settings(immutableKeys: seq<string>, quotaEnabled: bool, wellformed: UpdateRequest -> bool)

  // Which of the operations on disk fail.
  datatype Faults = Faults(limit: bool, noCow: bool, compression: bool, owner: bool, mode: bool, write: bool)

  datatype Outcome = Updated | Invalid | Failed

  predicate Compresses(c: string)
  {
    c != "" && c != "none"
  }

  // The request as it reaches the metadata, or None when it is rejected.
  function Admitted(cfg: Settings, cur: Meta, req: UpdateRequest): Option<UpdateRequest>
  {
    if !cfg.wellformed(req) then None
    else if req.labels.Some? && ProtectLabels(cfg.immutableKeys, cur.labels, req.labels.value).None? then None
    else if req.size.Some? && req.size.value < cur.size then None
    else if req.compression.Some? && cur.noCow && Compresses(req.compression.value) then None
    else
      Some(req.(labels :=
                  if req.labels.Some? then ProtectLabels(cfg.immutableKeys, cur.labels, req.labels.value) else None,
                noCow := if req.noCow == Some(false) && cur.noCow then None else req.noCow))
  }

  // Limit, no-copy-on-write or compression cannot be set.
  predicate SpaceFails(cfg: Settings, cur: Meta, req: UpdateRequest, f: Faults)
  {
    || (req.size.Some? && cfg.quotaEnabled && f.limit)
    || (req.noCow == Some(true) && !cur.noCow && f.noCow)
    || (req.compression.Some? && Compresses(req.compression.value) && f.compression)
  }

  // Owner or mode cannot be set.
  predicate AccessFails(req: UpdateRequest, f: Faults)
  {
    ((req.uid.Some? || req.gid.Some?) && f.owner) || (req.mode.Some? && f.mode)
  }

  predicate DiskFails(cfg: Settings, cur: Meta, req: UpdateRequest, f: Faults)
  {
    SpaceFails(cfg, cur, req, f) || AccessFails(req, f) || f.write
  }

  // The attributes of the data subvolume that an update sets.
  datatype Disk = Disk(limit: nat, noCow: bool, compression: string, uid: int, gid: int, mode: string)

  // The operations on disk in their order, up to the first that fails.
  function DiskAfter(cfg: Settings, cur: Meta, req: UpdateRequest, f: Faults, d: Disk): Disk
  {
    var d1 := SpaceAfter(cfg, cur, req, f, d);
    if SpaceFails(cfg, cur, req, f) then d1 else AccessAfter(cur, req, f, d1)
  }

  function SpaceAfter(cfg: Settings, cur: Meta, req: UpdateRequest, f: Faults, d: Disk): Disk
  {
    var limits := req.size.Some? && cfg.quotaEnabled;
    var setsNoCow := req.noCow == Some(true) && !cur.noCow;
    if limits && f.limit then d
    else
      var d1 := if limits then d.(limit := req.size.value) else d;
      if setsNoCow && f.noCow then d1
      else
        var d2 := if setsNoCow then d1.(noCow := true) else d1;
        if req.compression.Some? && Compresses(req.compression.value) && !f.compression then
          d2.(compression := req.compression.value)
        else d2
  }

  function AccessAfter(cur: Meta, req: UpdateRequest, f: Faults, d: Disk): Disk
  {
    var owns := req.uid.Some? || req.gid.Some?;
    if owns && f.owner then d
    else
      var d1 := if owns then d.(uid := Or(req.uid, cur.uid), gid := Or(req.gid, cur.gid)) else d;
      if req.mode.Some? && !f.mode then d1.(mode := req.mode.value) else d1
  }

  function Written(cur: Meta, req: UpdateRequest): Meta
  {
    cur.(size := Or(req.size, cur.size), quota := Or(req.size, cur.quota), noCow := Or(req.noCow, cur.noCow),
         compression := Or(req.compression, cur.compression), uid := Or(req.uid, cur.uid), gid := Or(req.gid, cur.gid),
         mode := Or(req.mode, cur.mode), labels := Or(req.labels, cur.labels))
  }

  function Or<T>(x: Option<T>, otherwise: T): T
  {
    if x.Some? then x.value else otherwise
  }

  function AfterUpdate(cfg: Settings, cur: Meta, req: UpdateRequest, f: Faults): Meta
  {
    var r := Admitted(cfg, cur, req);
    if r.None? || DiskFails(cfg, cur, req, f) then cur else Written(cur, r.value)
  }

  class CachedMeta {
    var meta: Meta
    var disk: Disk
    const cfg: Settings

    constructor (meta: Meta, disk: Disk, cfg: Settings)
      ensures this.meta == meta && this.disk == disk && this.cfg == cfg
    {
      this.meta, this.disk, this.cfg := meta, disk, cfg;
    }

    // The checks that come before anything is touched; the request comes back with its labels completed.
    method Validate(cur: Meta, req: UpdateRequest) returns (r: Option<UpdateRequest>)
      ensures r.None? <==> Admitted(cfg, cur, req).None?
      ensures r.Some? ==> r.value == req.(labels := Admitted(cfg, cur, req).value.labels)
    {
      if !cfg.wellformed(req) {
        return None;
      }
      var labels := req.labels;
      if labels.Some? {
        labels := ProtectImmutableLabels(cfg.immutableKeys, cur.labels, labels.value);
        if labels.None? {
          return None;
        }
      }
      if req.size.Some? && req.size.value < cur.size {
        return None;
      }
      if req.compression.Some? && cur.noCow && Compresses(req.compression.value) {
        return None;
      }
      return Some(req.(labels := labels));
    }

    // The operations on disk; the request comes back without a no-copy-on-write it cannot revert.
    method ChangeDisk(cur: Meta, req: UpdateRequest, f: Faults) returns (r: Option<UpdateRequest>)
      modifies this`disk
      ensures disk == DiskAfter(cfg, cur, req, f, old(disk))
      ensures r.None? <==> SpaceFails(cfg, cur, req, f) || AccessFails(req, f)
      ensures r.Some? ==> r.value == req.(noCow := if req.noCow == Some(false) && cur.noCow then None else req.noCow)
    {
      var noCow := req.noCow;
      if noCow == Some(false) && cur.noCow {
        noCow := None;
      }
      var ok := ChangeSpace(cur, req, f);
      if !ok {
        return None;
      }
      ok := ChangeAccess(cur, req, f);
      return if ok then Some(req.(noCow := noCow)) else None;
    }

    // Limit, no-copy-on-write and compression.
    method ChangeSpace(cur: Meta, req: UpdateRequest, f: Faults) returns (ok: bool)
      modifies this`disk
      ensures disk == SpaceAfter(cfg, cur, req, f, old(disk))
      ensures ok <==> !SpaceFails(cfg, cur, req, f)
    {
      if req.size.Some? && cfg.quotaEnabled {
        if f.limit {
          return false;
        }
        disk := disk.(limit := req.size.value);
      }
      if req.noCow == Some(true) && !cur.noCow {
        if f.noCow {
          return false;
        }
        disk := disk.(noCow := true);
      }
      if req.compression.Some? && Compresses(req.compression.value) {
        if f.compression {
          return false;
        }
        disk := disk.(compression := req.compression.value);
      }
      return true;
    }

    // Owner and mode.
    method ChangeAccess(cur: Meta, req: UpdateRequest, f: Faults) returns (ok: bool)
      modifies this`disk
      ensures disk == AccessAfter(cur, req, f, old(disk))
      ensures ok <==> !AccessFails(req, f)
    {
      if req.uid.Some? || req.gid.Some? {
        if f.owner {
          return false;
        }
        disk := disk.(uid := Or(req.uid, cur.uid), gid := Or(req.gid, cur.gid));
      }
      if req.mode.Some? {
        if f.mode {
          return false;
        }
        disk := disk.(mode := req.mode.value);
      }
      return true;
    }

    // The callback that UpdateVolume hands to the store.
    method Rewrite(m: Meta, req: UpdateRequest) returns (r: Meta)
      ensures r == Written(m, req)
    {
      r := m;
      if req.size.Some? {
        r := r.(size := req.size.value, quota := req.size.value);
      }
      if req.noCow.Some? {
        r := r.(noCow := req.noCow.value);
      }
      if req.compression.Some? {
        r := r.(compression := req.compression.value);
      }
      if req.uid.Some? {
        r := r.(uid := req.uid.value);
      }
      if req.gid.Some? {
        r := r.(gid := req.gid.value);
      }
      if req.mode.Some? {
        r := r.(mode := req.mode.value);
      }
      if req.labels.Some? {
        r := r.(labels := req.labels.value);
      }
    }

    // Not overlapping with other calls on the volume.
    method UpdateVolume(req: UpdateRequest, f: Faults) returns (r: Outcome)
      modifies this
      ensures meta == AfterUpdate(cfg, old(meta), req, f)
      ensures disk == if r.Invalid? then old(disk) else DiskAfter(cfg, old(meta), req, f, old(disk))
      ensures r == if Admitted(cfg, old(meta), req).None? then Invalid
                   else if DiskFails(cfg, old(meta), req, f) then Failed else Updated
    {
      var valid := Validate(meta, req);
      if valid.None? {
        return Invalid;
      }
      var admitted := ChangeDisk(meta, valid.value, f);
      if admitted.None? {
        return Failed;
      }
      var updated := Rewrite(meta, admitted.value);
      if f.write {
        return Failed;
      }
      meta := updated;
      return Updated;
    }
  }

  // ---------------------------------------------------------------- what an update does

  predicate Protected(cfg: Settings, k: string)
  {
    k in cfg.immutableKeys || k == "created-by" || k == "clone.source.type" || k == "clone.source.name"
  }

  // The request asks for another value of a protected label, and is not the first to say who created the volume.
  predicate Relabels(cfg: Settings, cur: Meta, updated: Labels, k: string)
  {
    && Protected(cfg, k) && k in updated && updated[k] != Lookup(cur.labels, k)
    && (k == "created-by" ==> Lookup(cur.labels, k) != "")
  }

  /**
   An update is rejected exactly when it is malformed, would change a protected label, would shrink the volume, or
   would compress one without copy-on-write.
   */
  lemma RejectedIff(cfg: Settings, cur: Meta, req: UpdateRequest)
    ensures Admitted(cfg, cur, req).None?
      <==> || !cfg.wellformed(req)
           || (req.labels.Some? && exists k :: Relabels(cfg, cur, req.labels.value, k))
           || (req.size.Some? && req.size.value < cur.size)
           || (cur.noCow && req.compression.Some? && req.compression.value != "" && req.compression.value != "none")
  {
    if req.labels.Some? {
      forall k
        ensures k in ProtectedKeys(cfg.immutableKeys) && Forbidden(k, cur.labels, req.labels.value)
          <==> Relabels(cfg, cur, req.labels.value, k)
      {
      }
    }
  }

  // A label after an update: a protected one keeps the value it has, any other is as requested.
  predicate LabelUpdated(cfg: Settings, cur: Labels, updated: Labels, after: Labels, k: string)
  {
    if Protected(cfg, k) && Lookup(cur, k) != "" then k in after && after[k] == cur[k]
    else (k in after <==> k in updated) && (k in updated ==> after[k] == updated[k])
  }

  /** What an accepted update leaves, field by field. */
  lemma UpdateMeans(cfg: Settings, cur: Meta, req: UpdateRequest, f: Faults)
    requires Admitted(cfg, cur, req).Some? && !DiskFails(cfg, cur, req, f)
    ensures var m := AfterUpdate(cfg, cur, req, f);
      && m.size == (if req.size.Some? then req.size.value else cur.size)
      && m.quota == (if req.size.Some? then req.size.value else cur.quota)
      && (m.noCow <==> cur.noCow || req.noCow == Some(true))
      && m.compression == (if req.compression.Some? then req.compression.value else cur.compression)
      && m.uid == (if req.uid.Some? then req.uid.value else cur.uid)
      && m.gid == (if req.gid.Some? then req.gid.value else cur.gid)
      && m.mode == (if req.mode.Some? then req.mode.value else cur.mode)
      && (req.labels.None? ==> m.labels == cur.labels)
      && (req.labels.Some? ==> forall k :: LabelUpdated(cfg, cur.labels, req.labels.value, m.labels, k))
      && m.used == cur.used && m.refs == cur.refs
  {
  }

  // The metadata and the subvolume tell the same.
  predicate Agrees(cfg: Settings, m: Meta, d: Disk)
  {
    && (cfg.quotaEnabled ==> d.limit == m.quota)
    && d.noCow == m.noCow && d.uid == m.uid && d.gid == m.gid && d.mode == m.mode
    && d.compression == if Compresses(m.compression) then m.compression else ""
  }

  /**
   An accepted update keeps metadata and subvolume in agreement exactly unless it switches compression off, which
   reaches only the metadata.
   */
  lemma UpdateAgreesIff(cfg: Settings, cur: Meta, req: UpdateRequest, f: Faults, d: Disk)
    requires Admitted(cfg, cur, req).Some? && !DiskFails(cfg, cur, req, f) && Agrees(cfg, cur, d)
    ensures Agrees(cfg, AfterUpdate(cfg, cur, req, f), DiskAfter(cfg, cur, req, f, d))
      <==> !(Compresses(cur.compression) && req.compression.Some? && !Compresses(req.compression.value))
  {
  }

  // ---------------------------------------------------------------- the usage pass

  datatype Owner = Owner(uid: int, gid: int, mode: string)

  datatype Qgroup = Qgroup(referenced: nat, exclusive: nat)

  // What a pass observes: the owner of each data directory it could read, and the qgroups, unless the bulk
  // query failed or quotas are off.
  datatype Facts = Facts(owners: map<string, Owner>, qgroups: Option<map<string, Qgroup>>)

  function OwnerOf(m: Meta): Owner
  {
    Owner(m.uid, m.gid, m.mode)
  }

  // The usage a pass would store: the qgroup's, or zero when it does not look.
  function Observed(m: Meta, name: string, facts: Facts): Option<nat>
  {
    if m.quota > 0 && facts.qgroups.Some? then
      if name in facts.qgroups.value then Some(facts.qgroups.value[name].referenced) else None
    else Some(0)
  }

  predicate Drifted(m: Meta, name: string, facts: Facts)
  {
    && name in facts.owners && Observed(m, name, facts).Some?
    && (OwnerOf(m) != facts.owners[name] ||
        (m.quota > 0 && facts.qgroups.Some? && Observed(m, name, facts).value != m.used))
  }

  function Refreshed(m: Meta, name: string, facts: Facts): Meta
    requires Drifted(m, name, facts)
  {
    var o := facts.owners[name];
    m.(uid := o.uid, gid := o.gid, mode := o.mode, used := Observed(m, name, facts).value)
  }

  function PassOver(m: Meta, name: string, facts: Facts, writable: bool): Meta
  {
    if Drifted(m, name, facts) && writable then Refreshed(m, name, facts) else m
  }

  type Volumes = map<string, Meta>

  function AfterPass(volumes: Volumes, facts: Facts, writable: string -> bool): Volumes
  {
    map n | n in volumes :: PassOver(volumes[n], n, facts, writable(n))
  }

  /** What updateAll does for one cached volume. */
  method UpdateOne(cached: Meta, name: string, facts: Facts, writable: bool) returns (m: Meta, wrote: bool)
    ensures m == PassOver(cached, name, facts, writable)
    ensures wrote <==> Drifted(cached, name, facts) && writable
  {
    if name !in facts.owners {
      return cached, false;
    }
    var o := facts.owners[name];
    var changed := o.uid != cached.uid || o.gid != cached.gid || o.mode != cached.mode;
    var used := 0;
    if cached.quota > 0 && facts.qgroups.Some? {
      if name !in facts.qgroups.value {
        return cached, false;
      }
      used := facts.qgroups.value[name].referenced;
      if used != cached.used {
        changed := true;
      }
    }
    if !changed || !writable {
      return cached, false;
    }
    return cached.(uid := o.uid, gid := o.gid, mode := o.mode, used := used), true;
  }

  /** The volume loop of updateAll; `written` are the volumes whose metadata it rewrites. */
  method UpdateAll(volumes: Volumes, facts: Facts, writable: string -> bool) returns (after: Volumes,
      written: set<string>)
    ensures after == AfterPass(volumes, facts, writable)
    ensures written == set n | n in volumes && Drifted(volumes[n], n, facts) && writable(n)
  {
    after, written := volumes, {};
    var todo := volumes.Keys;
    while todo != {}
      invariant todo <= volumes.Keys == after.Keys
      invariant forall n | n in volumes ::
          after[n] == if n in todo then volumes[n] else PassOver(volumes[n], n, facts, writable(n))
      invariant written == set n | n in volumes && n !in todo && Drifted(volumes[n], n, facts) && writable(n)
      decreases todo
    {
      var name :| name in todo;
      todo := todo - {name};
      var m, wrote := UpdateOne(after[name], name, facts, writable(name));
      after := after[name := m];
      if wrote {
        written := written + {name};
      }
    }
  }

  /**
   A pass with successful writes converges in one step: owner, mode and used bytes of every volume
   it can observe are the observed ones; nothing else of any volume changes; and a second pass
   over the same facts writes nothing.
   */
  lemma PassConverges(volumes: Volumes, facts: Facts)
    ensures var after := AfterPass(volumes, facts, _ => true);
      && after.Keys == volumes.Keys
      && (forall n | n in volumes && n in facts.owners && volumes[n].quota > 0 && facts.qgroups.Some?
          && n in facts.qgroups.value ::
            OwnerOf(after[n]) == facts.owners[n] && after[n].used == facts.qgroups.value[n].referenced)
      && (forall n | n in volumes && n in facts.owners && (volumes[n].quota == 0 || facts.qgroups.None?) ::
            OwnerOf(after[n]) == facts.owners[n])
      && (forall n | n in volumes && (n !in facts.owners || (volumes[n].quota > 0 && facts.qgroups.Some?
          && n !in facts.qgroups.value)) :: after[n] == volumes[n])
      && (forall n | n in volumes ::
            after[n] == volumes[n].(uid := after[n].uid, gid := after[n].gid, mode := after[n].mode,
            used := after[n].used))
      && (forall n | n in volumes :: !Drifted(after[n], n, facts))
      && AfterPass(after, facts, _ => true) == after
  {
    forall n | n in volumes
      ensures !Drifted(AfterPass(volumes, facts, _ => true)[n], n, facts)
    {
      assert AfterPass(volumes, facts, _ => true)[n] == PassOver(volumes[n], n, facts, true);
    }
  }

  /**
   When the bulk query fails the pass means to skip usage, but it stores zero for a volume whose
   owner or mode drifted.  A known usage becomes zero exactly when the qgroup says so or, if the pass
   does not look at the qgroup, when owner or mode drifted.
   */
  lemma UsageIsLostIff(volumes: Volumes, facts: Facts, n: string)
    requires n in volumes && volumes[n].used != 0
    ensures AfterPass(volumes, facts, _ => true)[n].used == 0
      <==> n in facts.owners
           && if volumes[n].quota > 0 && facts.qgroups.Some? then n in facts.qgroups.value
               && facts.qgroups.value[n].referenced == 0
              else OwnerOf(volumes[n]) != facts.owners[n]
  {
  }

  // ---------------------------------------------------------------- the snapshots of the pass

  datatype SnapshotMeta = SnapshotMeta(volume: string, size: nat, labels: Labels, used: nat, exclusive: nat)

  // What the bulk query says of a snapshot; None when it failed or does not list it.
  function QgroupOf(name: string, facts: Facts): Option<Qgroup>
  {
    if facts.qgroups.Some? && name in facts.qgroups.value then Some(facts.qgroups.value[name]) else None
  }

  predicate SnapshotDrifted(m: SnapshotMeta, name: string, facts: Facts)
  {
    var q := QgroupOf(name, facts);
    q.Some? && Qgroup(m.used, m.exclusive) != q.value
  }

  function SnapshotAfter(m: SnapshotMeta, name: string, facts: Facts, writable: bool): SnapshotMeta
  {
    if SnapshotDrifted(m, name, facts) && writable then
      m.(used := QgroupOf(name, facts).value.referenced, exclusive := QgroupOf(name, facts).value.exclusive)
    else m
  }

  /** The snapshot loop of updateAll. */
  method UpdateSnapshots(snapshots: map<string, SnapshotMeta>, facts: Facts, writable: string -> bool)
    returns (after: map<string, SnapshotMeta>, written: set<string>)
    ensures after == map n | n in snapshots :: SnapshotAfter(snapshots[n], n, facts, writable(n))
    ensures written == set n | n in snapshots && SnapshotDrifted(snapshots[n], n, facts) && writable(n)
  {
    after, written := snapshots, {};
    var todo := snapshots.Keys;
    while todo != {}
      invariant todo <= snapshots.Keys == after.Keys
      invariant forall n | n in snapshots ::
          after[n] == if n in todo then snapshots[n] else SnapshotAfter(snapshots[n], n, facts, writable(n))
      invariant written == set n | n in snapshots && n !in todo && SnapshotDrifted(snapshots[n], n, facts)
          && writable(n)
      decreases todo
    {
      var name :| name in todo;
      todo := todo - {name};
      if facts.qgroups.None? || name !in facts.qgroups.value {
        continue;
      }
      var q, m := facts.qgroups.value[name], after[name];
      if q.referenced == m.used && q.exclusive == m.exclusive {
        continue;
      }
      if writable(name) {
        after := after[name := m.(used := q.referenced, exclusive := q.exclusive)];
        written := written + {name};
      }
    }
  }

  /**
   Snapshots converge in one pass too: usage and exclusive bytes become the listed ones, nothing
   else changes, and a second pass over the same facts writes nothing.  Unlike for volumes, a
   failed bulk query leaves them alone.
   */
  lemma SnapshotPassConverges(m: SnapshotMeta, n: string, facts: Facts)
    ensures var after := SnapshotAfter(m, n, facts, true);
      && (QgroupOf(n, facts).Some? ==> Qgroup(after.used, after.exclusive) == QgroupOf(n, facts).value)
      && (facts.qgroups.None? ==> after == m)
      && after == m.(used := after.used, exclusive := after.exclusive)
      && !SnapshotDrifted(after, n, facts)
  {
  }

  // ---------------------------------------------------------------- runs

  datatype Op =
    | Update(req: UpdateRequest, faults: Faults)
    | Exports(refs: seq<Ref>)                       // an export was added or removed
    | UsagePass(facts: Facts, writable: bool)

  function Apply(cfg: Settings, name: string, m: Meta, op: Op): Meta
  {
    match op
    case Update(req, f) => AfterUpdate(cfg, m, req, f)
    case Exports(refs) => m.(refs := refs)
    case UsagePass(facts, writable) => PassOver(m, name, facts, writable)
  }

  function Exec(cfg: Settings, name: string, m: Meta, ops: seq<Op>): Meta
  {
    if ops == [] then m else Apply(cfg, name, Exec(cfg, name, m, ops[..|ops| - 1]), ops[|ops| - 1])
  }

  /** Size never shrinks, no-copy-on-write never comes off, and a protected label with a value keeps it. */
  ghost predicate Grew(cfg: Settings, before: Meta, after: Meta)
  {
    && before.size <= after.size
    && (before.noCow ==> after.noCow)
    && forall k | k in ProtectedKeys(cfg.immutableKeys)
        && Lookup(before.labels, k) != "" :: Lookup(after.labels, k) == Lookup(before.labels, k)
  }

  lemma ProtectedLabelsStay(keys: seq<string>, cur: Labels, updated: Labels, k: string)
    requires ProtectLabels(keys, cur, updated).Some? && k in ProtectedKeys(keys) && Lookup(cur, k) != ""
    ensures Lookup(ProtectLabels(keys, cur, updated).value, k) == Lookup(cur, k)
  {
  }

  lemma OpGrows(cfg: Settings, name: string, m: Meta, op: Op)
    ensures Grew(cfg, m, Apply(cfg, name, m, op))
  {
    if op.Update? && op.req.labels.Some? && ProtectLabels(cfg.immutableKeys, m.labels, op.req.labels.value).Some? {
      forall k | k in ProtectedKeys(cfg.immutableKeys) && Lookup(m.labels, k) != ""
        ensures Lookup(ProtectLabels(cfg.immutableKeys, m.labels, op.req.labels.value).value, k) == Lookup(m.labels, k)
      {
        ProtectedLabelsStay(cfg.immutableKeys, m.labels, op.req.labels.value, k);
      }
    }
  }

  /** Over any serial run of updates, accepted or rejected, export changes and usage passes. */
  lemma {:induction false} MetadataGrows(cfg: Settings, name: string, m: Meta, ops: seq<Op>, i: nat)
    requires i <= |ops|
    ensures Grew(cfg, Exec(cfg, name, m, ops[..i]), Exec(cfg, name, m, ops))
  {
    if i < |ops| {
      var init := ops[..|ops| - 1];
      MetadataGrows(cfg, name, m, init, i);
      assert init[..i] == ops[..i];
      OpGrows(cfg, name, Exec(cfg, name, m, init), ops[|ops| - 1]);
    } else {
      assert ops[..i] == ops;
    }
  }

  /**
   "NoCOW excludes compression" is not kept: a request that turns on both is accepted, because the
   check looks at the volume before the request.  It is exactly the admitted requests that switch
   on no-copy-on-write while the volume ends up compressed that break it.
   */
  lemma NoCowMayMeetCompression(cfg: Settings, m: Meta, req: UpdateRequest)
    requires Admitted(cfg, m, req).Some? && !(m.noCow && Compresses(m.compression))
    ensures var after := Written(m, Admitted(cfg, m, req).value);
      after.noCow && Compresses(after.compression)
      <==> !m.noCow && req.noCow == Some(true) && Compresses(Or(req.compression, m.compression))
  {
  }

  // ---------------------------------------------------------------- calls that overlap

  // UpdateVolume checks against what it read, and rewrites what it finds later under the lock:
  // `admitted` are the calls in between.
  datatype Overlap = Overlap(meta: Meta, admitted: map<nat, UpdateRequest>)

  datatype CallStep =
    | Check(c: nat, req: UpdateRequest, faults: Faults)
    | Commit(c: nat, written: bool)

  function TakeStep(cfg: Settings, s: Overlap, a: CallStep): Overlap
  {
    match a
    case Check(c, req, f) =>
      var r := Admitted(cfg, s.meta, req);
      if r.None? || DiskFails(cfg, s.meta, req, f.(write := false)) then s else s.(admitted := s.admitted[c := r.value])
    case Commit(c, written) =>
      if c !in s.admitted then s
      else Overlap(if written then Written(s.meta, s.admitted[c]) else s.meta, s.admitted - {c})
  }

  function TakeSteps(cfg: Settings, s: Overlap, run: seq<CallStep>): Overlap
    decreases |run|
  {
    if run == [] then s else TakeSteps(cfg, TakeStep(cfg, s, run[0]), run[1..])
  }

  /** A call that no other overlaps is the serial one. */
  lemma AloneIsSerial(cfg: Settings, s: Overlap, c: nat, req: UpdateRequest, f: Faults)
    requires c !in s.admitted
    ensures TakeSteps(cfg, s, [Check(c, req, f), Commit(c, !f.write)])
        == Overlap(AfterUpdate(cfg, s.meta, req, f), s.admitted)
  {
    var s1 := TakeStep(cfg, s, Check(c, req, f));
    var s2 := TakeStep(cfg, s1, Commit(c, !f.write));
    assert [Check(c, req, f), Commit(c, !f.write)][1..] == [Commit(c, !f.write)];
    assert TakeSteps(cfg, s1, [Commit(c, !f.write)]) == s2;
  }

  /**
   A commit takes size, no-copy-on-write or a protected label back exactly when what was admitted
   is behind what is stored by then; a call alone is never behind.
   */
  lemma CommitGrowsIff(cfg: Settings, s: Overlap, c: nat)
    requires c in s.admitted
    ensures Grew(cfg, s.meta, TakeStep(cfg, s, Commit(c, true)).meta) <==> !Behind(cfg, s.meta, s.admitted[c])
  {
  }

  // The request, checked earlier, would not pass the checks now.
  ghost predicate Behind(cfg: Settings, m: Meta, req: UpdateRequest)
  {
    || (req.size.Some? && req.size.value < m.size)
    || (req.noCow == Some(false) && m.noCow)
    || (req.labels.Some? && exists k ::
          && k in ProtectedKeys(cfg.immutableKeys) && Lookup(m.labels, k) != ""
          && Lookup(req.labels.value, k) != Lookup(m.labels, k))
  }

  lemma FreshIsNotBehind(cfg: Settings, m: Meta, req: UpdateRequest)
    requires Admitted(cfg, m, req).Some?
    ensures !Behind(cfg, m, Admitted(cfg, m, req).value)
  {
    if req.labels.Some? {
      forall k | k in ProtectedKeys(cfg.immutableKeys) && Lookup(m.labels, k) != ""
        ensures Lookup(Admitted(cfg, m, req).value.labels.value, k) == Lookup(m.labels, k)
      {
        ProtectedLabelsStay(cfg.immutableKeys, m.labels, req.labels.value, k);
      }
    }
  }

  const NO_CHANGE := UpdateRequest(None, None, None, None, None, None, None)

  const NO_FAULTS := Faults(false, false, false, false, false, false)

  function Resize(size: nat): UpdateRequest
  {
    NO_CHANGE.(size := Some(size))
  }

  /** Two overlapping calls can shrink a volume: both read the old size, the larger commits first. */
  lemma OverlappingUpdatesShrink(cfg: Settings, m: Meta, larger: nat, smaller: nat)
    requires m.size <= smaller < larger && cfg.wellformed(Resize(larger)) && cfg.wellformed(Resize(smaller))
    ensures var run := [Check(1, Resize(larger), NO_FAULTS), Check(2, Resize(smaller), NO_FAULTS), Commit(1, true)];
      && TakeSteps(cfg, Overlap(m, map[]), run).meta.size == larger
      && TakeStep(cfg, TakeSteps(cfg, Overlap(m, map[]), run), Commit(2, true)).meta.size == smaller
  {
    var run := [Check(1, Resize(larger), NO_FAULTS), Check(2, Resize(smaller), NO_FAULTS), Commit(1, true)];
    var s1 := TakeStep(cfg, Overlap(m, map[]), run[0]);
    var s2 := TakeStep(cfg, s1, run[1]);
    assert s2.admitted == map[1 := Resize(larger), 2 := Resize(smaller)];
    var s3 := TakeStep(cfg, s2, run[2]);
    assert run[1..][1..] == [run[2]];
    assert TakeSteps(cfg, s2, [run[2]]) == s3;
    assert TakeSteps(cfg, s1, run[1..]) == s3;
  }
}
