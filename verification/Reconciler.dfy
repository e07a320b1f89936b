/**
 The periodic repair of NFS exports: `reconcileExports` of agent/storage/reconciler.go, over the
 exporter of agent/storage/nfs/kernel.go.
 */
module Reconciler {
  import opened Collections
  import opened Strings
  import opened VolumeExports

  type Path = string

  datatype Entry = Entry(path: Path, client: string)

  datatype Call = ExportCall(path: Path, client: string) | UnexportAll(path: Path)

  // Which calls of exportfs fail: the listing of a pass, the listing of a path's clients, and single changes.
  datatype Faults = Faults(listing: bool, clients: Path -> bool, unexport: (Path, string) -> bool,
      export_: (Path, string) -> bool)

  // Removing all clients of the path leaves this entry.
  predicate Stuck(faults: Faults, e: Entry)
  {
    faults.clients(e.path) || faults.unexport(e.path, e.client)
  }

  function Below(dir: Path): Path
  {
    dir + "/"
  }

  // strings.HasPrefix(path, tenantDir + "/")
  predicate Under(path: Path, dir: Path)
  {
    Below(dir) <= path
  }

  function VolumeDir(dir: Path, name: string): Path
  {
    Below(dir) + name
  }

  lemma VolumeDirIsUnder(dir: Path, name: string)
    ensures Under(VolumeDir(dir, name), dir)
  {
  }

  // ---------------------------------------------------------------- the exporter

  class Exporter {
    var table: set<Entry>
    ghost var calls: seq<Call>
    const faults: Faults

    constructor (table: set<Entry>, faults: Faults)
      ensures this.table == table && this.faults == faults && calls == []
    {
      this.table, this.faults, calls := table, faults, [];
    }

    method ListExports(fails: bool) returns (listed: Option<seq<Entry>>)
      ensures listed.None? <==> fails
      ensures listed.Some? ==> forall e :: e in listed.value <==> e in table
    {
      if fails {
        return None;
      }
      var exports := [];
      var todo := table;
      while todo != {}
        invariant todo <= table
        invariant forall e :: e in exports <==> e in table - todo
        decreases todo
      {
        var e :| e in todo;
        exports := exports + [e];
        todo := todo - {e};
      }
      return Some(exports);
    }

    method Export(path: Path, client: string) returns (ok: bool)
      modifies this`table, this`calls
      ensures ok == !faults.export_(path, client) && calls == old(calls) + [ExportCall(path, client)]
      ensures table == if ok then old(table) + {Entry(path, client)} else old(table)
    {
      ok := !faults.export_(path, client);
      calls := calls + [ExportCall(path, client)];
      if ok {
        table := table + {Entry(path, client)};
      }
    }

    // Unexport with an empty client: every client the path is exported to, one by one.
    method UnexportAll(path: Path) returns (ok: bool)
      modifies this`table, this`calls
      ensures calls == old(calls) + [Call.UnexportAll(path)]
      ensures table == (set e | e in old(table) && (e.path != path || Stuck(faults, e)))
      ensures ok <==>
        !faults.clients(path) && forall e | e in old(table) && e.path == path :: !faults.unexport(path, e.client)
    {
      calls := calls + [Call.UnexportAll(path)];
      var listed := ListExports(faults.clients(path));
      if listed.None? {
        return false;
      }
      var exports := listed.value;
      ok := true;
      ghost var before := table;
      for i := 0 to |exports|
        invariant table == set e | e in before
            && (e.path != path || faults.unexport(path, e.client) || e !in exports[..i])
        invariant ok <==> forall e | e in exports[..i] && e.path == path :: !faults.unexport(path, e.client)
        invariant calls == old(calls) + [Call.UnexportAll(path)]
      {
        var e := exports[i];
        assert exports[..i + 1] == exports[..i] + [e];
        if e.path == path {
          if faults.unexport(path, e.client) {
            ok := false;
          } else {
            table := table - {e};
          }
        }
      }
      assert exports[..|exports|] == exports;
    }
  }

  // ---------------------------------------------------------------- what a pass does, on values

  type Exists = Path -> bool
  type Volumes = map<string, seq<Ref>>

  predicate Orphan(e: Entry, dir: Path, exists_: Exists)
  {
    Under(e.path, dir) && !exists_(e.path)
  }

  // Some reference in the tenant's metadata asks for this export.
  predicate Wanted(e: Entry, dir: Path, volumes: Volumes)
  {
    exists n :: n in volumes && e.path == VolumeDir(dir, n) && e.client in Ips(volumes[n])
  }

  function WantedSet(dir: Path, volumes: Volumes): set<Entry>
  {
    set n, ip | n in volumes && ip in Ips(volumes[n]) :: Entry(VolumeDir(dir, n), ip)
  }

  // What exporting the wanted entries that the listing `start` lacks adds to the table, and the calls it takes.
  function Restored(start: set<Entry>, wanted: set<Entry>, faults: Faults): set<Entry>
  {
    set e | e in wanted && e !in start && !faults.export_(e.path, e.client)
  }

  function RestoreCalls(start: set<Entry>, wanted: set<Entry>): set<Call>
  {
    set e | e in wanted && e !in start :: ExportCall(e.path, e.client)
  }

  // The kernel table after a pass.  Without a listing it does nothing; only entries missing from the
  // listing are re-exported.
  function Reconciled(table: set<Entry>, dir: Path, exists_: Exists, volumes: Volumes, faults: Faults): set<Entry>
  {
    if faults.listing then table
    else
      (set e | e in table && (!Orphan(e, dir, exists_) || Stuck(faults, e)))
      + Restored(table, WantedSet(dir, volumes), faults)
  }

  // The exporter calls a pass makes.
  function Needed(table: set<Entry>, dir: Path, exists_: Exists, volumes: Volumes): set<Call>
  {
    (set e | e in table && Orphan(e, dir, exists_) :: UnexportAll(e.path))
    + RestoreCalls(table, WantedSet(dir, volumes))
  }

  function NoFaults(): Faults
  {
    Faults(false, (_: Path) => false, (_: Path, _: string) => false, (_: Path, _: string) => false)
  }

  // ---------------------------------------------------------------- the pass

  // The exports under the tenant's directory, by path: actualExports.
  method ActualExports(exports: seq<Entry>, dir: Path) returns (actual: map<Path, set<string>>)
    ensures forall p, c :: p in actual && c in actual[p] <==> Under(p, dir) && Entry(p, c) in exports
    ensures forall p :: p in actual <==> Under(p, dir) && exists c :: Entry(p, c) in exports
  {
    actual := map[];
    for i := 0 to |exports|
      invariant forall p, c :: p in actual && c in actual[p] <==> Under(p, dir) && Entry(p, c) in exports[..i]
      invariant forall p | p in actual :: actual[p] != {}
    {
      var e := exports[i];
      assert exports[..i + 1] == exports[..i] + [e];
      if Under(e.path, dir) {
        var known := if e.path in actual then actual[e.path] else {};
        actual := actual[e.path := known + {e.client}];
      }
    }
    assert exports[..|exports|] == exports;
    forall p | p in actual
      ensures Under(p, dir) && exists c :: Entry(p, c) in exports
    {
      var c :| c in actual[p];
      assert Entry(p, c) in exports;
    }
  }

  method RemoveOrphans(ex: Exporter, actual: map<Path, set<string>>, dir: Path, exists_: Exists)
    requires forall p :: p in actual <==> Under(p, dir) && exists c :: Entry(p, c) in ex.table
    modifies ex`table, ex`calls
    ensures ex.table == set e | e in old(ex.table) && (!Orphan(e, dir, exists_) || Stuck(ex.faults, e))
    ensures |old(ex.calls)| <= |ex.calls| && ex.calls[..|old(ex.calls)|] == old(ex.calls)
    ensures forall c :: c in ex.calls[|old(ex.calls)|..] <==>
        c in (set e | e in old(ex.table) && Orphan(e, dir, exists_) :: Call.UnexportAll(e.path))
  {
    ghost var start, before := ex.table, ex.calls;
    var todo := actual.Keys;
    ghost var made: seq<Call> := [];
    while todo != {}
      invariant todo <= actual.Keys
      invariant ex.table == set e | e in start
          && (e.path !in actual || e.path in todo || exists_(e.path) || Stuck(ex.faults, e))
      invariant ex.calls == before + made
      invariant forall c :: c in made <==>
          exists p :: p in actual && p !in todo && !exists_(p) && c == Call.UnexportAll(p)
      decreases todo
    {
      var path :| path in todo;
      if !exists_(path) {
        var ok := ex.UnexportAll(path);
        made := made + [Call.UnexportAll(path)];
      }
      todo := todo - {path};
    }
    assert ex.calls[|before|..] == made;
    forall e | e in start
      ensures e.path in actual <==> Under(e.path, dir)
    {
      assert Entry(e.path, e.client) in start;
    }
    forall c
      ensures c in made <==> c in (set e | e in start && Orphan(e, dir, exists_) :: Call.UnexportAll(e.path))
    {
      if c in made {
        var p :| p in actual && !exists_(p) && c == Call.UnexportAll(p);
        var client :| Entry(p, client) in start;
        assert Orphan(Entry(p, client), dir, exists_);
      }
    }
  }

  function Missing(actual: map<Path, set<string>>, path: Path, refs: seq<Ref>): set<Entry>
  {
    set ip | ip in Ips(refs) && !(path in actual && ip in actual[path]) :: Entry(path, ip)
  }

  // Re-exports what one volume's references ask for and the listing did not have.
  method RestoreVolume(ex: Exporter, actual: map<Path, set<string>>, path: Path, refs: seq<Ref>)
    modifies ex`table, ex`calls
    ensures var missing := Missing(actual, path, refs);
      && ex.table == old(ex.table) + (set e | e in missing && !ex.faults.export_(e.path, e.client))
      && |old(ex.calls)| <= |ex.calls| && ex.calls[..|old(ex.calls)|] == old(ex.calls)
      && (forall c :: c in ex.calls[|old(ex.calls)|..] <==> c in (set e | e in missing :: ExportCall(e.path, e.client)))
  {
    ghost var start, before := ex.table, ex.calls;
    var ips := UniqueExportIps(refs);
    ghost var made: seq<Call> := [];
    for i := 0 to |ips|
      invariant ex.table == start
          + (set ip | ip in ips[..i] && !(path in actual && ip in actual[path])
              && !ex.faults.export_(path, ip) :: Entry(path, ip))
      invariant ex.calls == before + made
      invariant forall c :: c in made <==>
          exists ip :: ip in ips[..i] && !(path in actual && ip in actual[path]) && c == ExportCall(path, ip)
    {
      var ip := ips[i];
      assert ips[..i + 1] == ips[..i] + [ip];
      if path in actual && ip in actual[path] {
        continue;
      }
      var ok := ex.Export(path, ip);
      made := made + [ExportCall(path, ip)];
    }
    assert ips[..|ips|] == ips;
    assert ex.calls[|before|..] == made;
    forall c
      ensures c in made <==> c in (set e | e in Missing(actual, path, refs) :: ExportCall(e.path, e.client))
    {
      if c in made {
        var ip :| ip in ips && !(path in actual && ip in actual[path]) && c == ExportCall(path, ip);
        assert Entry(path, ip) in Missing(actual, path, refs);
      }
    }
  }

  // Re-exports what the cached volumes ask for and the listing did not have.
  method RestoreMissing(ex: Exporter, actual: map<Path, set<string>>, dir: Path, volumes: Volumes,
      ghost start: set<Entry>)
    requires forall p, c :: p in actual && c in actual[p] <==> Under(p, dir) && Entry(p, c) in start
    modifies ex`table, ex`calls
    ensures ex.table == old(ex.table) + Restored(start, WantedSet(dir, volumes), ex.faults)
    ensures |old(ex.calls)| <= |ex.calls| && ex.calls[..|old(ex.calls)|] == old(ex.calls)
    ensures forall c :: c in ex.calls[|old(ex.calls)|..] <==> c in RestoreCalls(start, WantedSet(dir, volumes))
  {
    ghost var before, mid := ex.table, ex.calls;
    var todo := volumes.Keys;
    while todo != {}
      invariant todo <= volumes.Keys
      invariant ex.table == before + Restored(start, WantedSet(dir, volumes - todo), ex.faults)
      invariant |mid| <= |ex.calls| && ex.calls[..|mid|] == mid
      invariant forall c :: c in ex.calls[|mid|..] <==> c in RestoreCalls(start, WantedSet(dir, volumes - todo))
      decreases todo
    {
      var name :| name in todo;
      ghost var calls := ex.calls;
      var path := VolumeDir(dir, name);
      RestoreVolume(ex, actual, path, volumes[name]);
      VolumeDirIsUnder(dir, name);
      RestoredGrows(dir, volumes, todo, name, start, actual, ex.faults);
      assert ex.calls[|mid|..] == calls[|mid|..] + ex.calls[|calls|..];
      todo := todo - {name};
    }
    assert volumes - {} == volumes;
  }

  /** One pass of the reconciler over the tenant in directory `dir`. */
  method ReconcileExports(ex: Exporter, dir: Path, exists_: Exists, volumes: Volumes)
    modifies ex`table, ex`calls
    ensures ex.table == Reconciled(old(ex.table), dir, exists_, volumes, ex.faults)
    ensures |old(ex.calls)| <= |ex.calls| && ex.calls[..|old(ex.calls)|] == old(ex.calls)
    ensures forall c :: c in ex.calls[|old(ex.calls)|..] <==>
        !ex.faults.listing && c in Needed(old(ex.table), dir, exists_, volumes)
  {
    ghost var start, before := ex.table, ex.calls;
    var listed := ex.ListExports(ex.faults.listing);
    if listed.None? {
      return;
    }
    var exports := listed.value;
    var actual := ActualExports(exports, dir);
    RemoveOrphans(ex, actual, dir, exists_);
    ghost var mid := ex.calls;
    RestoreMissing(ex, actual, dir, volumes, start);
    assert ex.calls[|before|..] == mid[|before|..] + ex.calls[|mid|..];
  }

  lemma WantedGrows(dir: Path, volumes: Volumes, todo: set<string>, name: string)
    requires name in todo && name in volumes
    ensures WantedSet(dir, volumes - (todo - {name}))
      == WantedSet(dir, volumes - todo) + (set ip | ip in Ips(volumes[name]) :: Entry(VolumeDir(dir, name), ip))
  {
  }

  lemma RestoredGrows(dir: Path, volumes: Volumes, todo: set<string>, name: string, start: set<Entry>,
      actual: map<Path, set<string>>, faults: Faults)
    requires name in todo && name in volumes
    requires var path := VolumeDir(dir, name);
      forall c :: path in actual && c in actual[path] <==> Entry(path, c) in start
    ensures
      var missing := Missing(actual, VolumeDir(dir, name), volumes[name]);
      var before, after := WantedSet(dir, volumes - todo), WantedSet(dir, volumes - (todo - {name}));
      && Restored(start, after, faults)
          == Restored(start, before, faults) + (set e | e in missing && !faults.export_(e.path, e.client))
      && RestoreCalls(start, after)
          == RestoreCalls(start, before) + (set e | e in missing :: ExportCall(e.path, e.client))
  {
    var path := VolumeDir(dir, name);
    var wanted := set ip | ip in Ips(volumes[name]) :: Entry(path, ip);
    WantedGrows(dir, volumes, todo, name);
    assert forall e :: e in Missing(actual, path, volumes[name]) <==> e in wanted && e !in start;
  }

  // ---------------------------------------------------------------- what a pass achieves

  // Every cached volume that has references still has its directory.
  ghost predicate DirectoriesPresent(dir: Path, exists_: Exists, volumes: Volumes)
  {
    forall n | n in volumes && Ips(volumes[n]) != {} :: exists_(VolumeDir(dir, n))
  }

  /**
   One pass from any table, when no exporter call fails and the directories of exported volumes exist: every
   reference is exported, what is exported below the tenant's directory exists, and every other entry whose path
   exists or is not below that directory is as it was.
   */
  lemma PassRepairs(table: set<Entry>, dir: Path, exists_: Exists, volumes: Volumes)
    requires DirectoriesPresent(dir, exists_, volumes)
    ensures var after := Reconciled(table, dir, exists_, volumes, NoFaults());
      && (forall n, ip | n in volumes && ip in Ips(volumes[n]) :: Entry(dir + "/" + n, ip) in after)
      && (forall e: Entry | e in after && dir + "/" <= e.path :: exists_(e.path))
      && (forall e: Entry |
            && !(exists n :: n in volumes && e.path == dir + "/" + n && e.client in Ips(volumes[n]))
            && (exists_(e.path) || !(dir + "/" <= e.path)) ::
            e in after <==> e in table)
  {
    forall e
      ensures e in WantedSet(dir, volumes) ==> Under(e.path, dir) && exists_(e.path)
    {
      if e in WantedSet(dir, volumes) {
        var n :| n in volumes && e.path == VolumeDir(dir, n) && e.client in Ips(volumes[n]);
        VolumeDirIsUnder(dir, n);
      }
    }
    forall n, ip | n in volumes && ip in Ips(volumes[n])
      ensures Entry(VolumeDir(dir, n), ip) in Reconciled(table, dir, exists_, volumes, NoFaults())
    {
      assert Entry(VolumeDir(dir, n), ip) in WantedSet(dir, volumes);
    }
  }

  /**
   Whatever fails, a pass leaves every entry alone whose path does not begin with the tenant's directory and a
   slash, and no exporter call names such a path.
   */
  lemma OthersAreLeftAlone(table: set<Entry>, dir: Path, exists_: Exists, volumes: Volumes, faults: Faults)
    ensures forall e: Entry | !(dir + "/" <= e.path) ::
        e in Reconciled(table, dir, exists_, volumes, faults) <==> e in table
    ensures forall c | c in Needed(table, dir, exists_, volumes) :: dir + "/" <= c.path
  {
    forall e
      ensures e in WantedSet(dir, volumes) ==> dir + "/" <= e.path
    {
      if e in WantedSet(dir, volumes) {
        var n :| n in volumes && e.path == VolumeDir(dir, n) && e.client in Ips(volumes[n]);
        VolumeDirIsUnder(dir, n);
      }
    }
  }

  lemma NoCommonPath(base: Path, a: string, b: string, path: Path)
    requires '/' !in a && '/' !in b && base + "/" + a + "/" <= path && base + "/" + b + "/" <= path
    ensures a == b
  {
    var rest := path[|base| + 1..];
    assert rest == a + ['/'] + rest[|a| + 1..];
    assert rest == b + ['/'] + rest[|b| + 1..];
    CutAtFirst(a, '/', rest[|a| + 1..]);
    CutAtFirst(b, '/', rest[|b| + 1..]);
  }

  /** So a pass over one tenant touches no other's exports, also when the name of one begins with the other's. */
  lemma TenantsAreApart(table: set<Entry>, base: Path, a: string, b: string, exists_: Exists, volumes: Volumes,
      faults: Faults)
    requires '/' !in a && '/' !in b && a != b
    ensures forall e: Entry | base + "/" + b + "/" <= e.path ::
        e in Reconciled(table, base + "/" + a, exists_, volumes, faults) <==> e in table
    ensures forall c | c in Needed(table, base + "/" + a, exists_, volumes) :: !(base + "/" + b + "/" <= c.path)
  {
    OthersAreLeftAlone(table, base + "/" + a, exists_, volumes, faults);
    forall e: Entry | base + "/" + b + "/" <= e.path
      ensures !(base + "/" + a + "/" <= e.path)
    {
      if base + "/" + a + "/" <= e.path {
        NoCommonPath(base, a, b, e.path);
      }
    }
    forall c | c in Needed(table, base + "/" + a, exists_, volumes)
      ensures !(base + "/" + b + "/" <= c.path)
    {
      if base + "/" + b + "/" <= c.path {
        NoCommonPath(base, a, b, c.path);
      }
    }
  }

  /** A second pass makes no exporter call exactly when the directories of exported volumes exist. */
  lemma SecondPassIsIdleIff(table: set<Entry>, dir: Path, exists_: Exists, volumes: Volumes)
    ensures Needed(Reconciled(table, dir, exists_, volumes, NoFaults()), dir, exists_, volumes) == {}
      <==> DirectoriesPresent(dir, exists_, volumes)
  {
    var after := Reconciled(table, dir, exists_, volumes, NoFaults());
    if DirectoriesPresent(dir, exists_, volumes) {
      PassRepairs(table, dir, exists_, volumes);
      assert forall e :: e in WantedSet(dir, volumes) ==> e in after;
    } else {
      var n :| n in volumes && Ips(volumes[n]) != {} && !exists_(VolumeDir(dir, n));
      var ip :| ip in Ips(volumes[n]);
      MissingDirectoryFlaps(table, dir, exists_, volumes, n, ip);
    }
  }

  /**
   Without its directory a reference flaps: a pass that finds the export removes it and does not
   restore it, and a pass that does not find it exports it.
   */
  lemma MissingDirectoryFlaps(table: set<Entry>, dir: Path, exists_: Exists, volumes: Volumes, n: string, ip: string)
    requires n in volumes && ip in Ips(volumes[n]) && !exists_(VolumeDir(dir, n))
    ensures var e := Entry(VolumeDir(dir, n), ip); var after := Reconciled(table, dir, exists_, volumes, NoFaults());
      && (e in after <==> e !in table)
      && (if e in after then Call.UnexportAll(e.path)
          else ExportCall(e.path, ip)) in Needed(after, dir, exists_, volumes)
  {
    var e := Entry(VolumeDir(dir, n), ip);
    VolumeDirIsUnder(dir, n);
    assert e in WantedSet(dir, volumes);
    assert Orphan(e, dir, exists_);
  }
}
