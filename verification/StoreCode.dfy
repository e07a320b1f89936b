/**
 The methods of `Store` in agent/storage/meta/store.go as one goroutine runs them: the cache and
 the files are fields that the methods change in place.  Update is proved to take exactly the
 steps that module MetaStore interleaves.
 */
module StoreCode {
  import opened Collections
  import LockPool
  import opened MetaStore

  type Path = LockPool.Path

  // The steps of Update inside its critical section, one after the other; None when one cannot be taken.
  function RunOps(call: Call, mem: Memory, ops: seq<Op>): Option<(Phase, Memory)>
  {
    if ops == [] then Some((Reading, mem))
    else
      var before := RunOps(call, mem, ops[..|ops| - 1]);
      if before.Some? && CanWork(call.key, before.value.0, before.value.1, ops[|ops| - 1]) then
        Some(Work(call, before.value.0, before.value.1, ops[|ops| - 1]))
      else None
  }

  lemma RunSnoc(call: Call, mem: Memory, ops: seq<Op>, op: Op)
    requires RunOps(call, mem, ops).Some?
        && CanWork(call.key, RunOps(call, mem, ops).value.0, RunOps(call, mem, ops).value.1, op)
    ensures RunOps(call, mem, ops + [op])
        == Some(Work(call, RunOps(call, mem, ops).value.0, RunOps(call, mem, ops).value.1, op))
  {
    assert (ops + [op])[..|ops|] == ops;
  }

  // What Get finds: the cached record, or else the one on disk.
  function Found(mem: Memory, key: Path): Option<V>
  {
    if key in mem.cache then Some(mem.cache[key]) else if key in mem.disk then Some(mem.disk[key]) else None
  }

  class MetadataStore {
    var cache: map<Path, V>
    var disk: map<Path, V>
    var tmp: map<Path, V>
    var torn: set<Path>      // temporary files of which only a part was written

    ghost function View(): Memory
      reads this
    {
      Memory(cache, disk, tmp)
    }

    constructor (disk: map<Path, V>)
      ensures View() == Memory(map[], disk, map[])
    {
      cache, tmp, torn, this.disk := map[], map[], {}, disk;
    }

    method Get(key: Path) returns (r: Option<V>)
      modifies this`cache
      ensures r == Found(old(View()), key)
      ensures cache == if r.Some? then old(cache)[key := r.value] else old(cache)
    {
      if key in cache {
        assert cache == cache[key := cache[key]];
        return Some(cache[key]);
      }
      if key !in disk {
        return None;
      }
      cache := cache[key := disk[key]];
      return Some(disk[key]);
    }

    // Write the temporary file, then rename it over the metadata file.
    method WriteJsonAtomic(key: Path, val: V) returns (staged: bool, ok: bool)
      modifies this`disk, this`tmp, this`torn
      ensures ok ==> staged
      ensures disk == if ok then old(disk)[key := val] else old(disk)
      ensures tmp == old(tmp) - {key}
      ensures torn - {key} == old(torn) - {key} && (staged ==> key !in torn)
    {
      staged, ok := *, false;
      if !staged {
        var partly: bool := *;
        tmp := tmp - {key};
        torn := if partly then torn + {key} else torn;
        return;
      }
      tmp, torn := tmp[key := val], torn - {key};
      ok := *;
      if ok {
        disk, tmp := disk[key := tmp[key]], tmp - {key};
      } else {
        tmp := tmp - {key};
      }
      assert old(tmp)[key := val] - {key} == old(tmp) - {key};
    }

    method Store(key: Path, val: V) returns (ok: bool)
      modifies this
      ensures disk == (if ok then old(disk)[key := val] else old(disk))
          && cache == (if ok then old(cache)[key := val] else old(cache))
      ensures tmp == old(tmp) - {key}
    {
      var staged;
      staged, ok := WriteJsonAtomic(key, val);
      if ok {
        cache := cache[key := val];
      }
    }

    /**
     A successful Update returns the callback's value for what Get found and leaves it in cache and
     file; a failed one leaves the files as they were, and the cache too but for what Get loaded.
     Either way it went through the steps `ops` of the machine.
     */
    method Update(key: Path, fn: V -> V) returns (r: Option<V>, ghost ops: seq<Op>)
      modifies this
      ensures r.Some? ==> Found(old(View()), key).Some? && r.value == fn(Found(old(View()), key).value)
      ensures disk == (if r.Some? then old(disk)[key := r.value] else old(disk))
      ensures cache == (if r.Some? then old(cache)[key := r.value]
                        else if Found(old(View()), key).Some? then
                          old(cache)[key := Found(old(View()), key).value]
                        else old(cache))
      ensures RunOps(Call(key, fn), old(View()), ops) == Some((Returning(r), View()))
    {
      ghost var call := Call(key, fn);
      ghost var start := View();
      var val := Get(key);
      ops := LookupOps(start, key);
      LookupIsGet(call, start);
      if val.None? {
        return None, ops;
      }
      var cp := fn(val.value);
      var staged, ok := WriteJsonAtomic(key, cp);
      ghost var written := WriteOps(staged, ok);
      WriteIsStageAndRename(call, start, ops, val.value, cp, staged, ok, View());
      if !ok {
        return None, ops + written;
      }
      cache := cache[key := cp];
      RunSnoc(call, start, ops + written, Publish);
      return Some(cp), ops + written + [Publish];
    }

    // Delete takes the record out of the cache; the file goes with its directory.
    method Delete(key: Path)
      modifies this`cache
      ensures cache == old(cache) - {key}
    {
      cache := cache - {key};
    }
  }

  // The steps of the Get inside Update.
  function LookupOps(mem: Memory, key: Path): seq<Op>
  {
    if key in mem.cache then [Lookup] else if key in mem.disk then [Lookup, ReadDisk, Fill] else [Lookup, ReadDisk]
  }

  lemma LookupIsGet(call: Call, mem: Memory)
    ensures var found := Found(mem, call.key); var after := RunOps(call, mem, LookupOps(mem, call.key));
      && after.Some?
      && after.value.0 == (if found.Some? then Copied(found.value, call.fn(found.value)) else Returning(None))
      && after.value.1 == (if found.Some? then mem.(cache := mem.cache[call.key := found.value]) else mem)
  {
    RunSnoc(call, mem, [], Lookup);
    assert [] + [Lookup] == [Lookup];
    if call.key in mem.cache {
      assert mem.cache == mem.cache[call.key := mem.cache[call.key]];
    } else {
      RunSnoc(call, mem, [Lookup], ReadDisk);
      assert [Lookup] + [ReadDisk] == [Lookup, ReadDisk];
      if call.key in mem.disk {
        RunSnoc(call, mem, [Lookup, ReadDisk], Fill);
        assert [Lookup, ReadDisk] + [Fill] == [Lookup, ReadDisk, Fill];
      }
    }
  }

  function WriteOps(staged: bool, ok: bool): seq<Op>
  {
    if staged then [Stage(true), Rename(ok)] else [Stage(false)]
  }

  lemma WriteIsStageAndRename(call: Call, mem: Memory, ops: seq<Op>, was: V, cp: V, staged: bool, ok: bool,
      after: Memory)
    requires RunOps(call, mem, ops).Some? && RunOps(call, mem, ops).value.0 == Copied(was, cp) && (ok ==> staged)
    requires var m := RunOps(call, mem, ops).value.1;
      after == Memory(m.cache, if ok then m.disk[call.key := cp] else m.disk, m.tmp - {call.key})
    ensures RunOps(call, mem, ops + WriteOps(staged, ok))
        == Some((if ok then Renamed(was, cp) else Returning(None), after))
  {
    var m := RunOps(call, mem, ops).value.1;
    RunSnoc(call, mem, ops, Stage(staged));
    if staged {
      RunSnoc(call, mem, ops + [Stage(true)], Rename(ok));
      assert ops + [Stage(true)] + [Rename(ok)] == ops + WriteOps(staged, ok);
      assert m.tmp[call.key := cp] - {call.key} == m.tmp - {call.key};
    }
  }
}
