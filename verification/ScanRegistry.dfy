/** The registry of active scans as it is: an array of entries under one lock, and the id counter. */
module ScanRegistries {
  import opened Common
  import opened KeyedTables
  import opened ScanTable

  class ScanDispatcher {
    var server: bool
    var running: bool

    ghost function Value(): Dispatcher
      reads this
    {
      Dispatcher(server, running)
    }

    constructor ()
      ensures Value() == Down
    {
      server, running := false, false;
    }

    method Start(binds: bool) returns (ok: bool)
      modifies this
      ensures (Value(), ok) == StartDispatcher(old(Value()), binds)
    {
      if running { return false; }
      server := binds;
      if !binds { return false; }
      running := true;
      return true;
    }

    method Stop()
      modifies this
      ensures Value() == Down
    {
      if server { server := false; }
      running := false;
    }
  }

  class ScanRegistry<W> {
    var entries: array<Entry<W>>
    var count: nat
    var nextScanId: nat

    ghost predicate Valid()
      reads this, entries
    {
      count <= entries.Length && DistinctIds(entries[..count])
    }

    ghost function Value(): Scans<W>
      reads this, entries
      requires Valid()
    {
      Scans(Table(entries[..count]), nextScanId)
    }

    constructor ()
      ensures Valid() && Value() == Scans(map[], 1) && fresh(entries)
    {
      entries := new Entry<W>[0];
      count, nextScanId := 0, 1;
    }

    method NextScanId() returns (id: nat)
      requires Valid()
      modifies this`nextScanId
      ensures Valid() && id == old(Value().nextId)
      ensures Value() == old(Value()).(nextId := id + 1)
      ensures old(IdsBelow(Value())) ==> 0 < id && id !in Value().active && IdsBelow(Value())
    {
      id := nextScanId;
      nextScanId := nextScanId + 1;
    }

    /** Doubles the array; what is in it stays where it is. */
    method Grow(filler: Entry<W>)
      requires count <= entries.Length
      modifies this`entries
      ensures fresh(entries) && entries.Length > old(entries.Length) && entries[..count] == old(entries[..count])
    {
      var newCapacity := if entries.Length > 0 then entries.Length * 2 else 8;
      var grown := new Entry<W>[newCapacity](_ => filler);
      forall i | 0 <= i < count { grown[i] := entries[i]; }
      entries := grown;
    }

    method AppendEntry(entry: Entry<W>, reallocOk: bool) returns (ok: bool)
      requires Valid() && entry.id !in Value().active
      modifies this`entries, this`count, entries
      ensures Valid() && (entries == old(entries) || fresh(entries))
      ensures ok <==> reallocOk || old(count < entries.Length)
      ensures Value() == if ok then old(Value()).(active := old(Value()).active[entry.id := entry.value])
        else old(Value())
    {
      hide DistinctIds;
      ghost var es := entries[..count];
      AppendExtends(es, entry);
      if count >= entries.Length {
        if !reallocOk { return false; }
        Grow(entry);
      }
      entries[count] := entry;
      count := count + 1;
      assert entries[..count] == es + [entry];
      return true;
    }

    predicate HasRoom()
      reads this
    {
      count < entries.Length
    }

    /** The first scan brings the dispatcher up before it is registered. */
    method AddAndMaybeStartDispatcher(dispatcher: ScanDispatcher, id: nat, worker: W, binds: bool, reallocOk: bool)
      returns (result: AddResult)
      requires Valid() && id !in Value().active
      modifies this, entries, dispatcher
      ensures Valid() && (entries == old(entries) || fresh(entries))
      ensures (Value(), dispatcher.Value(), result)
        == Add(old(Value()), old(dispatcher.Value()), id, worker, binds, reallocOk || old(HasRoom()))
    {
      hide StartDispatcher;
      TableSize(entries[..count]);
      if count == 0 {
        var started := dispatcher.Start(binds);
        if !started { return DispatcherStartFailed; }
      }
      var appended := AppendEntry(Entry(id, worker), reallocOk);
      if !appended {
        if count == 0 { dispatcher.Stop(); }
        result := AddOutOfMemory;
      } else {
        result := Added;
      }
    }

    method Remove(id: nat) returns (worker: Option<W>, nowEmpty: bool)
      requires Valid()
      modifies this`count, entries
      ensures Valid() && (Value(), worker, nowEmpty) == ScanTable.Remove(old(Value()), id)
    {
      ghost var es := entries[..count];
      var found := -1;
      for i := 0 to count
        invariant found == -1 && forall k :: 0 <= k < i ==> es[k].id != id
      {
        if entries[i].id == id {
          found := i;
          break;
        }
      }
      if found < 0 { return None, false; }
      TableAt(es, found);
      SwapRemoveDeletes(es, found);
      worker := Some(entries[found].value);
      RemoveAt(found);
      TableSize(entries[..count]);
      nowEmpty := count == 0;
    }

    /** Swap-remove: the order of the entries carries no meaning. */
    method RemoveAt(index: nat)
      requires count <= entries.Length && index < count
      modifies this`count, entries
      ensures count == old(count) - 1 && entries[..count] == SwapRemove(old(entries[..count]), index)
    {
      entries[index] := entries[count - 1];
      count := count - 1;
    }

    method Find(id: nat) returns (worker: Option<W>)
      requires Valid()
      ensures worker == if id in Value().active then Some(Value().active[id]) else None
    {
      for i := 0 to count
        invariant forall k :: 0 <= k < i ==> entries[k].id != id
      {
        if entries[i].id == id {
          TableAt(entries[..count], i);
          return Some(entries[i].value);
        }
      }
      return None;
    }

    method ActiveCount() returns (n: nat)
      requires Valid()
      ensures n == |Value().active|
    {
      TableSize(entries[..count]);
      return count;
    }

    /** Zero, never a valid id, when nothing is active. */
    method AnyActiveScanId() returns (id: nat)
      requires Valid() && IdsBelow(Value())
      ensures if Value().active == map[] then id == 0 else id in Value().active
    {
      if count == 0 { return 0; }
      TableAt(entries[..count], 0);
      return entries[0].id;
    }
  }
}
