/**
 The port allocator as it is: a counter one wider than the port type and a free list that
 doubles when full. Every method is proved against the pool of module PortPool.
 */
module PortAllocators {
  import opened Common
  import opened PortPool

  class PortAllocator {
    const rangeStart: uint16
    const rangeEnd: uint16
    var nextUnissued: uint32
    var freeList: array<uint16>
    var freeCount: int32
    ghost var held: set<Port>
    ghost var lost: set<Port>

    ghost function Value(): Pool
      reads this, freeList
      requires 0 <= freeCount as int <= freeList.Length
    {
      Pool(rangeStart, rangeEnd, nextUnissued as int, freeList[..freeCount as int], held, lost)
    }

    ghost predicate Valid()
      reads this, freeList
    {
      && 0 <= freeCount as int <= freeList.Length <= 0x2_0000
      && WellFormed(Value())
    }

    constructor (rangeStart: uint16, rangeEnd: uint16)
      requires rangeStart <= rangeEnd
      ensures Valid() && fresh(freeList)
      ensures Value() == Fresh(rangeStart, rangeEnd)
    {
      this.rangeStart := rangeStart;
      this.rangeEnd := rangeEnd;
      nextUnissued := rangeStart as uint32;
      freeList := new uint16[0];
      freeCount := 0;
      held, lost := {}, {};
    }

    /** The only invalid argument is an inverted range. */
    static method Create(rangeStart: uint16, rangeEnd: uint16, memoryOk: bool) returns (allocator: PortAllocator?)
      ensures allocator == null <==> rangeStart > rangeEnd || !memoryOk
      ensures allocator != null ==>
        && fresh(allocator) && fresh(allocator.freeList)
        && allocator.Valid() && allocator.Value() == Fresh(rangeStart, rangeEnd)
    {
      if rangeStart > rangeEnd || !memoryOk { return null; }
      allocator := new PortAllocator(rangeStart, rangeEnd);
    }

    method Alloc() returns (ok: bool, port: Port)
      requires Valid()
      modifies this
      ensures Valid() && freeList == old(freeList)
      ensures ok <==> !Exhausted(old(Value()))
      ensures ok ==> (Value(), port) == Take(old(Value())) && port !in old(held) && port !in old(lost)
      ensures !ok ==> Value() == old(Value())
    {
      hide WellFormed;
      ghost var before := Value();
      CounterInRange(before);
      if !Exhausted(before) { TakeKeepsWellFormed(before); }
      if freeCount > 0 {
        freeCount := freeCount - 1;
        port := freeList[freeCount];
        held := held + {port};
        assert Value() == Take(before).0;
        return true, port;
      }
      if nextUnissued > rangeEnd as uint32 { return false, 0; }
      port := nextUnissued as uint16;
      nextUnissued := nextUnissued + 1;
      held := held + {port};
      assert Value() == Take(before).0;
      return true, port;
    }

    /** Whether giving a port back needs the free list to grow first. */
    predicate FreeListFull()
      reads this
    {
      freeCount as int >= freeList.Length
    }

    /** A port that was just allocated can be given back without growing the list. */
    predicate RoomAfterAlloc()
      reads this
    {
      freeCount > 0 || freeList.Length > 0
    }

    /** Doubling, from eight; `reallocOk` is what the memory allocator answers. */
    method MakeRoom(reallocOk: bool) returns (ok: bool)
      requires
        || 0 <= freeCount as int <= freeList.Length < 0x1_0000
        || 0 <= freeCount as int < freeList.Length <= 0x2_0000
      modifies this`freeList
      ensures freeList == old(freeList) || fresh(freeList)
      ensures ok <==> reallocOk || old(freeCount as int) < old(freeList.Length)
      ensures 0 <= freeCount as int <= freeList.Length <= 0x2_0000 && (ok ==> freeCount as int < freeList.Length)
      ensures freeList[..freeCount as int] == old(freeList[..freeCount as int])
    {
      if freeCount as int >= freeList.Length {
        var newCapacity: int32 := if freeList.Length > 0 then freeList.Length as int32 * 2 else 8;
        if !reallocOk { return false; }
        var grown := new uint16[newCapacity];
        forall i | 0 <= i < freeCount { grown[i] := freeList[i]; }
        freeList := grown;
      }
      return true;
    }

    /** A port for which no room can be made is lost to the range for good. */
    method Free(port: Port, reallocOk: bool)
      requires Valid() && port in held
      modifies this, freeList
      ensures Valid() && (freeList == old(freeList) || fresh(freeList))
      ensures Value() == Give(old(Value()), port, reallocOk || !old(FreeListFull()))
    {
      hide WellFormed;
      ghost var before := Value();
      GiveKeepsWellFormed(before, port, reallocOk || !FreeListFull());
      HeldLeavesRoom(before, port);
      held := held - {port};
      var ok := MakeRoom(reallocOk);
      if !ok {
        lost := lost + {port};
        return;
      }
      freeList[freeCount] := port;
      freeCount := freeCount + 1;
      assert freeList[..freeCount as int] == before.free + [port];
    }
  }

  lemma CounterInRange(p: Pool)
    requires WellFormed(p)
    ensures p.first as int <= p.next <= p.last as int + 1
  {
  }

  /** Ports are sixteen bits wide, so the free list never outgrows its capacity type. */
  lemma HeldLeavesRoom(p: Pool, port: Port)
    requires WellFormed(p) && port in p.held
    ensures |p.free| < 0x1_0000
  {
    assert p.held == p.held - {port} + {port};
  }
}
