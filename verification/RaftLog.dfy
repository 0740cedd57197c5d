/** The log of module/raft/src/raft_log.c: a growable array, written in place.

    Entries are never polled from the front, so `front` and `base` stay 0 and the array is
    filled from the start; the copy loop still follows the source's wrap-around test.
 */
module RaftLogs {
  import opened RaftProtocol

  const INITIAL_CAPACITY := 10

  datatype Option<T> = None | Some(value: T)

  lemma SlotIs(i: nat, size: nat)
    requires i < size
    ensures i % size == i
  {
  }

  class RaftLog {
    var size: nat
    var count: nat
    var front: nat
    var back: nat
    var base: nat
    var entries: array<Entry>

    ghost predicate Valid()
      reads this, entries
    {
      entries.Length == size && 1 <= size && front == 0 && base == 0 && back == count && count <= size
    }

    ghost function Contents(): (log: seq<Entry>)
      requires Valid()
      reads this, entries
      ensures |log| == count
    {
      entries[..count]
    }

    /** log_new. */
    constructor ()
      ensures Valid() && Contents() == [] && fresh(entries)
    {
      size := INITIAL_CAPACITY;
      count, front, back, base := 0, 0, 0, 0;
      entries := new Entry[INITIAL_CAPACITY](i => Entry(0, 0, 0));
    }

    /** __ensurecapacity: when the array is full, its contents move to one twice as large. */
    method EnsureCapacity()
      requires Valid()
      modifies this
      ensures Valid() && count < size && count == old(count)
      ensures Contents() == old(Contents())
      ensures entries == old(entries) || fresh(entries)
      ensures unchanged(old(entries))
    {
      if count < size {
        return;
      }
      var temp := new Entry[size * 2](i => Entry(0, 0, 0));
      var i, j := 0, front;
      while i < count
        invariant 0 <= i <= count && j == i && temp != entries
        invariant temp[..i] == entries[..i]
        modifies temp
      {
        if j == size {
          j := 0;
        }
        temp[i] := entries[j];
        i, j := i + 1, j + 1;
      }
      size := size * 2;
      entries := temp;
      front := 0;
      back := count;
    }

    /** log_append_entry: 0 on success, -1 for an entry with id 0. */
    method AppendEntry(e: Entry) returns (rc: int)
      requires Valid()
      modifies this, entries
      ensures Valid()
      ensures rc == (if e.id == 0 then -1 else 0)
      ensures Contents() == if e.id == 0 then old(Contents()) else old(Contents()) + [e]
      ensures entries == old(entries) || fresh(entries)
    {
      if e.id == 0 {
        return -1;
      }
      EnsureCapacity();
      entries[back] := e;
      count := count + 1;
      back := back + 1;
      rc := 0;
    }

    /** log_get_at_idx; the source asserts that indices start at 1. */
    method GetAt(idx: Index) returns (e: Option<Entry>)
      requires Valid()
      ensures e == if idx <= |Contents()| then Some(Contents()[idx - 1]) else None
    {
      if base + count < idx || idx < base {
        return None;
      }
      SlotIs(idx - 1, size);
      var i := (front + (idx - 1) - base) % size;
      e := Some(entries[i]);
    }

    /** log_get_from_idx: everything from `idx` to the end of the log. */
    method GetFrom(idx: Index) returns (suffix: seq<Entry>)
      requires Valid()
      ensures suffix == if idx <= |Contents()| then Contents()[idx - 1..] else []
    {
      if base + count < idx || idx < base {
        return [];
      }
      SlotIs(idx - 1, size);
      var i := (front + (idx - 1) - base) % size;
      var untilEnd := if i < back then back - i else size - i;
      suffix := entries[i..i + untilEnd];
    }

    /** log_delete: pops the last entry until `idx` is gone. */
    method Delete(idx: Index)
      requires Valid()
      modifies this
      ensures Valid() && entries == old(entries)
      ensures Contents() == if idx <= |old(Contents())| then old(Contents())[..idx - 1] else old(Contents())
    {
      var i := idx - 1 - base;
      var end := count;
      ghost var start := i;
      while i < end
        invariant Valid() && entries == old(entries) && base == 0 && start == idx - 1
        invariant start <= i && count == (if start < end then end - (i - start) else end)
        invariant start < end ==> i <= end
      {
        back := back - 1;
        count := count - 1;
        i := i + 1;
      }
    }
  }
}
