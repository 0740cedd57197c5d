// The single-producer single-consumer ring buffer of module/stl/src/stl_ring_buffer.c and .h: first
// the two threads interleaved step by step, then the two calls as methods on a byte array.
module RingBuffers {

  /** stl_ring_buffer: head and tail are byte offsets into buf, which has capacity * dsize bytes. */
  datatype Ring = Ring(capacity: nat, dsize: nat, head: nat, tail: nat, buf: seq<int>)

  /** (pos + d_size) % (capacity * d_size) */
  function Next(r: Ring, pos: nat): nat
    requires r.capacity * r.dsize != 0
  {
    (pos + r.dsize) % (r.capacity * r.dsize)
  }

  predicate IsEmpty(r: Ring) { r.head == r.tail }

  predicate IsFull(r: Ring)
    requires r.capacity * r.dsize != 0
  {
    Next(r, r.tail) == r.head
  }

  // ---------- Arithmetic of slots ----------

  /** Where the k-th item goes: slot k modulo capacity. */
  function Place(r: Ring, k: nat): nat
    requires r.capacity != 0
  {
    k % r.capacity * r.dsize
  }

  lemma SlotsApart(a: nat, b: nat, d: nat)
    requires a < b
    ensures a * d + d <= b * d
  {
    assert (a + 1) * d == a * d + d;
    if a + 1 < b { MulMono(a + 1, b, d); }
  }

  lemma MulMono(a: nat, b: nat, d: nat)
    requires a <= b
    ensures a * d <= b * d
  {
    assert b * d == a * d + (b - a) * d;
  }

  lemma MulOrder(a: nat, b: nat, d: nat)
    ensures a < b ==> a * d + d <= b * d
    ensures b < a ==> b * d + d <= a * d
  {
    if a < b { SlotsApart(a, b, d); } else if b < a { SlotsApart(b, a, d); }
  }

  /** A slot lies inside the buffer. */
  lemma PlaceInside(r: Ring, k: nat)
    requires r.capacity != 0
    ensures Place(r, k) + r.dsize <= r.capacity * r.dsize
  {
    SlotsApart(k % r.capacity, r.capacity, r.dsize);
  }

  lemma ModStep(k: nat, c: nat)
    requires c != 0
    ensures (k + 1) % c == if k % c == c - 1 then 0 else k % c + 1
  {
    var q, m := k / c, k % c;
    assert k == q * c + m;
    if m == c - 1 {
      assert k + 1 == (q + 1) * c;
      ModOf(q + 1, 0, c);
    } else {
      assert k + 1 == q * c + (m + 1);
      ModOf(q, m + 1, c);
    }
  }

  lemma ModOf(q: nat, m: nat, c: nat)
    requires m < c
    ensures (q * c + m) % c == m && (q * c + m) / c == q
  {
    var x := q * c + m;
    var q', m' := x / c, x % c;
    assert x == q' * c + m' && 0 <= m' < c;
    MulOrder(q, q', c);
  }

  /** Advancing an offset goes to the next item's slot. */
  lemma NextPlace(r: Ring, k: nat)
    requires r.capacity != 0 && r.dsize != 0
    ensures r.capacity * r.dsize != 0 && Next(r, Place(r, k)) == Place(r, k + 1)
  {
    var c, d, m := r.capacity, r.dsize, k % r.capacity;
    SlotsApart(0, c, d);
    ModStep(k, c);
    if m == c - 1 {
      assert m * d + d == c * d;
      ModOf(1, 0, c * d);
    } else {
      SlotsApart(m + 1, c, d);
      assert (m + 1) * d == m * d + d;
      ModOf(0, m * d + d, c * d);
    }
  }

  /** Fewer than capacity items apart, two items have different slots. */
  lemma ModDiffers(a: nat, b: nat, c: nat)
    requires a < b < a + c
    ensures a % c != b % c
  {
    ModPlus(a, b - a, c);
  }

  lemma {:induction false} ModPlus(a: nat, k: nat, c: nat)
    requires k < c
    ensures (a + k) % c == if a % c + k < c then a % c + k else a % c + k - c
  {
    if k > 0 {
      ModPlus(a, k - 1, c);
      ModStep(a + (k - 1), c);
    }
  }

  lemma PlacesApart(r: Ring, a: nat, b: nat)
    requires r.capacity != 0 && a < b < a + r.capacity
    ensures Place(r, a) + r.dsize <= Place(r, b) || Place(r, b) + r.dsize <= Place(r, a)
  {
    ModDiffers(a, b, r.capacity);
    var x, y := a % r.capacity, b % r.capacity;
    if x < y { SlotsApart(x, y, r.dsize); } else { SlotsApart(y, x, r.dsize); }
  }

  lemma PlacesDiffer(r: Ring, a: nat, b: nat)
    requires r.capacity != 0 && r.dsize != 0 && a < b < a + r.capacity
    ensures Place(r, a) != Place(r, b)
  {
    PlacesApart(r, a, b);
  }

  // ---------- What the buffer holds ----------

  ghost predicate SlotHas(r: Ring, k: nat, item: seq<int>)
    requires r.capacity != 0
  {
    Place(r, k) + r.dsize <= |r.buf| && r.buf[Place(r, k)..Place(r, k) + r.dsize] == item
  }

  /** pushed lists every item ever published and the first popped of them have been taken. The
      slots still hold the items not yet taken, and the one taken last. */
  ghost predicate RingOk(r: Ring, pushed: seq<seq<int>>, popped: nat) {
    1 <= r.capacity && 1 <= r.dsize && |r.buf| == r.capacity * r.dsize
    && popped <= |pushed| <= popped + r.capacity - 1
    && r.head == Place(r, popped) && r.tail == Place(r, |pushed|)
    && (forall k :: 0 <= k < |pushed| && popped - 1 <= k ==> SlotHas(r, k, pushed[k]))
  }

  /** The two tests mean what they say: capacity - 1 items fill the buffer. */
  lemma TestsExact(r: Ring, pushed: seq<seq<int>>, popped: nat)
    requires RingOk(r, pushed, popped)
    ensures r.capacity * r.dsize != 0
    ensures IsEmpty(r) <==> popped == |pushed|
    ensures IsFull(r) <==> |pushed| == popped + r.capacity - 1
  {
    NextPlace(r, |pushed|);
    if popped < |pushed| { PlacesDiffer(r, popped, |pushed|); }
    if |pushed| + 1 < popped + r.capacity { PlacesDiffer(r, popped, |pushed| + 1); }
    if |pushed| == popped + r.capacity - 1 { SamePlace(r, popped); }
  }

  lemma SamePlace(r: Ring, k: nat)
    requires r.capacity != 0
    ensures Place(r, k + r.capacity) == Place(r, k)
  {
    var q, m := k / r.capacity, k % r.capacity;
    assert k + r.capacity == (q + 1) * r.capacity + m;
    ModOf(q + 1, m, r.capacity);
  }

  /** Writing into the slot at the tail touches no item still held, nor the one taken last. */
  lemma WriteKeeps(r: Ring, pushed: seq<seq<int>>, popped: nat, j: nat, x: int)
    requires RingOk(r, pushed, popped) && |pushed| < popped + r.capacity - 1 && j < r.dsize
    ensures r.tail + j < |r.buf| && RingOk(r.(buf := r.buf[r.tail + j := x]), pushed, popped)
  {
    PlaceInside(r, |pushed|);
    var r' := r.(buf := r.buf[r.tail + j := x]);
    forall k | 0 <= k < |pushed| && popped - 1 <= k ensures SlotHas(r', k, pushed[k]) {
      assert SlotHas(r, k, pushed[k]);
      PlacesApart(r, k, |pushed|);
      assert r'.buf[Place(r, k)..Place(r, k) + r.dsize] == r.buf[Place(r, k)..Place(r, k) + r.dsize];
    }
  }

  lemma PublishKeeps(r: Ring, pushed: seq<seq<int>>, popped: nat, item: seq<int>)
    requires RingOk(r, pushed, popped) && |pushed| < popped + r.capacity - 1 && SlotHas(r, |pushed|, item)
    ensures r.capacity * r.dsize != 0 && RingOk(r.(tail := Next(r, r.tail)), pushed + [item], popped)
  {
    NextPlace(r, |pushed|);
    var r' := r.(tail := Next(r, r.tail));
    forall k | 0 <= k < |pushed| + 1 && popped - 1 <= k ensures SlotHas(r', k, (pushed + [item])[k]) {
      if k < |pushed| { assert SlotHas(r, k, pushed[k]); }
    }
  }

  lemma AdvanceKeeps(r: Ring, pushed: seq<seq<int>>, popped: nat)
    requires RingOk(r, pushed, popped) && popped < |pushed|
    ensures r.capacity * r.dsize != 0 && RingOk(r.(head := Next(r, r.head)), pushed, popped + 1)
  {
    NextPlace(r, popped);
    var r' := r.(head := Next(r, r.head));
    forall k | 0 <= k < |pushed| && popped <= k ensures SlotHas(r', k, pushed[k]) {
      assert SlotHas(r, k, pushed[k]);
    }
  }

  // ---------- Producer and consumer interleaved ----------

  /** A producer that passed the full test copies byte by byte, then publishes the tail. */
  datatype Producer = Ready | Copying(data: seq<int>, done: nat)

  /** A consumer that passed the empty test has its pointer and has yet to move the head. */
  datatype Consumer = Waiting | Taking

  /** `last` is the pointer the latest finished dequeue returned, -1 before the first. */
  datatype State = State(ring: Ring, producer: Producer, consumer: Consumer,
                         pushed: seq<seq<int>>, popped: nat, last: int)

  datatype Event = Offer(data: seq<int>) | CopyByte | Publish | Look | Advance

  function Start(capacity: nat, dsize: nat): State {
    State(Ring(capacity, dsize, 0, 0, seq(capacity * dsize, _ => 0)), Ready, Waiting, [], 0, -1)
  }

  /** One atomic step of either thread; a step that is not due does nothing. */
  function Step(s: State, e: Event): State
    requires s.ring.capacity * s.ring.dsize != 0
  {
    var r := s.ring;
    match e
    case Offer(data) =>
      if s.producer.Ready? && |data| == r.dsize && !IsFull(r) then s.(producer := Copying(data, 0)) else s
    case CopyByte =>
      if s.producer.Copying? && s.producer.done < r.dsize && s.producer.done < |s.producer.data|
        && r.tail + s.producer.done < |r.buf|
      then s.(ring := r.(buf := r.buf[r.tail + s.producer.done := s.producer.data[s.producer.done]]),
              producer := s.producer.(done := s.producer.done + 1))
      else s
    case Publish =>
      if s.producer.Copying? && s.producer.done == r.dsize
      then s.(ring := r.(tail := Next(r, r.tail)), producer := Ready, pushed := s.pushed + [s.producer.data])
      else s
    case Look =>
      if s.consumer.Waiting? && !IsEmpty(r) then s.(consumer := Taking) else s
    case Advance =>
      if s.consumer.Taking?
      then s.(ring := r.(head := Next(r, r.head)), consumer := Waiting, popped := s.popped + 1, last := r.head)
      else s
  }

  ghost predicate StateOk(s: State, capacity: nat, dsize: nat) {
    s.ring.capacity == capacity && s.ring.dsize == dsize && RingOk(s.ring, s.pushed, s.popped)
    && (s.producer.Copying? ==>
          |s.pushed| < s.popped + capacity - 1 && |s.producer.data| == dsize && s.producer.done <= dsize
          && s.ring.tail + dsize <= |s.ring.buf|
          && s.ring.buf[s.ring.tail..s.ring.tail + s.producer.done] == s.producer.data[..s.producer.done])
    && (s.consumer.Taking? ==> s.popped < |s.pushed|)
    && s.last == if s.popped == 0 then -1 else Place(s.ring, s.popped - 1)
  }

  lemma StartOk(capacity: nat, dsize: nat)
    requires 1 <= capacity && 1 <= dsize
    ensures StateOk(Start(capacity, dsize), capacity, dsize)
  {
    assert Place(Start(capacity, dsize).ring, 0) == 0 by { ModOf(0, 0, capacity); }
  }

  lemma CopyKeeps(s: State, capacity: nat, dsize: nat)
    requires StateOk(s, capacity, dsize) && s.ring.capacity * s.ring.dsize != 0
    ensures StateOk(Step(s, CopyByte), capacity, dsize)
  {
    var r := s.ring;
    if s.producer.Copying? && s.producer.done < dsize {
      var d, j := s.producer.data, s.producer.done;
      WriteKeeps(r, s.pushed, s.popped, j, d[j]);
      var buf := r.buf[r.tail + j := d[j]];
      assert buf[r.tail..r.tail + j + 1] == r.buf[r.tail..r.tail + j] + [d[j]];
      assert d[..j + 1] == d[..j] + [d[j]];
    }
  }

  /** Every step of either thread keeps the invariant. */
  lemma StepOk(s: State, capacity: nat, dsize: nat, e: Event)
    requires StateOk(s, capacity, dsize)
    ensures s.ring.capacity * s.ring.dsize != 0 && StateOk(Step(s, e), capacity, dsize)
  {
    var r := s.ring;
    TestsExact(r, s.pushed, s.popped);
    match e
    case Offer(data) =>
      PlaceInside(r, |s.pushed|);
      assert r.buf[r.tail..r.tail] == data[..0];
    case CopyByte =>
      CopyKeeps(s, capacity, dsize);
    case Publish =>
      if s.producer.Copying? && s.producer.done == dsize {
        assert s.producer.data[..dsize] == s.producer.data;
        PublishKeeps(r, s.pushed, s.popped, s.producer.data);
      }
    case Look =>
    case Advance =>
      if s.consumer.Taking? { AdvanceKeeps(r, s.pushed, s.popped); }
  }

  /** The state after a run of steps in any order. */
  ghost function Run(capacity: nat, dsize: nat, events: seq<Event>): (s: State)
    requires 1 <= capacity && 1 <= dsize
    ensures StateOk(s, capacity, dsize)
    decreases |events|
  {
    if events == [] then
      StartOk(capacity, dsize);
      Start(capacity, dsize)
    else
      var s := Run(capacity, dsize, events[..|events| - 1]);
      StepOk(s, capacity, dsize, events[|events| - 1]);
      Step(s, events[|events| - 1])
  }

  /** FIFO: whatever the interleaving, the pointer a dequeue returned shows the item queued in the
      same position, and goes on showing it until the next dequeue; never more than capacity - 1
      items wait. */
  lemma FirstInFirstOut(capacity: nat, dsize: nat, events: seq<Event>)
    requires 1 <= capacity && 1 <= dsize
    ensures var s := Run(capacity, dsize, events);
      s.popped <= |s.pushed| <= s.popped + capacity - 1
      && (s.popped > 0 ==> 0 <= s.last && s.last + dsize <= |s.ring.buf|
                           && s.ring.buf[s.last..s.last + dsize] == s.pushed[s.popped - 1])
  {
    var s := Run(capacity, dsize, events);
    if s.popped > 0 { assert SlotHas(s.ring, s.popped - 1, s.pushed[s.popped - 1]); }
  }

  /** An offer is refused exactly when capacity - 1 items wait, and a look finds nothing exactly
      when none waits. */
  lemma RefusedExactly(capacity: nat, dsize: nat, events: seq<Event>, data: seq<int>)
    requires 1 <= capacity && 1 <= dsize && |data| == dsize
    ensures var s := Run(capacity, dsize, events);
      (s.producer.Ready? ==> (Step(s, Offer(data)).producer.Copying? <==> |s.pushed| - s.popped < capacity - 1))
      && (s.consumer.Waiting? ==> (Step(s, Look).consumer.Taking? <==> s.popped < |s.pushed|))
  {
    var s := Run(capacity, dsize, events);
    TestsExact(s.ring, s.pushed, s.popped);
  }

  /** Items are never reordered, dropped or duplicated: a step only appends to what was pushed. */
  lemma PushedGrows(capacity: nat, dsize: nat, events: seq<Event>, e: Event)
    requires 1 <= capacity && 1 <= dsize
    ensures var s, t := Run(capacity, dsize, events), Run(capacity, dsize, events + [e]);
      s.pushed <= t.pushed && |t.pushed| <= |s.pushed| + 1 && s.popped <= t.popped <= s.popped + 1
  {
    assert (events + [e])[..|events|] == events;
  }

  // ---------- The calls themselves ----------

  class RingBuffer {
    const capacity: nat
    const dsize: nat
    var head: nat
    var tail: nat
    const buf: array<int>
    ghost var pushed: seq<seq<int>>
    ghost var popped: nat

    ghost function View(): Ring
      reads this, buf
    {
      Ring(capacity, dsize, head, tail, buf[..])
    }

    ghost predicate Valid()
      reads this, buf
    {
      RingOk(View(), pushed, popped)
    }

    /** The items waiting, oldest first. */
    ghost function Items(): seq<seq<int>>
      requires popped <= |pushed|
      reads this
    {
      pushed[popped..]
    }

    constructor (capacity: nat, dsize: nat)
      requires 1 <= capacity && 1 <= dsize
      ensures Valid() && fresh(buf) && Items() == [] && this.capacity == capacity && this.dsize == dsize
    {
      this.capacity := capacity;
      this.dsize := dsize;
      buf := new int[capacity * dsize](_ => 0);
      head, tail := 0, 0;
      pushed, popped := [], 0;
      new;
      StartOk(capacity, dsize);
    }

    /** memcpy into the slot at the tail. */
    method CopyIn(data: seq<int>)
      requires Valid() && |data| == dsize && |pushed| < popped + capacity - 1
      modifies buf
      ensures Valid() && SlotHas(View(), |pushed|, data)
    {
      hide RingOk;
      RingShape(View(), pushed, popped);
      var j := 0;
      while j < dsize
        invariant 0 <= j <= dsize && Valid() && tail + dsize <= buf.Length
        invariant buf[tail..tail + j] == data[..j]
      {
        WriteKeeps(View(), pushed, popped, j, data[j]);
        ghost var before := buf[..];
        buf[tail + j] := data[j];
        assert buf[..] == before[tail + j := data[j]];
        assert buf[tail..tail + j + 1] == before[tail..tail + j] + [data[j]];
        j := j + 1;
      }
      assert data[..dsize] == data;
    }

    /** Appends the item unless capacity - 1 items are waiting. */
    method Queue(data: seq<int>) returns (code: int)
      requires Valid() && |data| == dsize
      modifies this`tail, this`pushed, buf
      ensures Valid() && code == if |old(Items())| == capacity - 1 then -1 else 0
      ensures Items() == if code == 0 then old(Items()) + [data] else old(Items())
      ensures code == -1 ==> buf[..] == old(buf[..])
      ensures popped > 0 ==>
        SlotHas(View(), popped - 1, pushed[popped - 1]) && pushed[popped - 1] == old(pushed[popped - 1])
    {
      hide Place, SlotHas;
      TestsExact(View(), pushed, popped);
      if (tail + dsize) % (capacity * dsize) == head {
        return -1;
      }
      CopyIn(data);
      PublishKeeps(View(), pushed, popped, data);
      tail := (tail + dsize) % (capacity * dsize);
      pushed := pushed + [data];
      return 0;
    }

    /** Where the oldest item lies, or -1 when none waits. */
    method Dequeue() returns (ptr: int)
      requires Valid()
      modifies this`head, this`popped
      ensures Valid() && (ptr == -1 <==> old(Items()) == [])
      ensures ptr != -1 ==>
        0 <= ptr && ptr + dsize <= buf.Length
        && buf[ptr..ptr + dsize] == old(Items()[0]) && Items() == old(Items()[1..])
      ensures ptr == -1 ==> Items() == old(Items())
    {
      TestsExact(View(), pushed, popped);
      ptr := -1;
      if head != tail {
        ptr := head;
        AdvanceKeeps(View(), pushed, popped);
        assert SlotHas(View(), popped, pushed[popped]);
        head := (head + dsize) % (capacity * dsize);
        popped := popped + 1;
      }
    }
  }

  lemma RingShape(r: Ring, pushed: seq<seq<int>>, popped: nat)
    requires RingOk(r, pushed, popped)
    ensures r.capacity != 0 && r.tail == Place(r, |pushed|) && r.tail + r.dsize <= |r.buf|
  {
    PlaceInside(r, |pushed|);
  }
}
