/** server/ringbuf.go and flushAlertEvents of server/conn.go: alert events wait in a circular
    buffer that overwrites the oldest, and are sent in batches. */
module RingBuffer {
  import opened Basics

  const DEFAULT_CAPACITY := 1000
  const ALERT_FLUSH_BATCH := 100

  /** The abstract queue: bounded, and when full it drops its oldest element. */
  function Pushed<T>(q: seq<T>, x: T, capacity: nat): seq<T>
    requires capacity > 0
  {
    if |q| < capacity then q + [x] else q[1..] + [x]
  }

  /** How many elements a drain takes. */
  function Batch(count: nat, maxItems: nat): nat {
    if count > maxItems then maxItems else count
  }

  function Wrap(x: nat, capacity: nat): nat
    requires capacity > 0
  {
    if x < capacity then x else x - capacity
  }

  lemma {:induction false} WrapIsMod(x: nat, capacity: nat)
    requires 0 < capacity && x < 2 * capacity
    ensures x % capacity == Wrap(x, capacity)
  {
    var q := x / capacity;
    assert x == q * capacity + x % capacity;
    MulBounds(q, capacity);
  }

  lemma {:induction false} MulBounds(q: int, c: nat)
    ensures q >= 2 ==> q * c >= 2 * c
    ensures q <= 0 ==> q * c <= 0
  {}

  /** How far slot p lies behind slot tail. */
  function Distance(p: nat, tail: nat, capacity: nat): nat
    requires p < capacity && tail < capacity
  {
    if p >= tail then p - tail else p + capacity - tail
  }

  /** The slots at distances from .. |q| of tail hold q[from..]; every other slot is nil. */
  ghost predicate Laid<T>(slots: seq<Option<T>>, tail: nat, from: nat, q: seq<T>)
    requires tail < |slots|
  {
    forall p | 0 <= p < |slots| ::
      var d := Distance(p, tail, |slots|);
      slots[p] == if from <= d < |q| then Some(q[d]) else None
  }

  function TailOf(head: nat, count: nat, capacity: nat): (t: nat)
    requires head < capacity && count <= capacity
    ensures t < capacity
  {
    Wrap(head + capacity - count, capacity)
  }

  lemma {:induction false} LaidPush<T>(slots: seq<Option<T>>, head: nat, q: seq<T>, x: T)
    requires head < |slots| && |q| <= |slots| && Laid(slots, TailOf(head, |q|, |slots|), 0, q)
    ensures var r := Pushed(q, x, |slots|);
            Laid(slots[head := Some(x)], TailOf(Wrap(head + 1, |slots|), |r|, |slots|), 0, r)
  {}

  lemma {:induction false} LaidTake<T>(slots: seq<Option<T>>, tail: nat, i: nat, q: seq<T>)
    requires tail < |slots| && i < |q| <= |slots| && Laid(slots, tail, i, q)
    ensures var p := Wrap(tail + i, |slots|);
            slots[p] == Some(q[i]) && Laid(slots[p := None], tail, i + 1, q)
  {}

  lemma {:induction false} LaidDrop<T>(slots: seq<Option<T>>, head: nat, q: seq<T>, n: nat)
    requires head < |slots| && n <= |q| <= |slots| && Laid(slots, TailOf(head, |q|, |slots|), n, q)
    ensures Laid(slots, TailOf(head, |q| - n, |slots|), 0, q[n..])
  {}

  /** One turn of the loop of Drain: the i-th oldest element leaves its slot. */
  method TakeSlot<T>(buf: array<Option<T>>, tail: nat, i: nat, ghost q: seq<T>) returns (event: T)
    requires tail < buf.Length && i < |q| <= buf.Length && Laid(buf[..], tail, i, q)
    modifies buf
    ensures event == q[i] && Laid(buf[..], tail, i + 1, q)
  {
    LaidTake(buf[..], tail, i, q);
    WrapIsMod(tail + i, buf.Length);
    var idx := (tail + i) % buf.Length;
    event := buf[idx].value;
    ghost var slots := buf[..][idx := None];
    buf[idx] := None;
    assert buf[..] == slots;
  }

  /** The loop of Drain. */
  method TakeSlots<T>(buf: array<Option<T>>, tail: nat, n: nat, ghost q: seq<T>) returns (result: seq<T>)
    requires tail < buf.Length && n <= |q| <= buf.Length && Laid(buf[..], tail, 0, q)
    modifies buf
    ensures result == q[..n] && Laid(buf[..], tail, n, q)
  {
    result := [];
    for i := 0 to n
      invariant Laid(buf[..], tail, i, q)
      invariant result == q[..i]
    {
      var event := TakeSlot(buf, tail, i, q);
      result := result + [event];
    }
  }

  class Ring<T> {
    const buf: array<Option<T>>
    var head: nat
    var count: nat
    ghost var contents: seq<T>

    ghost predicate InBounds()
      reads this
    {
      0 < buf.Length && head < buf.Length && count <= buf.Length && |contents| == count
    }

    ghost predicate Valid()
      reads this, buf
    {
      InBounds() && Laid(buf[..], TailOf(head, count, buf.Length), 0, contents)
    }

    constructor (capacity: int)
      ensures Valid() && fresh(buf) && contents == []
      ensures buf.Length == if capacity <= 0 then 1000 else capacity
    {
      var n: nat := if capacity <= 0 then DEFAULT_CAPACITY else capacity;
      buf := new Option<T>[n](_ => None);
      head, count, contents := 0, 0, [];
    }

    method Push(event: T)
      requires Valid()
      modifies this, buf
      ensures Valid() && contents == Pushed(old(contents), event, buf.Length)
      ensures var all := old(contents) + [event];
              contents == if |all| <= buf.Length then all else all[1..]
    {
      LaidPush(buf[..], head, contents, event);
      WrapIsMod(head + 1, buf.Length);
      ghost var slots := buf[..][head := Some(event)];
      buf[head] := Some(event);
      assert buf[..] == slots;
      head := (head + 1) % buf.Length;
      contents := Pushed(contents, event, buf.Length);
      if count < buf.Length {
        count := count + 1;
      }
    }

    method Drain(maxItems: nat) returns (result: seq<T>)
      requires Valid()
      modifies this, buf
      ensures Valid()
      ensures var n := Batch(|old(contents)|, maxItems);
              result == old(contents)[..n] && contents == old(contents)[n..]
      ensures old(contents) == result + contents && |result| <= maxItems && (|result| == maxItems || contents == [])
    {
      if count == 0 {
        return [];
      }
      var n := count;
      if n > maxItems {
        n := maxItems;
      }
      WrapIsMod(head + buf.Length - count, buf.Length);
      var tail := (head - count + buf.Length) % buf.Length;
      result := TakeSlots(buf, tail, n, contents);
      LaidDrop(buf[..], head, contents, n);
      count := count - n;
      contents := contents[n..];
    }

    method Len() returns (n: nat)
      requires Valid()
      ensures n == |contents|
    {
      n := count;
    }
  }

  // ----- flushAlertEvents -----

  function Concat<T>(batches: seq<seq<T>>): seq<T> {
    if batches == [] then [] else Concat(batches[..|batches| - 1]) + batches[|batches| - 1]
  }

  lemma {:induction false} ConcatMore<T>(batches: seq<seq<T>>, batch: seq<T>)
    ensures Concat(batches + [batch]) == Concat(batches) + batch
  {
    var all := batches + [batch];
    assert all[..|batches|] == batches && all[|batches|] == batch;
  }

  /** One batch leaves the buffer; it is empty only when the buffer is. */
  method NextBatch<T>(ring: Ring<T>) returns (events: seq<T>)
    requires ring.Valid()
    modifies ring, ring.buf
    ensures ring.Valid() && old(ring.contents) == events + ring.contents
    ensures |events| <= 100 && (|events| == 100 || ring.contents == [])
  {
    events := ring.Drain(ALERT_FLUSH_BATCH);
  }

  /** One flush while nobody pushes.  delivered(i) tells whether the i-th batch gets into sendCh;
      the flush stops at the first batch that does not, which is lost. */
  method FlushAlertEvents<T>(ring: Ring<T>, delivered: nat -> bool) returns (sent: seq<seq<T>>, lost: seq<T>)
    requires ring.Valid()
    modifies ring, ring.buf
    ensures ring.Valid()
    ensures old(ring.contents) == Concat(sent) + (lost + ring.contents)
    ensures forall i | 0 <= i < |sent| :: 0 < |sent[i]| <= 100 && delivered(i)
    ensures forall i | 0 <= i < |sent| - 1 :: |sent[i]| == 100
    ensures lost == [] ==> ring.contents == []
    ensures lost != [] ==> !delivered(|sent|) && |lost| <= 100
  {
    sent, lost := [], [];
    while true
      invariant ring.Valid()
      invariant old(ring.contents) == Concat(sent) + ring.contents
      invariant forall i | 0 <= i < |sent| :: 0 < |sent[i]| <= 100 && delivered(i)
      invariant forall i | 0 <= i < |sent| :: |sent[i]| == 100 || (i == |sent| - 1 && ring.contents == [])
      decreases |ring.contents|
    {
      var events := NextBatch(ring);
      if |events| == 0 {
        return;
      }
      if !delivered(|sent|) {
        lost := events;
        return;
      }
      Assoc(Concat(sent), events, ring.contents);
      ConcatMore(sent, events);
      sent := sent + [events];
    }
  }

  // ----- any interleaving of pushes and flushed batches -----

  datatype Op<T> = Enqueue(x: T) | SendBatch(delivered: bool)

  datatype Trace<T> = Trace(queue: seq<T>, pushed: seq<T>, sent: seq<T>)

  function Do<T>(s: Trace<T>, op: Op<T>, capacity: nat): Trace<T>
    requires capacity > 0
  {
    match op
    case Enqueue(x) => s.(queue := Pushed(s.queue, x, capacity), pushed := s.pushed + [x])
    case SendBatch(delivered) =>
      var n := Batch(|s.queue|, ALERT_FLUSH_BATCH);
      s.(queue := s.queue[n..], sent := if delivered then s.sent + s.queue[..n] else s.sent)
  }

  function Run<T>(ops: seq<Op<T>>, capacity: nat): Trace<T>
    requires capacity > 0
  {
    if ops == [] then Trace([], [], []) else Do(Run(ops[..|ops| - 1], capacity), ops[|ops| - 1], capacity)
  }

  ghost predicate SentAt<T>(s: Trace<T>, positions: seq<nat>) {
    && |positions| == |s.sent|
    && (forall i, j | 0 <= i < j < |positions| :: positions[i] < positions[j])
    && (forall i | 0 <= i < |positions| ::
          positions[i] < |s.pushed| - |s.queue| && s.pushed[positions[i]] == s.sent[i])
  }

  /** The buffer never holds more than its capacity and always holds the newest pushes; what was
      sent are pushes older than those, in order, each at most once. */
  lemma {:induction false} SentIsSubsequence<T(!new)>(ops: seq<Op<T>>, capacity: nat) returns (positions: seq<nat>)
    requires capacity > 0
    ensures var s := Run(ops, capacity);
            && |s.queue| <= capacity && |s.queue| <= |s.pushed|
            && s.queue == s.pushed[|s.pushed| - |s.queue|..]
            && SentAt(s, positions)
  {
    positions := [];
    if ops != [] {
      var before := Run(ops[..|ops| - 1], capacity);
      positions := SentIsSubsequence(ops[..|ops| - 1], capacity);
      match ops[|ops| - 1]
      case Enqueue(x) =>
        PushKeepsNewest(before, x, capacity, positions);
      case SendBatch(delivered) =>
        BatchIsNext(before, positions);
        if delivered {
          positions := positions + Upwards(|before.pushed| - |before.queue|, Batch(|before.queue|, ALERT_FLUSH_BATCH));
        }
    }
  }

  lemma {:induction false} PushKeepsNewest<T>(s: Trace<T>, x: T, capacity: nat, positions: seq<nat>)
    requires 0 < capacity && |s.queue| <= capacity && |s.queue| <= |s.pushed|
    requires s.queue == s.pushed[|s.pushed| - |s.queue|..] && SentAt(s, positions)
    ensures var after := Do(s, Enqueue(x), capacity);
            && |after.queue| <= capacity && |after.queue| <= |after.pushed|
            && after.queue == after.pushed[|after.pushed| - |after.queue|..]
            && SentAt(after, positions)
  {}

  function Upwards(first: nat, n: nat): seq<nat> {
    seq(n, i requires 0 <= i < n => first + i)
  }

  lemma {:induction false} BatchIsNext<T>(s: Trace<T>, positions: seq<nat>)
    requires |s.queue| <= |s.pushed| && s.queue == s.pushed[|s.pushed| - |s.queue|..]
    requires SentAt(s, positions)
    ensures var n := Batch(|s.queue|, ALERT_FLUSH_BATCH);
            var after := s.(queue := s.queue[n..]);
            && SentAt(after, positions)
            && SentAt(after.(sent := s.sent + s.queue[..n]), positions + Upwards(|s.pushed| - |s.queue|, n))
            && after.queue == s.pushed[|s.pushed| - |after.queue|..]
  {}
}
