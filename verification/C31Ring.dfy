/** The bounded trace of the core: a ring that holds the end of an unbounded log. */
module C31Ring {
  import opened C31Types
  import opened C31Model

  /** The place `k` behind the head, for a head and a distance inside the ring. */
  function Place(head: nat, k: nat, n: nat): (r: nat)
    requires head < n && k < n
    ensures r < n
  {
    if head + k < n then head + k else head + k - n
  }

  /** The entry a reader sees at an ordinal. */
  function RingAt(ring: seq<Entry>, head: nat, k: nat): Entry
    requires head < |ring| && k < |ring|
  {
    ring[Place(head, k, |ring|)]
  }

  /** The ring holds the last entries of the log, oldest first from its head. */
  ghost predicate RingHolds(ring: seq<Entry>, head: nat, count: nat, log: seq<Entry>)
  {
    && head < |ring| && count == (if |log| < |ring| then |log| else |ring|)
    && forall k :: 0 <= k < count ==> RingAt(ring, head, k) == log[|log| - count + k]
  }

  /** The log's entries carry consecutive numbers from one. */
  ghost predicate Numbered(log: seq<Entry>)
  {
    forall k :: 0 <= k < |log| ==> log[k].sequence == k + 1
  }

  /** Where the next entry goes, and the head and count it leaves. */
  function PushIndex(size: nat, head: nat, count: nat): (r: nat)
    requires head < size && count <= size
    ensures r < size
  {
    if count < size then Wrap(head + count, size) else head
  }

  /** Reducing an index to the ring is taking that place. */
  lemma WrapIsPlace(head: nat, k: nat, n: nat)
    requires head < n && k < n
    ensures Wrap(head + k, n) == Place(head, k, n)
  {
  }

  lemma PushNotFull(ring: seq<Entry>, head: nat, count: nat, log: seq<Entry>, e: Entry)
    requires RingHolds(ring, head, count, log) && count < |ring|
    ensures RingHolds(ring[Place(head, count, |ring|) := e], head, count + 1, log + [e])
  {
    var n := |ring|;
    var after := ring[Place(head, count, n) := e];
    forall k | 0 <= k <= count ensures RingAt(after, head, k) == (log + [e])[k] {
      if k < count {
        assert RingAt(ring, head, k) == log[k];
      }
    }
  }

  function Next(head: nat, n: nat): (r: nat)
    requires head < n
    ensures r < n
  {
    if head + 1 < n then head + 1 else 0
  }

  lemma PushFull(ring: seq<Entry>, head: nat, log: seq<Entry>, e: Entry)
    requires RingHolds(ring, head, |ring|, log)
    ensures RingHolds(ring[head := e], Next(head, |ring|), |ring|, log + [e])
  {
    var n, next, after := |ring|, Next(head, |ring|), ring[head := e];
    forall k | 0 <= k < n ensures RingAt(after, next, k) == (log + [e])[|log| + 1 - n + k] {
      assert k + 1 < n ==> RingAt(ring, head, k + 1) == log[|log| - n + (k + 1)];
    }
  }

  lemma RingPush(ring: seq<Entry>, head: nat, count: nat, log: seq<Entry>, e: Entry)
    requires RingHolds(ring, head, count, log)
    ensures var full := count == |ring|;
      RingHolds(ring[PushIndex(|ring|, head, count) := e], if full then Wrap(head + 1, |ring|) else head,
                if full then count else count + 1, log + [e])
  {
    if count < |ring| {
      WrapIsPlace(head, count, |ring|);
      PushNotFull(ring, head, count, log, e);
    } else {
      assert Wrap(head + 1, |ring|) == Next(head, |ring|);
      PushFull(ring, head, log, e);
    }
  }
}
