/** The circular buffer of include/Belt.h as a value: the critical sections of `push` and
    `pop`, and the proof that they refine a bounded first-in first-out queue. */
module BeltRing {
  import opened Shared

  datatype Ring = Ring(slots: seq<Package>, head: int, tail: int, count: int, weight: real, total: int)

  /** The zeroed segment (include/Manager.h:128) with a belt of `capacity` slots. */
  function EmptyRing(capacity: nat): Ring {
    Ring(seq(capacity, _ => ZERO_PACKAGE), 0, 0, 0, 0.0, 0)
  }

  /** Position of the `j`-th package counted from `head`: `(head + j) mod K`, see `AtIsModulo`. */
  function At(head: int, j: int, capacity: int): int {
    if head + j < capacity then head + j else head + j - capacity
  }

  lemma AtIsModulo(head: int, j: int, capacity: int)
    requires 0 <= head < capacity && 0 <= j <= capacity
    ensures At(head, j, capacity) == (head + j) % capacity
  {
  }

  /** What holds of the ring whenever the belt mutex is free: `tail` is `count` slots after `head`
      and every slot outside that window is zeroed. */
  ghost predicate RingOk(r: Ring) {
    && 0 <= r.head < |r.slots|
    && 0 <= r.count <= |r.slots|
    && r.tail == At(r.head, r.count, |r.slots|)
    && (forall j :: r.count <= j < |r.slots| ==> r.slots[At(r.head, j, |r.slots|)] == ZERO_PACKAGE)
    && r.weight == Weight(Window(r))
  }

  /** The abstract queue: the packages on the belt, oldest first. */
  function Window(r: Ring): (w: seq<Package>)
    requires 0 <= r.head < |r.slots| && 0 <= r.count <= |r.slots|
    ensures |w| == r.count
    ensures forall j :: 0 <= j < r.count ==> w[j] == r.slots[At(r.head, j, |r.slots|)]
  {
    seq(r.count, j requires 0 <= j < r.count => r.slots[At(r.head, j, |r.slots|)])
  }

  /** Critical section of `push` (include/Belt.h:166-185). */
  function Push(r: Ring, p: Package): (res: (Ring, bool))
    requires 0 <= r.tail < |r.slots|
  {
    if r.count >= |r.slots| then
      (r, false)
    else
      var stored := p.(id := r.total + 1);
      (Ring(r.slots[r.tail := stored], r.head, At(r.tail, 1, |r.slots|),
            r.count + 1, r.weight + stored.weight, r.total + 1), true)
  }

  /** Critical section of `pop` (include/Belt.h:217-232). */
  function Pop(r: Ring): (res: (Ring, Package))
    requires 0 <= r.head < |r.slots|
  {
    if r.count <= 0 then
      (r, ZERO_PACKAGE)
    else
      var p := r.slots[r.head];
      (Ring(r.slots[r.head := ZERO_PACKAGE], At(r.head, 1, |r.slots|), r.tail,
            r.count - 1, r.weight - p.weight, r.total), p)
  }

  /** `registerWorker` on the worker counter (include/Belt.h:110-115). */
  function Enroll(workers: int): (int, bool) {
    if workers < MAX_WORKERS_PER_BELT then (workers + 1, true) else (workers, false)
  }

  /** `unregisterWorker` (include/Belt.h:130-134). */
  function Dismiss(workers: int): int {
    if workers > 0 then workers - 1 else workers
  }

  lemma EmptyRingOk(capacity: nat)
    requires capacity > 0
    ensures RingOk(EmptyRing(capacity)) && Window(EmptyRing(capacity)) == []
  {
  }

  /** `push` appends: it succeeds exactly when there is room, hands out the next identifier,
      and enqueues the package behind all others. */
  lemma PushEnqueues(r: Ring, p: Package)
    requires RingOk(r)
    ensures var (r', ok) := Push(r, p);
      && RingOk(r') && |r'.slots| == |r.slots|
      && (ok <==> |Window(r)| < |r.slots|)
      && (ok ==> Window(r') == Window(r) + [p.(id := r.total + 1)] && r'.total == r.total + 1)
      && (!ok ==> r' == r)
  {
    var (r', ok) := Push(r, p);
    if ok {
      var n := |r.slots|;
      var stored := p.(id := r.total + 1);
      assert r.tail == At(r.head, r.count, n);
      forall j | 0 <= j < n && j != r.count
        ensures At(r.head, j, n) != r.tail
      {
      }
      assert Window(r') == Window(r) + [stored];
      WeightAppend(Window(r), stored);
    }
  }

  /** `pop` dequeues: on a non-empty belt it returns the oldest package and leaves the rest in order. */
  lemma PopDequeues(r: Ring)
    requires RingOk(r)
    ensures var (r', p) := Pop(r);
      && RingOk(r') && |r'.slots| == |r.slots| && r'.total == r.total
      && (Window(r) != [] ==> p == Window(r)[0] && Window(r') == Window(r)[1..])
      && (Window(r) == [] ==> p == ZERO_PACKAGE && r' == r)
  {
    var (r', p) := Pop(r);
    if r.count > 0 {
      var n := |r.slots|;
      assert At(r.head, 0, n) == r.head;
      forall j | 0 <= j < n
        ensures At(r'.head, j, n) == if j + 1 < n then At(r.head, j + 1, n) else r.head
      {
      }
      assert Window(r') == Window(r)[1..];
    }
  }

  /** The packages pushed so far are worker-made and numbered 1, 2, ... in order; those popped
      are a prefix of them and the ring holds the rest. */
  ghost predicate History(r: Ring, pushed: seq<Package>, popped: seq<Package>) {
    && RingOk(r)
    && pushed == popped + Window(r)
    && r.total == |pushed|
    && (forall i :: 0 <= i < |pushed| ==> pushed[i].id == i + 1 && WorkerMade(pushed[i]))
  }

  lemma PushHistory(r: Ring, p: Package, pushed: seq<Package>, popped: seq<Package>)
    requires History(r, pushed, popped) && WorkerMade(p)
    ensures var (r', ok) := Push(r, p);
      |r'.slots| == |r.slots| && History(r', if ok then pushed + [p.(id := r'.total)] else pushed, popped)
  {
    PushEnqueues(r, p);
    var (r', ok) := Push(r, p);
    if ok {
      var stored := p.(id := r'.total);
      assert pushed + [stored] == popped + Window(r');
    }
  }

  /** The i-th successful pop returns the package with identifier i. */
  lemma PopHistory(r: Ring, pushed: seq<Package>, popped: seq<Package>)
    requires History(r, pushed, popped)
    ensures var (r', p) := Pop(r);
      && |r'.slots| == |r.slots|
      && (r.count > 0 ==> History(r', pushed, popped + [p]) && p.id == |popped| + 1 && WorkerMade(p))
      && (r.count <= 0 ==> r' == r && p == ZERO_PACKAGE)
  {
    PopDequeues(r);
    var (r', p) := Pop(r);
    if r.count > 0 {
      assert Window(r) == [p] + Window(r');
      assert pushed[|popped|] == p;
      assert popped + [p] + Window(r') == popped + Window(r);
    }
  }

  /** The belt never carries more than 25 kg per slot. */
  lemma WindowWeight(r: Ring, pushed: seq<Package>, popped: seq<Package>)
    requires History(r, pushed, popped)
    ensures r.weight == Weight(Window(r)) <= 25.0 * |r.slots| as real
  {
    forall i | 0 <= i < r.count
      ensures Window(r)[i].weight <= 25.0
    {
      assert pushed[|popped| + i] == Window(r)[i];
    }
    WeightAtMost(Window(r), 25.0);
  }
}
