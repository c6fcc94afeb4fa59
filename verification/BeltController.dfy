/** The critical sections of include/Belt.h on the segment itself: an array used as a ring, and
    counters updated in place. */
module BeltController {
  import opened Shared
  import BeltRing
  import opened Segment

  class Belt {
    const shm: SharedState?

    constructor (shm: SharedState?)
      ensures this.shm == shm
    {
      this.shm := shm;
    }

    ghost predicate Valid()
      reads shm
    {
      shm != null ==> shm.Valid()
    }

    ghost function Here(): set<SharedState> {
      if shm == null then {} else {shm}
    }

    ghost function Slots(): set<object> {
      if shm == null then {} else {shm.belt}
    }

    /** What `simulateWorkLoad` sleeps, in milliseconds. */
    method WorkLoadDelay() returns (delay: int)
      ensures shm == null ==> delay == 0
      ensures shm != null && shm.workers > 0 ==> delay * shm.workers <= 500 < (delay + 1) * shm.workers
      ensures shm != null && 0 < shm.workers <= 100 ==> 5 <= delay <= 500
      ensures shm != null && shm.workers <= 0 ==> delay == 100
    {
      if shm == null {
        return 0;
      }
      if shm.workers <= 0 {
        return 100;
      }
      return 500 / shm.workers;
    }

    /** Registers one more worker unless there are already 100. */
    method RegisterWorker() returns (ok: bool)
      modifies Here()`workers
      ensures shm == null ==> !ok
      ensures shm != null ==> (shm.workers, ok) == BeltRing.Enroll(old(shm.workers))
      ensures ok <==> shm != null && old(shm.workers) < 100
      ensures shm != null ==> shm.workers == old(shm.workers) + if ok then 1 else 0
    {
      ok := false;
      if shm == null {
        return;
      }
      if shm.workers < MAX_WORKERS_PER_BELT {
        shm.workers := shm.workers + 1;
        ok := true;
      }
    }

    /** Removes a worker; the guard keeps the counter from going below zero. */
    method UnregisterWorker()
      modifies Here()`workers
      ensures shm != null ==> shm.workers == BeltRing.Dismiss(old(shm.workers))
      ensures shm != null ==> shm.workers == old(shm.workers) - if old(shm.workers) > 0 then 1 else 0
    {
      if shm == null {
        return;
      }
      if shm.workers > 0 {
        shm.workers := shm.workers - 1;
      }
    }

    /** `push`: the ring becomes what `BeltRing.Push` says; a package that is taken gets the next
        number and goes to the end of the queue. */
    method Push(pkg: Package) returns (p: Package, ok: bool)
      requires Valid()
      modifies Here()`tail, Here()`items, Here()`beltWeight, Here()`total, Slots()
      ensures Valid()
      ensures shm == null ==> !ok && p == pkg
      ensures shm != null ==> (shm.Ring(), ok) == old(BeltRing.Push(shm.Ring(), pkg))
      ensures ok ==> p == pkg.(id := shm.total)
      ensures !ok ==> p == pkg
      ensures shm != null && old(BeltRing.RingOk(shm.Ring())) ==> BeltRing.RingOk(shm.Ring())
      ensures shm != null && old(BeltRing.RingOk(shm.Ring())) ==>
        BeltRing.Window(shm.Ring()) == old(BeltRing.Window(shm.Ring())) + if ok then [p] else []
    {
      p, ok := pkg, false;
      if shm == null {
        return;
      }
      ghost var r := shm.Ring();
      BeltRing.AtIsModulo(r.tail, 1, shm.belt.Length);
      if shm.items < shm.belt.Length {
        shm.total := shm.total + 1;
        p := p.(id := shm.total);
        var currentTail := shm.tail;
        shm.belt[currentTail] := p;
        shm.tail := (currentTail + 1) % shm.belt.Length;
        shm.items := shm.items + 1;
        shm.beltWeight := shm.beltWeight + p.weight;
        ok := true;
      }
      assert (shm.Ring(), ok) == BeltRing.Push(r, pkg);
      if BeltRing.RingOk(r) {
        BeltRing.PushEnqueues(r, pkg);
      }
    }

    /** `pop`: the ring becomes what `BeltRing.Pop` says; the package returned is the oldest, and
        its slot is cleared. */
    method Pop() returns (p: Package)
      requires Valid()
      modifies Here()`head, Here()`items, Here()`beltWeight, Slots()
      ensures Valid()
      ensures shm == null ==> p == ZERO_PACKAGE
      ensures shm != null ==> (shm.Ring(), p) == old(BeltRing.Pop(shm.Ring()))
      ensures shm != null && old(BeltRing.RingOk(shm.Ring())) ==> BeltRing.RingOk(shm.Ring())
      ensures shm != null && old(BeltRing.RingOk(shm.Ring()) && BeltRing.Window(shm.Ring()) != []) ==>
        [p] + BeltRing.Window(shm.Ring()) == old(BeltRing.Window(shm.Ring()))
    {
      if shm == null || shm.items <= 0 {
        return ZERO_PACKAGE;
      }
      ghost var r := shm.Ring();
      BeltRing.AtIsModulo(r.head, 1, shm.belt.Length);
      var currentHead := shm.head;
      p := shm.belt[currentHead];
      shm.belt[currentHead] := ZERO_PACKAGE;
      shm.head := (currentHead + 1) % shm.belt.Length;
      shm.items := shm.items - 1;
      shm.beltWeight := shm.beltWeight - p.weight;
      assert (shm.Ring(), p) == BeltRing.Pop(r);
      if BeltRing.RingOk(r) {
        BeltRing.PopDequeues(r);
      }
    }
  }
}
