/** The belt's mass limit. `push` promises to enforce it (include/Belt.h:144-147) but never looks
    at it; whether it holds depends on the number of slots alone. */
module MassLimit {
  import opened Shared
  import opened SessionTable
  import BeltRing
  import opened Protocol
  import opened Runs
  import BeltTheorems

  const HEAVY := Package(0, 1, TypeC, 24.5, VOL_C)

  /** A lone worker, process 1, logged in and registered, with `n` packages of 24.5 kg on the belt. */
  ghost predicate Ready(s: State, capacity: nat, n: nat) {
    && Working(s, capacity, 1) && s.procs.Keys == {1} && s.procs[1].name == "Worker_1" && s.sh.running && s.sh.empty == capacity - n
    && s.sh.belt.ring.count == n && s.sh.belt.ring.weight == 24.5 * n as real
  }

  /** From the start: the worker is started, logs in and registers. */
  lemma Start(capacity: nat) returns (s: State)
    requires capacity > 0
    ensures Ready(s, capacity, 0)
  {
    StartCalm(capacity);
    hide Calm, Stored;
    var slot;
    s, slot := Join(Init(capacity), capacity, 1, Worker, "Worker_1", {Operator}, 0);
    s := SignUp(s, capacity, 1);
  }

  lemma {:induction false} FillBelt(capacity: nat, n: nat) returns (s: State)
    requires n <= capacity && capacity > 0
    ensures Ready(s, capacity, n)
  {
    if n == 0 {
      s := Start(capacity);
    } else {
      hide Ready;
      s := FillBelt(capacity, n - 1);
      s := AddHeavy(s, capacity, n - 1);
    }
  }

  lemma AddHeavy(s: State, capacity: nat, n: nat) returns (s': State)
    requires Ready(s, capacity, n) && n < capacity
    ensures Ready(s', capacity, n + 1)
  {
    hide Calm, BeltRing.Window;
    s' := Produce(s, capacity, 1, HEAVY);
  }

  /** The mass limit of 1000 kg holds in all runs exactly if the belt has at most 40 slots. */
  lemma MassLimitHoldsExactlyWhen(capacity: nat)
    requires capacity > 0
    ensures (forall s :: Reachable(s, capacity) ==> s.sh.belt.ring.weight <= MAX_BELT_WEIGHT_M) <==> capacity <= 40
  {
    hide Reachable;
    if capacity <= 40 {
      forall s | Reachable(s, capacity)
        ensures s.sh.belt.ring.weight <= MAX_BELT_WEIGHT_M
      {
        BeltTheorems.BeltMass(s, capacity);
      }
    } else {
      var s := FillBelt(capacity, 41);
      CalmReaches(s, capacity);
      assert s.sh.belt.ring.weight == 1004.5;
    }
  }
}
