/** What holds of the belt in every reachable state of the warehouse. */
module BeltTheorems {
  import opened Shared
  import opened Counting
  import opened SessionTable
  import BeltRing
  import Ledger
  import opened Protocol
  import opened Structure
  import opened Exclusion
  import opened Floor
  import opened Registry
  import opened Accounts
  import opened Safety

  /** Conservation: empty tokens, full tokens and the operations in flight add up to K, plus one
      for every interrupted wait. The number of packages is what the full tokens and the
      operations on them say. */
  lemma TokensConserved(s: State, capacity: nat)
    requires Reachable(s, capacity)
    ensures s.sh.empty + s.sh.full + Count(s.procs, OwesEmpty) + Count(s.procs, OwesFull)
            == capacity + s.sh.log.emptyInterrupts + s.sh.log.fullInterrupts
    ensures s.sh.belt.ring.count + s.sh.log.fullInterrupts == s.sh.full + Count(s.procs, OwesFull)
    ensures BeltRing.RingOk(s.sh.belt.ring) && capacity > 0
  {
    hide Reachable, BaseOk, RegistryOk, WorkersOk, PackagesOk;
    ReachableInv(s, capacity);
  }

  /** The "belt full" branch of `push` is dead as long as no wait on the empty slots was
      interrupted: the package is stored and gets the next number. */
  lemma PushIsNeverRefused(s: State, capacity: nat, pid: int, c: Choice)
    requires Reachable(s, capacity) && s.sh.log.emptyInterrupts == 0
    requires pid in s.procs && s.procs[pid].pc.DoBelt? && s.procs[pid].pc.bop.Push?
    ensures s.sh.belt.ring.count < capacity
    ensures var m := ProcStep(s.sh, pid, s.procs[pid], c);
      m.Some? && m.value.q.pc == UnlockBelt(PutFull) && m.value.sh.belt.ring.total == s.sh.belt.ring.total + 1
  {
    hide Reachable, ProcStep, RegistryOk, AccountsOk, BeltRing.Window;
    ReachableInv(s, capacity);
    CountOne(s.procs, pid, OwesEmpty);
    assert ProcOk(s.procs[pid]) && Fresh(s.sh, s.procs[pid]);
    PushProceeds(s.sh, pid, s.procs[pid], c);
  }

  lemma PushProceeds(s: Memory, pid: int, q: Proc, c: Choice)
    requires q.pc == DoBelt(Push, s.belt) && |q.pkg| == 1
    requires 0 <= s.belt.ring.tail < |s.belt.ring.slots| && s.belt.ring.count < |s.belt.ring.slots|
    ensures var m := ProcStep(s, pid, q, c);
      m.Some? && m.value.q.pc == UnlockBelt(PutFull) && m.value.sh.belt.ring.total == s.belt.ring.total + 1
  {
  }

  /** Likewise the "belt empty" branch of `pop`: the dispatcher gets a numbered package, so its
      branch for identifier 0 is dead too. */
  lemma PopIsNeverEmpty(s: State, capacity: nat, pid: int, c: Choice)
    requires Reachable(s, capacity) && s.sh.log.fullInterrupts == 0
    requires pid in s.procs && s.procs[pid].pc.DoBelt? && s.procs[pid].pc.bop.Pop?
    ensures var m := ProcStep(s.sh, pid, s.procs[pid], c);
      m.Some? && m.value.q.pc == UnlockBelt(FreeEmpty) && |m.value.q.pkg| == 1 && m.value.q.pkg[0].id == |s.sh.log.popped| + 1
  {
    hide Reachable, ProcStep, RegistryOk, AccountsOk, BeltRing.Window;
    ReachableInv(s, capacity);
    CountOne(s.procs, pid, OwesFull);
    assert Fresh(s.sh, s.procs[pid]);
    PopProceeds(s.sh, pid, s.procs[pid], c);
  }

  lemma PopProceeds(s: Memory, pid: int, q: Proc, c: Choice)
    requires q.pc == DoBelt(Pop, s.belt) && s.belt.ring.count > 0 && QueueOk(s)
    ensures var m := ProcStep(s, pid, q, c);
      m.Some? && m.value.q.pc == UnlockBelt(FreeEmpty) && |m.value.q.pkg| == 1 && m.value.q.pkg[0].id == |s.log.popped| + 1
  {
    assert BeltRing.RingOk(s.belt.ring);
    BeltRing.PopHistory(s.belt.ring, s.log.pushed, s.log.popped);
    hide BeltRing.History, BeltRing.Window;
  }

  /** First in, first out, whatever the interleaving: packages are numbered in the order of their
      insertion, the i-th successful pop returned package i, and the ring holds the others. */
  lemma BeltIsFifo(s: State, capacity: nat)
    requires Reachable(s, capacity)
    ensures var r := s.sh.belt.ring;
      && BeltRing.RingOk(r) && r.tail == (r.head + r.count) % capacity
      && r.total == |s.sh.log.pushed| && Ids(s.sh.log.pushed) == UpTo(r.total)
      && s.sh.log.pushed == s.sh.log.popped + BeltRing.Window(r)
      && forall i :: 0 <= i < |s.sh.log.popped| ==> s.sh.log.popped[i].id == i + 1
  {
    hide Reachable, BaseOk, RegistryOk, WorkersOk, PackagesOk, TokensOk;
    ReachableInv(s, capacity);
    var r, log := s.sh.belt.ring, s.sh.log;
    BeltRing.AtIsModulo(r.head, r.count, capacity);
    forall i | 0 <= i < |log.popped|
      ensures log.popped[i].id == i + 1
    {
      assert log.pushed[i] == log.popped[i];
    }
  }

  /** Every package ever created is accounted for, in the order of creation: first those on
      trucks, then the one dropped at shutdown, then the one in the dispatcher's hand, then those
      on the belt. Nothing is dropped while the system runs, and at most one package ever. */
  lemma PackagesAccounted(s: State, capacity: nat)
    requires Reachable(s, capacity)
    ensures BeltRing.RingOk(s.sh.belt.ring) && s.sh.belt.ring.total >= 0
    ensures Ledger.BeltIds(s.sh.dock.accepted) + Ids(s.sh.log.dropped) + Ids(s.sh.log.hand)
            + Ids(BeltRing.Window(s.sh.belt.ring)) == UpTo(s.sh.belt.ring.total)
    ensures |s.sh.log.dropped| <= 1 && |s.sh.log.hand| <= 1 && (s.sh.running ==> s.sh.log.dropped == [])
    ensures Ledger.BeltIds(s.sh.dock.accepted) == UpTo(|Ledger.BeltIds(s.sh.dock.accepted)|)
  {
    hide Reachable, RegistryOk, FloorOk, BaseOk, HandOk, Ledger.BeltIds;
    BeltIsFifo(s, capacity);
    ReachableInv(s, capacity);
    assert |s.sh.log.hand| <= 1 by { HandIsSmall(s); }
    Concatenated(s.sh.log, Ledger.BeltIds(s.sh.dock.accepted), BeltRing.Window(s.sh.belt.ring));
  }

  lemma HandIsSmall(s: State)
    requires HandOk(s)
    ensures |s.sh.log.hand| <= 1
  {
  }

  lemma Concatenated(log: Log, loaded: seq<int>, window: seq<Package>)
    requires log.pushed == log.popped + window && Ids(log.pushed) == UpTo(|log.pushed|)
    requires Ids(log.popped) == loaded + Ids(log.dropped) + Ids(log.hand)
    ensures loaded + Ids(log.dropped) + Ids(log.hand) + Ids(window) == UpTo(|log.pushed|)
    ensures loaded == UpTo(|loaded|)
  {
    assert Ids(log.pushed) == Ids(log.popped) + Ids(window);
    forall i | 0 <= i < |loaded|
      ensures loaded[i] == i + 1
    {
      assert Ids(log.pushed)[i] == Ids(log.popped)[i] == loaded[i];
    }
  }

  /** The counter of registered workers is exact and at most 100; the test-then-divide of
      `simulateWorkLoad`, which takes no lock, never takes the idle branch and never divides by
      zero. */
  lemma WorkerCountExact(s: State, capacity: nat)
    requires Reachable(s, capacity)
    ensures s.sh.belt.workers == Count(s.procs, Registered) <= MAX_WORKERS_PER_BELT
    ensures forall p :: p in s.procs ==> !Place(s.procs[p].pc).Crashed?
    ensures forall p :: p in s.procs && (Place(s.procs[p].pc).LoadTest? || Place(s.procs[p].pc).LoadDivide?) ==> s.sh.belt.workers >= 1
    ensures forall p :: p in s.procs && Place(s.procs[p].pc) == WantBelt(Unregister) ==> s.sh.belt.workers >= 1
  {
    hide Reachable, BaseOk, RegistryOk, PackagesOk, TokensOk;
    ReachableInv(s, capacity);
    forall p | p in s.procs && Registered(s.procs[p])
      ensures s.sh.belt.workers >= 1
    {
      CountOne(s.procs, p, Registered);
    }
  }

  /** The mass on the belt is the sum over its packages and at most 25 kg per slot, although
      `push` never looks at the limit; so the limit of 1000 kg holds for up to 40 slots. */
  lemma BeltMass(s: State, capacity: nat)
    requires Reachable(s, capacity)
    ensures BeltRing.RingOk(s.sh.belt.ring)
    ensures s.sh.belt.ring.weight == Weight(BeltRing.Window(s.sh.belt.ring)) <= 25.0 * capacity as real
    ensures capacity <= 40 ==> s.sh.belt.ring.weight <= MAX_BELT_WEIGHT_M
  {
    hide Reachable, BaseOk, RegistryOk, WorkersOk, PackagesOk, TokensOk;
    ReachableInv(s, capacity);
    BeltRing.WindowWeight(s.sh.belt.ring, s.sh.log.pushed, s.sh.log.popped);
  }

  /** A process inside a critical section is never blocked: it has an enabled step. */
  lemma HolderCanMove(s: State, capacity: nat, pid: int) returns (c: Choice)
    requires Reachable(s, capacity) && pid in s.procs && !s.procs[pid].pc.At?
    ensures ProcStep(s.sh, pid, s.procs[pid], c).Some? && !c.Interrupt?
  {
    hide Reachable, ProcStep, RegistryOk, AccountsOk, TokensOk, WorkersOk;
    ReachableInv(s, capacity);
    assert ProcOk(s.procs[pid]) && Fresh(s.sh, s.procs[pid]);
    c := Unblocked(s.sh, pid, s.procs[pid]);
  }

  lemma Unblocked(s: Memory, pid: int, q: Proc) returns (c: Choice)
    requires ProcOk(q) && Fresh(s, q) && !q.pc.At? && BeltRing.RingOk(s.belt.ring)
    ensures ProcStep(s, pid, q, c).Some? && !c.Interrupt?
  {
    hide BeltRing.Window, BeltRing.Push, BeltRing.Pop, LoginSlot, Ledger.LoadPackage, Ledger.LoadBatch;
    c := Go;
    if q.pc.DoDock? {
      match q.pc.dop
      case Claim => c := Specs(200.0, 1.0);
      case Batch =>
        var it := Docking.Item(0, 1.0, VOL_A);
        c := Items([it, it, it]);
      case Load =>
      case _ =>
    } else if q.pc.DoBelt? {
      match q.pc.bop
      case Login =>
      case Push =>
      case Pop =>
      case _ =>
    }
  }

  /** Mutual exclusion: each mutex is worth 1 exactly when nobody is inside, has at most one
      process inside, and nobody is ever inside both. */
  lemma MutualExclusion(s: State, capacity: nat, p: int, r: int)
    requires Reachable(s, capacity) && p in s.procs && r in s.procs
    ensures s.sh.beltMutex + Count(s.procs, BeltHolder) == 1 && s.sh.dockMutex + Count(s.procs, DockHolder) == 1
    ensures HoldsBelt(s.procs[p].pc) && HoldsBelt(s.procs[r].pc) ==> p == r
    ensures HoldsDock(s.procs[p].pc) && HoldsDock(s.procs[r].pc) ==> p == r
    ensures !(HoldsBelt(s.procs[p].pc) && HoldsDock(s.procs[p].pc))
  {
    hide Reachable, FloorOk, RegistryOk, AccountsOk;
    ReachableInv(s, capacity);
    if p != r {
      Exclusive(s, p, r);
    }
  }

  /** Critical sections are atomic: although a process writes from a copy that it read some steps
      earlier, the copy is still current, so each step of a critical section is the method of the
      same name applied to the shared data as they are. */
  lemma SectionsAreAtomic(s: State, capacity: nat, pid: int, c: Choice)
    requires Reachable(s, capacity) && pid in s.procs
    ensures var q := s.procs[pid];
      && (q.pc.DoBelt? ==>
            ProcStep(s.sh, pid, q, c) ==
            if SessionOp(q.pc.bop) then SessionBody(s.sh, pid, q, q.pc.bop, s.sh.belt.users)
            else FloorBody(s.sh, q, q.pc.bop, s.sh.belt))
      && (q.pc.DoDock? ==>
            ProcStep(s.sh, pid, q, c) ==
            if q.pc.dop.Load? || q.pc.dop.Batch? then LoaderBody(s.sh, q, q.pc.dop, s.sh.dock, c)
            else TruckBody(s.sh, pid, q, q.pc.dop, s.sh.dock, c))
  {
    hide Reachable, FloorOk, RegistryOk, AccountsOk, ProcOk, SessionBody, FloorBody, LoaderBody, TruckBody;
    ReachableInv(s, capacity);
    assert Fresh(s.sh, s.procs[pid]);
  }

  /** In the belt protocol: waiting for a slot or a package, or carrying a token, or inside. */
  predicate InBeltProtocol(q: Proc) {
    OwesEmpty(q) || OwesFull(q) || HoldsBelt(q.pc) || Place(q.pc).WaitEmpty? || Place(q.pc).WaitFull?
  }

  /** The belt cannot deadlock: while a worker waits for a slot and the dispatcher for a package,
      some process in the belt protocol has an enabled step that is not an interruption. */
  lemma BeltNeverStuck(s: State, capacity: nat, w: int, d: int) returns (p: int, c: Choice)
    requires Reachable(s, capacity) && w in s.procs && d in s.procs
    requires s.procs[w].pc == At(WaitEmpty) && s.procs[d].pc == At(WaitFull)
    ensures p in s.procs && InBeltProtocol(s.procs[p]) && !c.Interrupt? && ProcStep(s.sh, p, s.procs[p], c).Some?
  {
    hide Reachable, ProcStep, FloorOk, RegistryOk, AccountsOk;
    c := Go;
    if s.sh.empty > 0 {
      p := w;
      WaitGoes(s.sh, p, s.procs[p]);
    } else if s.sh.full > 0 {
      p := d;
      WaitGoes(s.sh, p, s.procs[p]);
    } else {
      TokensConserved(s, capacity);
      var t: int;
      if Count(s.procs, OwesEmpty) > 0 {
        t := CountSome(s.procs, OwesEmpty);
      } else {
        t := CountSome(s.procs, OwesFull);
      }
      p, c := CarrierMoves(s, capacity, t);
    }
  }

  lemma WaitGoes(s: Memory, pid: int, q: Proc)
    requires (q.pc == At(WaitEmpty) && s.empty > 0) || (q.pc == At(WaitFull) && s.full > 0)
    ensures ProcStep(s, pid, q, Go).Some?
  {
  }

  lemma CarrierMoves(s: State, capacity: nat, t: int) returns (p: int, c: Choice)
    requires Reachable(s, capacity) && t in s.procs && (OwesEmpty(s.procs[t]) || OwesFull(s.procs[t]))
    ensures p in s.procs && InBeltProtocol(s.procs[p]) && !c.Interrupt? && ProcStep(s.sh, p, s.procs[p], c).Some?
  {
    hide Reachable, ProcStep, FloorOk, RegistryOk, AccountsOk;
    p, c := t, Go;
    if s.procs[t].pc.At? {
      if Place(s.procs[t].pc).WantBelt? && s.sh.beltMutex == 0 {
        ReachableInv(s, capacity);
        p := CountSome(s.procs, BeltHolder);
        c := HolderCanMove(s, capacity, p);
      } else {
        SignalGoes(s.sh, t, s.procs[t]);
      }
    } else {
      c := HolderCanMove(s, capacity, t);
    }
  }

  lemma SignalGoes(s: Memory, pid: int, q: Proc)
    requires q.pc.At? && (OwesEmpty(q) || OwesFull(q)) && (q.pc.point.WantBelt? ==> s.beltMutex > 0)
    ensures ProcStep(s, pid, q, Go).Some?
  {
  }
}
