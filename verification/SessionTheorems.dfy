/** What holds of the session table in every reachable state of the warehouse. */
module SessionTheorems {
  import opened Shared
  import opened Counting
  import opened SessionTable
  import opened Protocol
  import opened Structure
  import opened Exclusion
  import opened Registry
  import opened Floor
  import opened Safety

  predicate LoggedIn(q: Proc) { q.slot >= 0 }

  /** A logged-in process owns an active slot under its own truncated name and pid; two of them
      have different slots and different truncated names, however long the names are. */
  lemma SessionsAreDistinct(s: State, capacity: nat, p: int, r: int)
    requires Reachable(s, capacity) && p in s.procs && r in s.procs && LoggedIn(s.procs[p]) && LoggedIn(s.procs[r])
    ensures var q := s.procs[p];
      && q.slot < |s.sh.belt.users| && s.sh.belt.users[q.slot].active
      && s.sh.belt.users[q.slot].sessionPid == p && s.sh.belt.users[q.slot].username == Stored(q.name)
    ensures p != r ==> s.procs[p].slot != s.procs[r].slot && Stored(s.procs[p].name) != Stored(s.procs[r].name)
  {
    hide Reachable, BaseOk, FloorOk, Stored, Busy;
    ReachableInv(s, capacity);
    assert Entered(s.sh.belt.users, p, s.procs[p]);
    assert p != r ==> Apart(s.procs[p], s.procs[r]);
  }

  /** A name without NUL is in the table as its first 31 characters. */
  lemma NamesAsTyped(s: State, capacity: nat, p: int)
    requires Reachable(s, capacity) && p in s.procs && LoggedIn(s.procs[p]) && '\0' !in s.procs[p].name
    ensures s.procs[p].slot < |s.sh.belt.users| && s.sh.belt.users[s.procs[p].slot].username == Truncated(s.procs[p].name)
  {
    hide Reachable, Stored;
    SessionsAreDistinct(s, capacity, p, p);
    StoredIsTruncated(s.procs[p].name);
  }

  /** With no login in progress the active slots are exactly those of the logged-in processes, and
      their stored names are pairwise distinct. */
  lemma TableMatchesProcesses(s: State, capacity: nat, i: nat, j: nat)
    requires Reachable(s, capacity) && s.sh.beltMutex == 1 && i < |s.sh.belt.users| && j < |s.sh.belt.users|
    ensures s.sh.belt.users[i].active <==> exists p :: p in s.procs && s.procs[p].slot == i
    ensures i != j && s.sh.belt.users[i].active && s.sh.belt.users[j].active ==>
              s.sh.belt.users[i].username != s.sh.belt.users[j].username
  {
    hide Reachable, FloorOk, Stored, Busy, ProcOk;
    ReachableInv(s, capacity);
    var users := s.sh.belt.users;
    if users[i].active {
      var p := SlotOwner(s, i);
      if users[j].active && i != j {
        var r := SlotOwner(s, j);
        assert Entered(users, p, s.procs[p]) && Entered(users, r, s.procs[r]) && Apart(s.procs[p], s.procs[r]);
      }
    }
    forall p | p in s.procs && s.procs[p].slot == i
      ensures users[i].active
    {
      assert Entered(users, p, s.procs[p]);
    }
  }

  lemma SlotOwner(s: State, i: nat) returns (p: int)
    requires BaseOk(s) && RegistryOk(s) && s.sh.beltMutex == 1 && i < |s.sh.belt.users| && s.sh.belt.users[i].active
    ensures p in s.procs && s.procs[p].slot == i
  {
    hide Busy, Stored, ProcOk;
    p :| HeldBy(s.procs, i, p);
    if Logging(s.procs[p].pc) {
      CountOne(s.procs, p, BeltHolder);
      assert false;
    }
  }

  /** `login` fails exactly when the truncated name is in use by a logged-in process or every slot
      is taken. */
  lemma LoginFailsExactlyWhen(s: State, capacity: nat, pid: int, c: Choice)
    requires Reachable(s, capacity) && pid in s.procs && s.procs[pid].pc.DoBelt? && s.procs[pid].pc.bop.Login?
    ensures var users := s.sh.belt.users;
      ProcStep(s.sh, pid, s.procs[pid], c) == Some(Move(s.sh, s.procs[pid].(pc := UnlockBelt(Exited)))) <==>
        || (exists p :: p in s.procs && LoggedIn(s.procs[p]) && Stored(s.procs[p].name) == Stored(s.procs[pid].name))
        || (forall i :: 0 <= i < |users| ==> users[i].active)
  {
    hide Reachable, ProcStep, FloorOk, Stored, Busy, ProcOk, StrnEqual, CString;
    ReachableInv(s, capacity);
    var users, name := s.sh.belt.users, s.procs[pid].name;
    assert Fresh(s.sh, s.procs[pid]);
    LoginStep(s.sh, pid, s.procs[pid], c);
    if NameTaken(users, name) {
      var i :| 0 <= i < |users| && Duplicate(users[i], name);
      DuplicateIsStoredName(users[i], name);
      var p :| HeldBy(s.procs, i, p);
      if p == pid || Logging(s.procs[p].pc) {
        LoginIsAlone(s, pid, p);
      }
      assert Entered(users, p, s.procs[p]);
    }
    forall p | p in s.procs && LoggedIn(s.procs[p]) && Stored(s.procs[p].name) == Stored(name)
      ensures NameTaken(users, name)
    {
      assert Entered(users, p, s.procs[p]);
      DuplicateIsStoredName(users[s.procs[p].slot], name);
    }
  }

  /** A name as its first 31 characters. */
  function Truncated(name: string): string {
    if |name| <= 31 then name else name[..31]
  }

  /** For names without NUL, which is all that the programs use: `login` fails exactly when a
      logged-in process has the same first 31 characters or all 210 slots are taken. */
  lemma LoginFailsByName(s: State, capacity: nat, pid: int, c: Choice)
    requires Reachable(s, capacity) && pid in s.procs && s.procs[pid].pc.DoBelt? && s.procs[pid].pc.bop.Login?
    requires forall p :: p in s.procs ==> '\0' !in s.procs[p].name
    ensures var users := s.sh.belt.users;
      |users| == 210 &&
      (ProcStep(s.sh, pid, s.procs[pid], c) == Some(Move(s.sh, s.procs[pid].(pc := UnlockBelt(Exited)))) <==>
         || (exists p :: p in s.procs && LoggedIn(s.procs[p]) && Truncated(s.procs[p].name) == Truncated(s.procs[pid].name))
         || (forall i :: 0 <= i < |users| ==> users[i].active))
  {
    hide Reachable, ProcStep, Stored, BaseOk, FloorOk;
    LoginFailsExactlyWhen(s, capacity, pid, c);
    ReachableInv(s, capacity);
    forall p | p in s.procs
      ensures Stored(s.procs[p].name) == Truncated(s.procs[p].name)
    {
      StoredIsTruncated(s.procs[p].name);
    }
  }

  lemma LoginIsAlone(s: State, pid: int, p: int)
    requires BaseOk(s) && pid in s.procs && s.procs[pid].pc.DoBelt? && s.procs[pid].pc.bop.Login?
    requires p in s.procs && Claims(s.procs[p])
    ensures p != pid && !Logging(s.procs[p].pc)
  {
    assert ProcOk(s.procs[pid]);
    if p != pid {
      Exclusive(s, pid, p);
    }
  }

  lemma LoginStep(s: Memory, pid: int, q: Proc, c: Choice)
    requires q.pc == DoBelt(Login, s.belt)
    ensures ProcStep(s, pid, q, c) == Some(Move(s, q.(pc := UnlockBelt(Exited)))) <==> LoginSlot(s.belt.users, q.name).None?
  {
    hide LoginSlot;
  }

  /** The separate writes of `login`, which scans that take no lock may see half done, add up to the
      whole entry: after the last one the slot is what `SessionManager.Login` stores. */
  lemma LoginWritesEntry(s: State, capacity: nat, pid: int, c: Choice)
    requires Reachable(s, capacity) && pid in s.procs && s.procs[pid].pc.LoginPid?
    ensures var q := s.procs[pid];
      var m := ProcStep(s.sh, pid, q, c);
      && q.pc.i < |s.sh.belt.users| && m.Some? && m.value.q.slot == q.pc.i
      && m.value.sh.belt.users == s.sh.belt.users[q.pc.i := LoginEntry(q.name, pid, q.role, q.quota)]
  {
    hide Reachable, BaseOk, FloorOk, Stored, Busy, ProcStep;
    ReachableInv(s, capacity);
    assert StageOk(s.sh.belt.users, s.procs[pid]);
    LastWrite(s.sh, pid, s.procs[pid], c);
  }

  lemma LastWrite(s: Memory, pid: int, q: Proc, c: Choice)
    requires q.pc.LoginPid? && StageOk(s.belt.users, q)
    ensures var m := ProcStep(s, pid, q, c);
      && m.Some? && m.value.q.slot == q.pc.i
      && m.value.sh.belt.users == s.belt.users[q.pc.i := LoginEntry(q.name, pid, q.role, q.quota)]
  {
    hide Stored;
    assert ProcStep(s, pid, q, c) == LoginStage(s, pid, q);
  }

  /** Quotas: a session counts exactly the sub-process it is running, so it stays within its quota,
      and `trySpawnProcess` refuses a worker only if its quota is not even one. */
  lemma QuotaBalance(s: State, capacity: nat, pid: int)
    requires Reachable(s, capacity) && pid in s.procs && LoggedIn(s.procs[pid]) && s.procs[pid].quota >= 0
    ensures s.procs[pid].slot < |s.sh.belt.users|
    ensures var u := s.sh.belt.users[s.procs[pid].slot];
      0 <= u.currentProcesses <= u.maxProcesses == s.procs[pid].quota && u.currentProcesses == One(Busy(s.procs[pid]))
  {
    hide Reachable, BaseOk, FloorOk, Stored, Busy;
    ReachableInv(s, capacity);
    assert Entered(s.sh.belt.users, pid, s.procs[pid]);
  }

  lemma SpawnGrantedExactlyWhen(s: State, capacity: nat, pid: int, c: Choice)
    requires Reachable(s, capacity) && pid in s.procs && s.procs[pid].pc.DoBelt? && s.procs[pid].pc.bop.Spawn?
    ensures var m := ProcStep(s.sh, pid, s.procs[pid], c);
      m.Some? && (m.value.q.pc == UnlockBelt(Make) <==> s.procs[pid].quota >= 1)
  {
    hide Reachable, ProcStep, FloorOk, RegistryOk, BaseOk;
    ReachableInv(s, capacity);
    var m := SpawnStep(s, pid, c);
    QuotaRegistry(s, pid, Spawn, m);
  }

  lemma SpawnStep(s: State, pid: int, c: Choice) returns (m: Move)
    requires BaseOk(s) && pid in s.procs && s.procs[pid].pc.DoBelt? && s.procs[pid].pc.bop.Spawn?
    ensures s.procs[pid].pc == DoBelt(Spawn, s.sh.belt)
    ensures ProcStep(s.sh, pid, s.procs[pid], c) == Some(m)
    ensures SessionBody(s.sh, pid, s.procs[pid], Spawn, s.sh.belt.users) == Some(m)
  {
    assert Fresh(s.sh, s.procs[pid]);
    hide BaseOk;
    m := SessionBody(s.sh, pid, s.procs[pid], Spawn, s.sh.belt.users).value;
  }

  /** There is at most one dispatcher at work at any time, however many were started. */
  lemma DispatcherIsUnique(s: State, capacity: nat, p: int, r: int)
    requires Reachable(s, capacity) && p in s.procs && r in s.procs
    requires AtDispatcher(Place(s.procs[p].pc)) && AtDispatcher(Place(s.procs[r].pc))
    ensures p == r
  {
    hide Reachable, BaseOk, FloorOk, RegistryOk;
    ReachableInv(s, capacity);
    OneDispatcher(s, p, r);
  }
}
