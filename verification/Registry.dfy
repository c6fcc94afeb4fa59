/** The session table over all interleavings of logins, logouts and quota updates. */
module Registry {
  import opened Shared
  import opened SessionTable
  import opened Protocol
  import opened Structure
  import opened Exclusion
  import opened ControlFlow

  /** Between a granted `trySpawnProcess` and `reportProcessFinished`. */
  predicate Busy(q: Proc) {
    var pt := Place(q.pc);
    || pt.Make? || pt.LoadTest? || pt.LoadDivide? || pt.WaitEmpty? || pt.PutFull? || pt.PutBackEmpty?
    || pt == WantBelt(Push) || pt == WantBelt(Finish) || pt.Crashed?
  }

  /** The entry of a logged-in process: active, under its own truncated name and its own pid,
      with exactly the sub-process it is running counted against its quota. */
  predicate Entered(users: Users, p: int, q: Proc) {
    q.slot >= 0 ==>
      && q.slot < |users|
      && users[q.slot] == UserSession(true, Stored(q.name), p, q.role, q.quota, One(Busy(q)))
      && (Busy(q) ==> q.quota >= 1)
  }

  /** What a `login` in progress has written to the slot it took. */
  predicate StageOk(users: Users, q: Proc) {
    match q.pc
    case LoginMark(i) => i < |users| && users[i] == ZERO_SESSION
    case LoginName(i) => i < |users| && users[i] == ZERO_SESSION.(active := true)
    case LoginPid(i) => i < |users| && users[i] == UserSession(true, Stored(q.name), 0, q.role, q.quota, 0)
    case _ => true
  }

  /** A process that has, or is about to get, a session. */
  predicate Claims(q: Proc) { q.slot >= 0 || Logging(q.pc) }

  function Claimed(q: Proc): int
    requires Claims(q)
  {
    if q.slot >= 0 then q.slot else q.pc.i
  }

  ghost predicate HeldBy(procs: map<int, Proc>, i: int, p: int) {
    p in procs && Claims(procs[p]) && Claimed(procs[p]) == i
  }

  ghost predicate Apart(q: Proc, r: Proc) {
    Claims(q) && Claims(r) ==> Claimed(q) != Claimed(r) && Stored(q.name) != Stored(r.name)
  }

  ghost predicate RegistryOk(s: State) {
    var users := s.sh.belt.users;
    && |users| == MAX_USERS_SESSIONS
    && (forall i :: 0 <= i < |users| ==> |users[i].username| <= USERNAME_CHARS)
    && (forall p :: p in s.procs ==> Entered(users, p, s.procs[p]) && StageOk(users, s.procs[p]))
    && (forall p :: p in s.procs && Logging(s.procs[p].pc) ==> s.procs[p].slot < 0)
    && (forall p, r :: p in s.procs && r in s.procs && p != r ==> Apart(s.procs[p], s.procs[r]))
    && (forall i :: 0 <= i < |users| && users[i].active ==> exists p :: HeldBy(s.procs, i, p))
  }

  /** Steps that touch neither the table nor the mover's session. */
  lemma QuietRegistry(s: State, pid: int, m: Move)
    requires RegistryOk(s) && pid in s.procs
    requires var q := s.procs[pid];
      && m.sh.belt.users == s.sh.belt.users && SameProcess(q, m.q) && m.q.slot == q.slot
      && Busy(m.q) == Busy(q) && !Logging(q.pc) && !Logging(m.q.pc)
    ensures RegistryOk(State(m.sh, s.procs[pid := m.q]))
  {
    hide Busy, Stored;
    var s' := State(m.sh, s.procs[pid := m.q]);
    var users := s.sh.belt.users;
    forall i | 0 <= i < |users| && users[i].active
      ensures exists p :: HeldBy(s'.procs, i, p)
    {
      var p :| HeldBy(s.procs, i, p);
      assert HeldBy(s'.procs, i, p);
    }
  }

  /** Steps that write one entry `k`, which the mover has or takes and nobody else claims. */
  lemma WriteRegistry(s: State, pid: int, m: Move, k: nat, u: UserSession)
    requires RegistryOk(s) && pid in s.procs && SameProcess(s.procs[pid], m.q)
    requires Logging(m.q.pc) ==> m.q.slot < 0
    requires k < |s.sh.belt.users| && m.sh.belt.users == s.sh.belt.users[k := u]
    requires |u.username| <= USERNAME_CHARS && (u.active ==> Claims(m.q))
    requires Claims(s.procs[pid]) ==> Claimed(s.procs[pid]) == k
    requires Claims(m.q) ==> Claimed(m.q) == k
    requires Entered(m.sh.belt.users, pid, m.q) && StageOk(m.sh.belt.users, m.q)
    requires forall r :: r in s.procs && r != pid && Claims(s.procs[r]) ==>
               Claimed(s.procs[r]) != k && (Claims(m.q) ==> Stored(s.procs[r].name) != Stored(m.q.name))
    ensures RegistryOk(State(m.sh, s.procs[pid := m.q]))
  {
    hide Busy, Stored, SameProcess;
    var s' := State(m.sh, s.procs[pid := m.q]);
    var users, users' := s.sh.belt.users, m.sh.belt.users;
    forall p | p in s'.procs
      ensures Entered(users', p, s'.procs[p]) && StageOk(users', s'.procs[p])
    {
      if p != pid {
        OtherEntry(users, users', k, p, s.procs[p]);
      }
    }
    forall p, r | p in s'.procs && r in s'.procs && p != r
      ensures Apart(s'.procs[p], s'.procs[r])
    {
    }
    forall i | 0 <= i < |users'| && users'[i].active
      ensures exists p :: HeldBy(s'.procs, i, p)
    {
      if i == k {
        assert HeldBy(s'.procs, i, pid);
      } else {
        var p :| HeldBy(s.procs, i, p);
        assert HeldBy(s'.procs, i, p);
      }
    }
  }

  lemma OtherEntry(users: Users, users': Users, k: nat, p: int, r: Proc)
    requires k < |users| == |users'| && users' == users[k := users'[k]]
    requires Entered(users, p, r) && StageOk(users, r) && (Claims(r) ==> Claimed(r) != k)
    requires r.slot >= 0 ==> !Logging(r.pc)
    ensures Entered(users', p, r) && StageOk(users', r)
  {
    hide Busy, Stored;
  }

  /** A granted login takes a free slot under a name that no other process uses. */
  lemma LoginApart(s: State, pid: int, i: nat)
    requires BaseOk(s) && RegistryOk(s) && pid in s.procs && s.procs[pid].pc.DoBelt?
    requires LoginSlot(s.sh.belt.users, s.procs[pid].name) == Some(i)
    ensures forall r :: r in s.procs && r != pid && Claims(s.procs[r]) ==>
              Claimed(s.procs[r]) != i && Stored(s.procs[r].name) != Stored(s.procs[pid].name)
  {
    hide ProcOk, Stored, Busy, StrnEqual, CString, Fresh;
    var users, name := s.sh.belt.users, s.procs[pid].name;
    forall r | r in s.procs && r != pid && Claims(s.procs[r])
      ensures Claimed(s.procs[r]) != i && Stored(s.procs[r].name) != Stored(name)
    {
      Exclusive(s, pid, r);
      var k := s.procs[r].slot;
      assert Entered(users, r, s.procs[r]);
      DuplicateIsStoredName(users[k], name);
      assert !Duplicate(users[k], name);
    }
  }

  lemma LoginRegistry(s: State, pid: int, m: Move)
    requires BaseOk(s) && RegistryOk(s) && pid in s.procs && s.procs[pid].pc == DoBelt(Login, s.sh.belt)
    requires SessionBody(s.sh, pid, s.procs[pid], Login, s.sh.belt.users) == Some(m)
    ensures RegistryOk(State(m.sh, s.procs[pid := m.q]))
  {
    hide Stored;
    var q, users := s.procs[pid], s.sh.belt.users;
    assert ProcOk(q) && Entered(users, pid, q);
    match LoginSlot(users, q.name)
    case None =>
      QuietRegistry(s, pid, m);
    case Some(i) =>
      LoginApart(s, pid, i);
      WriteRegistry(s, pid, m, i, ZERO_SESSION);
  }

  lemma LogoutRegistry(s: State, pid: int, m: Move)
    requires BaseOk(s) && RegistryOk(s) && pid in s.procs && s.procs[pid].pc == DoBelt(Logout, s.sh.belt)
    requires SessionBody(s.sh, pid, s.procs[pid], Logout, s.sh.belt.users) == Some(m)
    ensures RegistryOk(State(m.sh, s.procs[pid := m.q]))
  {
    hide LoginSlot, Stored;
    var q, users := s.procs[pid], s.sh.belt.users;
    assert ProcOk(q) && Entered(users, pid, q);
    WriteRegistry(s, pid, m, q.slot, LogoutEntry(users[q.slot]));
  }

  /** The quota is never exceeded and, for a quota of at least one, never refuses a worker. */
  lemma QuotaRegistry(s: State, pid: int, op: BeltOp, m: Move)
    requires BaseOk(s) && RegistryOk(s) && pid in s.procs && s.procs[pid].pc == DoBelt(op, s.sh.belt)
    requires (op.Spawn? || op.Finish?) && SessionBody(s.sh, pid, s.procs[pid], op, s.sh.belt.users) == Some(m)
    ensures RegistryOk(State(m.sh, s.procs[pid := m.q]))
    ensures op.Spawn? ==> (m.q.pc == UnlockBelt(Make) <==> s.procs[pid].quota >= 1)
  {
    var q, users := s.procs[pid], s.sh.belt.users;
    assert ProcOk(q) && Entered(users, pid, q);
    hide LoginSlot, Stored, BaseOk, ProcOk;
    QuotaWrite(s.sh, pid, q, op, m);
    WriteRegistry(s, pid, m, q.slot, m.sh.belt.users[q.slot]);
  }

  /** What the two quota operations write to the entry of the process. */
  lemma QuotaWrite(s: Memory, pid: int, q: Proc, op: BeltOp, m: Move)
    requires q.pc == DoBelt(op, s.belt) && (op.Spawn? || op.Finish?) && SessionBody(s, pid, q, op, s.belt.users) == Some(m)
    requires Entered(s.belt.users, pid, q) && q.slot >= 0
    ensures SameProcess(q, m.q) && m.q.slot == q.slot && m.q.pc.UnlockBelt?
    ensures m.sh.belt.users == s.belt.users[q.slot := m.sh.belt.users[q.slot]] && Entered(m.sh.belt.users, pid, m.q)
    ensures op.Spawn? ==> (m.q.pc == UnlockBelt(Make) <==> q.quota >= 1)
  {
    hide Stored;
    match op
    case Spawn =>
    case Finish =>
    case _ =>
  }

  lemma SessionRegistry(s: State, pid: int, op: BeltOp, m: Move)
    requires BaseOk(s) && RegistryOk(s) && pid in s.procs && s.procs[pid].pc == DoBelt(op, s.sh.belt)
    requires SessionBody(s.sh, pid, s.procs[pid], op, s.sh.belt.users) == Some(m)
    ensures RegistryOk(State(m.sh, s.procs[pid := m.q]))
  {
    hide RegistryOk, BaseOk;
    match op
    case Login => LoginRegistry(s, pid, m);
    case Logout => LogoutRegistry(s, pid, m);
    case Spawn => QuotaRegistry(s, pid, op, m);
    case Finish => QuotaRegistry(s, pid, op, m);
    case _ =>
  }

  lemma StageRegistry(s: State, pid: int, m: Move)
    requires BaseOk(s) && RegistryOk(s) && pid in s.procs
    requires LoginStage(s.sh, pid, s.procs[pid]) == Some(m)
    ensures RegistryOk(State(m.sh, s.procs[pid := m.q]))
  {
    hide Stored;
    var q, users := s.procs[pid], s.sh.belt.users;
    assert ProcOk(q) && StageOk(users, q);
    match q.pc
    case LoginMark(i) =>
      WriteRegistry(s, pid, m, i, m.sh.belt.users[i]);
    case LoginName(i) =>
      WriteRegistry(s, pid, m, i, m.sh.belt.users[i]);
    case LoginPid(i) =>
      WriteRegistry(s, pid, m, i, m.sh.belt.users[i]);
    case _ =>
  }

  /** Only `trySpawnProcess` and `reportProcessFinished` change what counts against the quota. */
  lemma FlowBusy(q: Proc, m: Move)
    requires Flows(q, m)
    requires Place(m.q.pc) == Place(q.pc) || (Place(q.pc) != WantBelt(Spawn) && Place(q.pc) != WantBelt(Finish))
    ensures Busy(m.q) == Busy(q)
  {
  }

  lemma HoldRegistry(s: State, pid: int, c: Choice, m: Move)
    requires BaseOk(s) && RegistryOk(s) && pid in s.procs && !s.procs[pid].pc.At?
    requires HoldStep(s.sh, pid, s.procs[pid], c) == Some(m) && Flows(s.procs[pid], m)
    ensures RegistryOk(State(m.sh, s.procs[pid := m.q]))
  {
    hide SessionBody, FloorBody, LoaderBody, TruckBody, LoginStage, RelayStep, ProcOk, RegistryOk, Flows, Busy, OffFloor;
    var q := s.procs[pid];
    if q.pc.DoBelt? {
      var op, v := q.pc.bop, q.pc.seenBelt;
      if SessionOp(op) {
        SessionRegistry(s, pid, op, m);
      } else {
        FloorShape(s.sh, q, op, v, m);
        FloorFlow(s.sh, q, op, v, m);
        FlowBusy(q, m);
        QuietRegistry(s, pid, m);
      }
    } else if q.pc.DoDock? {
      var op, d := q.pc.dop, q.pc.seenDock;
      if op.Load? || op.Batch? {
        LoaderShape(s.sh, q, op, d, c, m);
      } else {
        TruckShape(s.sh, pid, q, op, d, c, m);
      }
      FlowBusy(q, m);
      QuietRegistry(s, pid, m);
    } else if Logging(q.pc) {
      StageRegistry(s, pid, m);
    } else {
      RelayShape(s.sh, q, m);
      FlowBusy(q, m);
      QuietRegistry(s, pid, m);
    }
  }

  lemma PointRegistry(s: State, pid: int, c: Choice, m: Move)
    requires BaseOk(s) && RegistryOk(s) && pid in s.procs && s.procs[pid].pc.At?
    requires PointStep(s.sh, pid, s.procs[pid], s.procs[pid].pc.point, c) == Some(m) && Flows(s.procs[pid], m)
    ensures RegistryOk(State(m.sh, s.procs[pid := m.q]))
  {
    hide TerminalStep, EnterStep, TokenStep, LocalStep, ProcOk, RegistryOk, Busy, Flows;
    var q, pt := s.procs[pid], s.procs[pid].pc.point;
    if AtTerminal(pt) {
      TerminalShape(s.sh, pid, q, pt, c, m);
    } else if pt.WantBelt? || pt.WantDock? {
      EnterShape(s.sh, q, pt, m);
    } else if AtToken(pt) {
      TokenShape(s.sh, q, pt, c, m);
    } else {
      LocalShape(s.sh, pid, q, pt, c, m);
    }
    FlowBusy(q, m);
    QuietRegistry(s, pid, m);
  }

  lemma RegistryAct(s: State, pid: int, c: Choice, m: Move)
    requires BaseOk(s) && RegistryOk(s) && pid in s.procs && ProcStep(s.sh, pid, s.procs[pid], c) == Some(m)
    ensures RegistryOk(State(m.sh, s.procs[pid := m.q]))
  {
    assert ProcOk(s.procs[pid]);
    hide HoldStep, PointStep, RegistryOk, BaseOk, ProcOk, Flows;
    ProcFlow(s.sh, pid, s.procs[pid], c, m);
    if s.procs[pid].pc.At? {
      PointRegistry(s, pid, c, m);
    } else {
      HoldRegistry(s, pid, c, m);
    }
  }

  /** At most one dispatcher is at work: its session name is fixed and names are unique. */
  lemma OneDispatcher(s: State, p: int, r: int)
    requires BaseOk(s) && RegistryOk(s) && p in s.procs && r in s.procs
    requires AtDispatcher(Place(s.procs[p].pc)) && AtDispatcher(Place(s.procs[r].pc))
    ensures p == r
  {
    hide Stored, Fresh, Entered, StageOk, HeldBy;
    assert ProcOk(s.procs[p]) && ProcOk(s.procs[r]);
    assert p != r ==> Apart(s.procs[p], s.procs[r]);
  }
}
