/** The message queues: a step only appends to the queues of other processes, a receive takes
    one message from the receiver's own queue, and only the stop scan sends `EndWork`. */
module Mail {
  import opened Shared
  import opened Protocol
  import opened Structure

  type Queues = map<int, seq<Signal>>

  /** `pid` took the first message of its own queue, or was interrupted, and went on. */
  predicate Receives(q: Proc, m: Move) {
    && q.pc.At? && m.q.pc.At?
    && ((q.pc.point.TruckWait? && m.q.pc.point.TruckGot?) || (q.pc.point.ExprWait? && !m.q.pc.point.ExprWait?))
  }

  ghost predicate MailLaw(s: Memory, pid: int, q: Proc, m: Move) {
    && (forall x :: x != pid || !Receives(q, m) ==> Queued(s.queue, x) <= Queued(m.sh.queue, x))
    && (forall x :: EndWork in Queued(m.sh.queue, x) ==>
          EndWork in Queued(s.queue, x) || (q.pc.At? && q.pc.point.StopSend?))
    && (q.pc.At? && m.q.pc.At? && q.pc.point.TruckWait? && m.q.pc.point == TruckGot(EndWork) ==>
          EndWork in Queued(s.queue, pid))
    && (q.pc.SendDock? && q.pc.to > 0 ==> Queued(m.sh.queue, q.pc.to) != [])
  }

  lemma SendLaw(queue: Queues, to: int, sig: Signal)
    ensures forall x :: Queued(queue, x) <= Queued(Send(queue, to, sig), x)
    ensures sig != EndWork ==> forall x :: EndWork in Queued(Send(queue, to, sig), x) ==> EndWork in Queued(queue, x)
    ensures to > 0 ==> sig in Queued(Send(queue, to, sig), to)
  {
  }

  /** A message goes to its receiver, behind the others, and to nobody else. */
  lemma SendExactly(queue: Queues, to: int, sig: Signal, x: int)
    ensures Queued(Send(queue, to, sig), x) == Queued(queue, x) + if x == to && to > 0 then [sig] else []
  {
  }

  /** A receive that is not interrupted waits for a message and takes the oldest, and nobody else's;
      what the process does next depends on that message alone. */
  lemma ReceiveExactly(s: Memory, pid: int, q: Proc, c: Choice)
    requires (q.pc == At(TruckWait) || q.pc == At(ExprWait)) && !c.Interrupt?
    ensures ProcStep(s, pid, q, c).None? <==> Queued(s.queue, pid) == []
    ensures ProcStep(s, pid, q, c).Some? ==>
      var m := ProcStep(s, pid, q, c).value;
      var sig := Queued(s.queue, pid)[0];
      && m.sh == s.(queue := m.sh.queue) && Queued(s.queue, pid) == [sig] + Queued(m.sh.queue, pid)
      && (forall x :: x != pid ==> Queued(m.sh.queue, x) == Queued(s.queue, x))
      && m.q == q.(pc := m.q.pc)
      && m.q.pc == At(if q.pc == At(TruckWait) then TruckGot(sig)
                      else if sig == ExpressLoad then WantDock(Batch)
                      else if sig == EndWork then WantBelt(Logout)
                      else ExprHead)
  {
    hide TerminalStep, EnterStep, TokenStep;
    match q.pc.point
    case TruckWait =>
    case ExprWait =>
  }

  lemma RelayMail(s: Memory, pid: int, q: Proc, m: Move)
    requires RelayStep(s, q) == Some(m)
    ensures MailLaw(s, pid, q, m)
  {
    if q.pc.SendDock? {
      SendLaw(s.queue, q.pc.to, Departure);
    }
  }

  lemma TerminalMail(s: Memory, pid: int, q: Proc, pt: Point, c: Choice, m: Move)
    requires q.pc == At(pt) && AtTerminal(pt) && TerminalStep(s, pid, q, pt, c) == Some(m)
    ensures MailLaw(s, pid, q, m)
  {
    match pt
    case DepartSend(to) => SendLaw(s.queue, to, Departure);
    case StopSend(_, to) => SendLaw(s.queue, to, EndWork);
    case VipSend(to) => SendLaw(s.queue, to, ExpressLoad);
    case _ =>
  }

  lemma LocalMail(s: Memory, pid: int, q: Proc, pt: Point, c: Choice, m: Move)
    requires q.pc == At(pt) && LocalStep(s, pid, q, pt, c) == Some(m)
    ensures MailLaw(s, pid, q, m)
  {
    match pt
    case TruckWait =>
    case ExprWait =>
    case _ =>
  }

  lemma SilentMail(s: Memory, pid: int, q: Proc, m: Move)
    requires m.sh.queue == s.queue && !(q.pc.At? && q.pc.point.TruckWait?) && !q.pc.SendDock?
    ensures MailLaw(s, pid, q, m)
  {
  }

  lemma ProcMail(s: Memory, pid: int, q: Proc, c: Choice, m: Move)
    requires ProcOk(q) && ProcStep(s, pid, q, c) == Some(m)
    ensures MailLaw(s, pid, q, m)
  {
    hide SessionBody, FloorBody, LoaderBody, TruckBody, LoginStage, RelayStep, ProcOk, Guarded, MailLaw, OffFloor,
      TerminalStep, EnterStep, TokenStep, LocalStep, Place;
    if q.pc.At? {
      var pt := q.pc.point;
      if AtTerminal(pt) {
        TerminalMail(s, pid, q, pt, c, m);
      } else if pt.WantBelt? || pt.WantDock? {
        EnterShape(s, q, pt, m);
        SilentMail(s, pid, q, m);
      } else if AtToken(pt) {
        TokenShape(s, q, pt, c, m);
        SilentMail(s, pid, q, m);
      } else {
        LocalMail(s, pid, q, pt, c, m);
      }
    } else if q.pc.DoBelt? {
      var op, v := q.pc.bop, q.pc.seenBelt;
      if SessionOp(op) {
        SessionShape(s, pid, q, op, v, m);
      } else {
        FloorShape(s, q, op, v, m);
      }
      SilentMail(s, pid, q, m);
    } else if q.pc.DoDock? {
      var op, d := q.pc.dop, q.pc.seenDock;
      if op.Load? || op.Batch? {
        LoaderShape(s, q, op, d, c, m);
      } else {
        TruckShape(s, pid, q, op, d, c, m);
      }
      SilentMail(s, pid, q, m);
    } else if Logging(q.pc) {
      LoginShape(s, pid, q, m);
      SilentMail(s, pid, q, m);
    } else {
      RelayMail(s, pid, q, m);
    }
  }
}
