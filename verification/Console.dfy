/** The terminal commands of include/terminal/TerminalAction.h on the segment itself. They take no
    lock; what others do meanwhile is the subject of the transition system. */
module Console {
  import opened Shared
  import opened SessionTable
  import opened Protocol
  import opened Segment

  /** How many of the first `n` slots are active under this pid. */
  function Sessions(users: Users, n: nat, pid: int): nat
    requires n <= |users|
  {
    if n == 0 then 0
    else Sessions(users, n - 1, pid) + if users[n - 1].active && users[n - 1].sessionPid == pid then 1 else 0
  }

  function EndWorks(n: nat): (r: seq<Signal>)
    ensures |r| == n && forall i :: 0 <= i < n ==> r[i] == EndWork
  {
    seq(n, _ => EndWork)
  }

  /** The messages after `EndWork` has been sent to the first `n` slots in turn. */
  function Broadcast(queue: map<int, seq<Signal>>, users: Users, n: nat): map<int, seq<Signal>>
    requires n <= |users|
  {
    if n == 0 then queue
    else
      var sent := Broadcast(queue, users, n - 1);
      if users[n - 1].active then Send(sent, users[n - 1].sessionPid, EndWork) else sent
  }

  /** Every process gets one `EndWork` for each of its active slots, behind the messages it already
      had, and nothing else; a slot without a positive pid reaches nobody. */
  lemma {:induction false} BroadcastReaches(queue: map<int, seq<Signal>>, users: Users, n: nat, p: int)
    requires n <= |users|
    ensures Queued(Broadcast(queue, users, n), p) ==
      Queued(queue, p) + if p > 0 then EndWorks(Sessions(users, n, p)) else []
  {
    if n > 0 {
      BroadcastReaches(queue, users, n - 1, p);
    }
  }

  lemma {:induction false} ActiveIsCounted(users: Users, n: nat, i: nat)
    requires i < n <= |users| && users[i].active
    ensures Sessions(users, n, users[i].sessionPid) >= 1
  {
    if i < n - 1 {
      ActiveIsCounted(users, n - 1, i);
    }
  }

  /** A process with an active slot is told. */
  lemma BroadcastTells(queue: map<int, seq<Signal>>, users: Users, i: nat)
    requires i < |users| && users[i].active && users[i].sessionPid > 0
    ensures EndWork in Queued(Broadcast(queue, users, |users|), users[i].sessionPid)
  {
    var p := users[i].sessionPid;
    BroadcastReaches(queue, users, |users|, p);
    ActiveIsCounted(users, |users|, i);
    assert EndWorks(Sessions(users, |users|, p))[0] == EndWork;
  }

  /** First active slot of that name at or after `i`. */
  function FirstNamed(users: Users, name: string, i: nat): (r: Option<nat>)
    requires i <= |users|
    ensures r.None? <==> forall j :: i <= j < |users| ==> !(users[j].active && users[j].username == name)
    ensures r.Some? ==> i <= r.value < |users| && users[r.value].active && users[r.value].username == name
    ensures r.Some? ==> forall j :: i <= j < r.value ==> !(users[j].active && users[j].username == name)
    decreases |users| - i
  {
    if i == |users| then None
    else if users[i].active && users[i].username == name then Some(i)
    else FirstNamed(users, name, i + 1)
  }

  predicate IsFirstNamed(users: Users, name: string, i: int) {
    && 0 <= i < |users| && users[i].active && users[i].username == name
    && forall j :: 0 <= j < i ==> !(users[j].active && users[j].username == name)
  }

  /** The pid in the first active slot of that name; -1 without one. */
  function PidNamed(users: Users, name: string): (pid: int)
    ensures (forall j :: 0 <= j < |users| ==> !(users[j].active && users[j].username == name)) ==> pid == -1
    ensures forall i :: IsFirstNamed(users, name, i) ==> pid == users[i].sessionPid
  {
    match FirstNamed(users, name, 0)
    case None => -1
    case Some(i) => users[i].sessionPid
  }

  class TerminalActions {
    const shm: SharedState
    const mail: MessageQueue

    constructor (shm: SharedState, mail: MessageQueue)
      ensures this.shm == shm && this.mail == mail
    {
      this.shm := shm;
      this.mail := mail;
    }

    /** For a system administrator `stop` clears `running`, closes the terminal and broadcasts
        `EndWork`; for anybody else it does nothing. Afterwards every process with an active slot
        has the message. */
    method HandleStop(role: RoleMask, active: bool) returns (active': bool)
      requires shm.Valid()
      modifies shm`running, mail
      ensures HasFlag(role, {SysAdmin}) ==> !shm.running && !active'
      ensures HasFlag(role, {SysAdmin}) ==> mail.queue == Broadcast(old(mail.queue), shm.users[..], MAX_USERS_SESSIONS)
      ensures HasFlag(role, {SysAdmin}) ==>
        forall i :: 0 <= i < MAX_USERS_SESSIONS && shm.users[i].active && shm.users[i].sessionPid > 0 ==>
          EndWork in Queued(mail.queue, shm.users[i].sessionPid)
      ensures !HasFlag(role, {SysAdmin}) ==>
        shm.running == old(shm.running) && mail.queue == old(mail.queue) && active' == active
    {
      active' := active;
      if HasFlag(role, {SysAdmin}) {
        shm.running := false;
        var i := 0;
        while i < MAX_USERS_SESSIONS
          invariant 0 <= i <= MAX_USERS_SESSIONS && !shm.running
          invariant mail.queue == Broadcast(old(mail.queue), shm.users[..], i)
        {
          if shm.users[i].active {
            mail.SendSignal(shm.users[i].sessionPid, EndWork);
          }
          i := i + 1;
        }
        active' := false;
        forall k | 0 <= k < MAX_USERS_SESSIONS && shm.users[k].active && shm.users[k].sessionPid > 0
          ensures EndWork in Queued(mail.queue, shm.users[k].sessionPid)
        {
          BroadcastTells(old(mail.queue), shm.users[..], k);
        }
      }
    }

    /** The pid in the first active slot of that name, or -1. */
    method FindProcessByRole(name: string) returns (pid: int)
      requires shm.Valid()
      ensures pid == PidNamed(shm.users[..], name)
    {
      var i := 0;
      while i < MAX_USERS_SESSIONS
        invariant 0 <= i <= MAX_USERS_SESSIONS
        invariant FirstNamed(shm.users[..], name, 0) == FirstNamed(shm.users[..], name, i)
      {
        if shm.users[i].active && shm.users[i].username == name {
          return shm.users[i].sessionPid;
        }
        i := i + 1;
      }
      return -1;
    }

    /** `vip` sends to the first process of the express service's name, if there is one. */
    method HandleVip(role: RoleMask)
      requires shm.Valid()
      modifies mail
      ensures mail.queue ==
        if HasFlag(role, {Operator, SysAdmin})
        then Send(old(mail.queue), PidNamed(shm.users[..], EXPRESS_NAME), ExpressLoad) else old(mail.queue)
    {
      if !HasFlag(role, {Operator}) && !HasFlag(role, {SysAdmin}) {
        return;
      }
      var target := FindProcessByRole(EXPRESS_NAME);
      if target > 0 {
        mail.SendSignal(target, ExpressLoad);
      }
    }

    /** `depart` sends to whatever pid the dock record holds while a truck is present. */
    method HandleDepart(role: RoleMask)
      modifies mail
      ensures mail.queue ==
        if HasFlag(role, {Operator, SysAdmin}) && shm.dockTruck.isPresent
        then Send(old(mail.queue), shm.dockTruck.id, Departure) else old(mail.queue)
    {
      if !HasFlag(role, {Operator}) && !HasFlag(role, {SysAdmin}) {
        return;
      }
      if shm.dockTruck.isPresent {
        mail.SendSignal(shm.dockTruck.id, Departure);
      }
    }
  }
}
