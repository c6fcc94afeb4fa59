/** include/SessionManager.h on the segment itself: two scans over the slot array, a slot written
    field by field, and the object's own `current_session`. */
module SessionController {
  import opened Shared
  import opened SessionTable
  import opened Protocol
  import opened Segment

  class SessionManager {
    const shm: SharedState?
    const pid: int
    var currentSession: int

    constructor (shm: SharedState?, pid: int)
      ensures this.shm == shm && this.pid == pid && currentSession == -1
    {
      this.shm := shm;
      this.pid := pid;
      currentSession := -1;
    }

    ghost predicate Valid()
      reads this, shm
    {
      && (shm != null ==> shm.Valid())
      && -1 <= currentSession < MAX_USERS_SESSIONS
    }

    ghost function Table(): set<object> {
      if shm == null then {} else {shm.users}
    }

    ghost function Users(): Users
      reads shm, Table()
    {
      if shm == null then [] else shm.users[..]
    }

    /** The first scan of `login`. */
    method FindDuplicate(name: string) returns (found: bool)
      requires Valid()
      ensures found <==> NameTaken(Users(), name)
    {
      if shm == null {
        return false;
      }
      var i := 0;
      while i < MAX_USERS_SESSIONS
        invariant 0 <= i <= MAX_USERS_SESSIONS
        invariant forall j :: 0 <= j < i ==> !Duplicate(shm.users[j], name)
      {
        if Duplicate(shm.users[i], name) {
          assert Duplicate(Users()[i], name);
          return true;
        }
        i := i + 1;
      }
      return false;
    }

    /** The second scan of `login`: the first inactive slot, or -1. */
    method FindFree() returns (slot: int)
      requires Valid()
      ensures slot == (match FreeSlot(Users(), 0) case None => -1 case Some(i) => i)
    {
      if shm == null {
        return -1;
      }
      var i := 0;
      while i < MAX_USERS_SESSIONS
        invariant 0 <= i <= MAX_USERS_SESSIONS
        invariant FreeSlot(Users(), 0) == FreeSlot(Users(), i)
      {
        if !shm.users[i].active {
          return i;
        }
        i := i + 1;
      }
      return -1;
    }

    /** `login` fails exactly if the truncated name is in use or no slot is free, and then changes
        nothing; otherwise it fills the first free slot and no other. */
    method Login(name: string, role: RoleMask, maxProcs: int) returns (ok: bool)
      requires Valid()
      modifies this, Table()
      ensures Valid()
      ensures ok <==> shm != null && LoginSlot(old(Users()), name).Some?
      ensures ok ==> currentSession == LoginSlot(old(Users()), name).value
      ensures ok ==> Users() == old(Users())[currentSession := LoginEntry(name, pid, role, maxProcs)]
      ensures ok && '\0' !in name ==> Users()[currentSession].username == if |name| <= 31 then name else name[..31]
      ensures !ok ==> Users() == old(Users()) && currentSession == old(currentSession)
    {
      if shm == null {
        return false;
      }
      var taken := FindDuplicate(name);
      if taken {
        return false;
      }
      var slot := FindFree();
      if slot == -1 {
        return false;
      }
      shm.users[slot] := ZERO_SESSION;
      shm.users[slot] := shm.users[slot].(active := true);
      shm.users[slot] := shm.users[slot].(username := Stored(name));
      shm.users[slot] := shm.users[slot].(role := role);
      shm.users[slot] := shm.users[slot].(maxProcesses := maxProcs, currentProcesses := 0);
      shm.users[slot] := shm.users[slot].(sessionPid := pid);
      currentSession := slot;
      if '\0' !in name {
        StoredIsTruncated(name);
      }
      return true;
    }

    /** `logout` clears the object's own slot, which keeps its name and pid, and no other. */
    method Logout()
      requires Valid()
      modifies this, Table()
      ensures Valid()
      ensures Users() == old(SetUser(Users(), currentSession, LogoutEntry(User(Users(), currentSession))))
      ensures currentSession == if shm == null then old(currentSession) else -1
      ensures old(currentSession != -1 && shm != null) ==>
        var u := Users()[old(currentSession)];
        !u.active && u.role == {} && u.currentProcesses == 0 && u.username == old(User(Users(), currentSession)).username
    {
      if currentSession == -1 || shm == null {
        return;
      }
      shm.users[currentSession] := shm.users[currentSession].(active := false);
      shm.users[currentSession] := shm.users[currentSession].(role := {});
      shm.users[currentSession] := shm.users[currentSession].(currentProcesses := 0);
      currentSession := -1;
    }

    /** The three methods below act on the object's own entry; without a session they do nothing. */
    method TrySpawnProcess() returns (ok: bool)
      requires Valid()
      modifies Table()
      ensures Valid()
      ensures ok == old(SpawnEntry(User(Users(), currentSession)).1)
      ensures ok <==>
        && currentSession != -1 && shm != null
        && old(User(Users(), currentSession)).currentProcesses < old(User(Users(), currentSession)).maxProcesses
      ensures ok ==>
        var u := old(User(Users(), currentSession)); Users()[currentSession] == u.(currentProcesses := u.currentProcesses + 1)
      ensures Users() == old(SetUser(Users(), currentSession, SpawnEntry(User(Users(), currentSession)).0))
    {
      if currentSession == -1 || shm == null {
        return false;
      }
      ok := false;
      var user := shm.users[currentSession];
      if user.currentProcesses < user.maxProcesses {
        shm.users[currentSession] := user.(currentProcesses := user.currentProcesses + 1);
        ok := true;
      }
    }

    method ReportProcessFinished()
      requires Valid()
      modifies Table()
      ensures Valid()
      ensures Users() == old(SetUser(Users(), currentSession, FinishEntry(User(Users(), currentSession))))
      ensures currentSession != -1 && shm != null ==>
        var n := old(User(Users(), currentSession)).currentProcesses;
        Users()[currentSession].currentProcesses == if n > 0 then n - 1 else n
    {
      if currentSession == -1 || shm == null {
        return;
      }
      if shm.users[currentSession].currentProcesses > 0 {
        shm.users[currentSession] :=
          shm.users[currentSession].(currentProcesses := shm.users[currentSession].currentProcesses - 1);
      }
    }

    method GetCurrentRole() returns (role: RoleMask)
      requires Valid()
      ensures role == User(Users(), currentSession).role
    {
      if currentSession == -1 || shm == null {
        return {};
      }
      return shm.users[currentSession].role;
    }
  }
}
