/** The session registry of include/SessionManager.h as a value: the C-string handling of
    names, the slot search of `login`, and the effect of every critical section. */
module SessionTable {
  import opened Shared

  type Users = seq<UserSession>

  /** What `c_str()` passes on: the characters before the first NUL. */
  function CString(name: string): string {
    if name == "" || name[0] == '\0' then "" else [name[0]] + CString(name[1..])
  }

  /** What `strncpy(..., 31)` into a zeroed buffer stores. */
  function Stored(name: string): (s: string)
    ensures |s| <= USERNAME_CHARS
  {
    var c := CString(name);
    if |c| <= USERNAME_CHARS then c else c[..USERNAME_CHARS]
  }

  /** A C string is the part of the name before its first NUL. */
  lemma {:induction false} CStringIsPrefix(name: string)
    ensures |CString(name)| <= |name| && CString(name) == name[..|CString(name)|]
    ensures '\0' !in CString(name)
    ensures |CString(name)| < |name| ==> name[|CString(name)|] == '\0'
  {
    if name != "" && name[0] != '\0' {
      CStringIsPrefix(name[1..]);
      assert name == [name[0]] + name[1..];
    }
  }

  /** A name without NUL is stored as its first 31 characters. */
  lemma StoredIsTruncated(name: string)
    requires '\0' !in name
    ensures Stored(name) == if |name| <= 31 then name else name[..31]
  {
    CStringIsPrefix(name);
    assert name[..|name|] == name;
  }

  /** `strncmp(a, b, n) == 0` for C strings given without their terminator. */
  predicate StrnEqual(a: string, b: string, n: nat) {
    n == 0 ||
    (if a == "" || b == "" then a == "" && b == ""
     else a[0] == b[0] && StrnEqual(a[1..], b[1..], n - 1))
  }

  /** The comparison of `login` looks at 31 characters of an untruncated name; on stored names
      that is equality with the truncated name, however long the name is. */
  lemma {:induction false} StrnEqualIsPrefix(a: string, b: string, n: nat)
    requires |a| <= n
    ensures StrnEqual(a, b, n) <==> a == (if |b| <= n then b else b[..n])
  {
    if n == 0 {
    } else if a == "" || b == "" {
    } else {
      StrnEqualIsPrefix(a[1..], b[1..], n - 1);
      var t := if |b| <= n then b else b[..n];
      assert t[1..] == (if |b[1..]| <= n - 1 then b[1..] else b[1..][..n - 1]);
      assert a == [a[0]] + a[1..] && t == [t[0]] + t[1..];
    }
  }

  /** The test of the duplicate scan (include/SessionManager.h:68-69). */
  predicate Duplicate(u: UserSession, name: string) {
    u.active && StrnEqual(u.username, CString(name), USERNAME_CHARS)
  }

  predicate NameTaken(users: Users, name: string) {
    exists i :: 0 <= i < |users| && Duplicate(users[i], name)
  }

  lemma DuplicateIsStoredName(u: UserSession, name: string)
    requires |u.username| <= USERNAME_CHARS
    ensures Duplicate(u, name) <==> u.active && u.username == Stored(name)
  {
    StrnEqualIsPrefix(u.username, CString(name), USERNAME_CHARS);
  }

  /** First inactive slot at or after `i`. */
  function FreeSlot(users: Users, i: nat): (r: Option<nat>)
    requires i <= |users|
    ensures r.None? <==> forall j :: i <= j < |users| ==> users[j].active
    ensures r.Some? ==> i <= r.value < |users| && !users[r.value].active
    ensures r.Some? ==> forall j :: i <= j < r.value ==> users[j].active
    decreases |users| - i
  {
    if i == |users| then None
    else if !users[i].active then Some(i)
    else FreeSlot(users, i + 1)
  }

  /** The slot that `login` takes, or None when it fails (include/SessionManager.h:67-89). */
  function LoginSlot(users: Users, name: string): (r: Option<nat>)
    ensures r.None? <==> NameTaken(users, name) || forall j :: 0 <= j < |users| ==> users[j].active
    ensures r.Some? ==> r.value < |users| && !users[r.value].active && forall j :: 0 <= j < r.value ==> users[j].active
  {
    if NameTaken(users, name) then None else FreeSlot(users, 0)
  }

  function LoginEntry(name: string, pid: int, role: RoleMask, maxProcs: int): UserSession {
    UserSession(true, Stored(name), pid, role, maxProcs, 0)
  }

  /** `logout` keeps the user name and the pid of the slot (include/SessionManager.h:125-130). */
  function LogoutEntry(u: UserSession): UserSession {
    u.(active := false, role := {}, currentProcesses := 0)
  }

  /** `trySpawnProcess` (include/SessionManager.h:146-149). */
  function SpawnEntry(u: UserSession): (UserSession, bool) {
    if u.currentProcesses < u.maxProcesses
    then (u.(currentProcesses := u.currentProcesses + 1), true)
    else (u, false)
  }

  /** `reportProcessFinished` (include/SessionManager.h:162-164). */
  function FinishEntry(u: UserSession): UserSession {
    if u.currentProcesses > 0 then u.(currentProcesses := u.currentProcesses - 1) else u
  }

  /** A login followed by a logout gives the slot back: every later login fares as it would have
      before, down to the slot it gets. */
  lemma LogoutUndoesLogin(users: Users, name: string, pid: int, role: RoleMask, maxProcs: int, other: string)
    requires LoginSlot(users, name).Some?
    ensures var i := LoginSlot(users, name).value;
      var users' := users[i := LoginEntry(name, pid, role, maxProcs)];
      && LoginSlot(users', name).None?
      && LoginSlot(users'[i := LogoutEntry(users'[i])], other) == LoginSlot(users, other)
  {
    var i := LoginSlot(users, name).value;
    var entry := LoginEntry(name, pid, role, maxProcs);
    var users' := users[i := entry];
    DuplicateIsStoredName(entry, name);
    assert Duplicate(users'[i], name);
    var back := users'[i := LogoutEntry(users'[i])];
    assert NameTaken(back, other) == NameTaken(users, other) by {
      assert forall j :: 0 <= j < |users| ==> Duplicate(back[j], other) == Duplicate(users[j], other);
    }
    SameFree(users, back, 0);
  }

  lemma {:induction false} SameFree(a: Users, b: Users, k: nat)
    requires |a| == |b| && k <= |a| && forall j :: 0 <= j < |a| ==> a[j].active == b[j].active
    ensures FreeSlot(a, k) == FreeSlot(b, k)
    decreases |a| - k
  {
    if k < |a| {
      SameFree(a, b, k + 1);
    }
  }
}
