/** Data definitions of the shared-memory segment (include/Shared.h).
    Weights are kilograms and volumes cubic metres, as exact reals. */
module Shared {

  const MAX_WORKERS_PER_BELT := 100
  const MAX_BELT_WEIGHT_M := 1000.0
  const MAX_USERS_SESSIONS: nat := 210
  const USERNAME_CHARS: nat := 31

  const VOL_A := 0.019456
  const VOL_B := 0.046208
  const VOL_C := 0.099712

  datatype Option<+T> = None | Some(value: T)

  datatype Signal = NoSignal | Departure | ExpressLoad | EndWork

  datatype PackageType = NoType | TypeA | TypeB | TypeC

  datatype Package = Package(id: int, creator: int, kind: PackageType, weight: real, volume: real)

  /** What `memset` leaves in a slot of the belt, and what a failed pop returns. */
  const ZERO_PACKAGE := Package(0, 0, NoType, 0.0, 0.0)

  datatype Role = Viewer | Operator | OrgAdmin | SysAdmin

  /** `UserRole` is a bit mask, that is, a set of permission bits. */
  type RoleMask = set<Role>

  predicate HasFlag(mask: RoleMask, flag: RoleMask) {
    mask * flag != {}
  }

  datatype UserSession = UserSession(
    active: bool, username: string, sessionPid: int, role: RoleMask, maxProcesses: int, currentProcesses: int)

  const ZERO_SESSION := UserSession(false, "", 0, {}, 0, 0)

  datatype TruckState = TruckState(
    isPresent: bool, id: int, currentLoad: int, maxLoad: int,
    currentVolume: real, currentWeight: real, maxWeight: real, maxVolume: real)

  const ZERO_TRUCK := TruckState(false, 0, 0, 0, 0.0, 0.0, 0.0, 0.0)

  /** The type, volume and weight combinations that a worker generates (include/Worker.h:95-123);
      a uniform distribution does not yield its upper end. */
  predicate WorkerMade(p: Package) {
    match p.kind
    case NoType => false
    case TypeA => p.volume == VOL_A && 0.1 <= p.weight < 8.0
    case TypeB => p.volume == VOL_B && 8.0 <= p.weight < 16.0
    case TypeC => p.volume == VOL_C && 16.0 <= p.weight < 25.0
  }

  function Weight(ps: seq<Package>): real {
    if ps == [] then 0.0 else ps[0].weight + Weight(ps[1..])
  }

  function Ids(ps: seq<Package>): (ids: seq<int>)
    ensures |ids| == |ps|
    ensures forall i :: 0 <= i < |ps| ==> ids[i] == ps[i].id
  {
    seq(|ps|, i requires 0 <= i < |ps| => ps[i].id)
  }

  /** The identifiers 1, 2, ..., n in order. */
  function UpTo(n: nat): (ids: seq<int>)
    ensures |ids| == n
    ensures forall i :: 0 <= i < n ==> ids[i] == i + 1
  {
    seq(n, i => i + 1)
  }

  lemma {:induction false} WeightAppend(ps: seq<Package>, p: Package)
    ensures Weight(ps + [p]) == Weight(ps) + p.weight
  {
    if ps == [] {
      assert ps + [p] == [p];
    } else {
      WeightAppend(ps[1..], p);
      assert (ps + [p])[1..] == ps[1..] + [p];
    }
  }

  /** A seq of packages that all weigh at most `w` weighs at most `w` apiece in total. */
  lemma {:induction false} WeightAtMost(ps: seq<Package>, w: real)
    requires forall i :: 0 <= i < |ps| ==> ps[i].weight <= w
    ensures Weight(ps) <= w * |ps| as real
  {
    if ps != [] {
      WeightAtMost(ps[1..], w);
      assert w * |ps| as real == w + w * |ps[1..]| as real;
    }
  }
}
