/** The dock together with a history of every docking: what each truck carried away and what
    is on the docked truck. `accepted` lists all items ever taken on board, oldest first. */
module Ledger {
  import opened Shared
  import opened Docking

  /** A truck that has left: its record on leaving, its cargo, and whether it was counted in
      `trucks_completed`. */
  datatype Trip = Trip(truck: TruckState, cargo: seq<Item>, counted: bool)

  /** `truck` and `completed` are `dock_truck` and `trucks_completed`; the rest is history:
      `dockings` counts dockings, `batches` the express batches of the current docking,
      `crowded` says that some docking had more than one batch, and `called` that a loader has
      decided that the docked truck must leave. */
  datatype Dock = Dock(
    truck: TruckState, completed: int, cargo: seq<Item>, trips: seq<Trip>, accepted: seq<Item>,
    dockings: nat, batches: nat, crowded: bool, called: bool)

  const EMPTY_DOCK := Dock(ZERO_TRUCK, 0, [], [], [], 0, 0, false, false)

  function ItemWeight(items: seq<Item>): real {
    if items == [] then 0.0 else items[0].weight + ItemWeight(items[1..])
  }

  function ItemVolume(items: seq<Item>): real {
    if items == [] then 0.0 else items[0].volume + ItemVolume(items[1..])
  }

  /** Identifiers of the items that came over the belt. */
  function BeltIds(items: seq<Item>): seq<int> {
    if items == [] then [] else OwnId(items[0]) + BeltIds(items[1..])
  }

  function OwnId(it: Item): seq<int> {
    if it.id > 0 then [it.id] else []
  }

  function Carried(trips: seq<Trip>): seq<Item> {
    if trips == [] then [] else Carried(trips[..|trips| - 1]) + trips[|trips| - 1].cargo
  }

  function Counted(trips: seq<Trip>): nat {
    if trips == [] then 0
    else Counted(trips[..|trips| - 1]) + (if trips[|trips| - 1].counted then 1 else 0)
  }

  /** The critical sections, on the dock with its history. */

  function Claim(d: Dock, pid: int, maxWeight: real, maxVolume: real): Dock {
    d.(truck := Docked(pid, maxWeight, maxVolume), cargo := [],
       dockings := d.dockings + 1, batches := 0, called := false)
  }

  function LoadPackage(d: Dock, p: Package): (Dock, Attempt) {
    var (t, a) := TryLoad(d.truck, p.weight, p.volume);
    match a
    case NoTruck => (d, a)
    case Rejected => (d.(called := true), a)
    case Loaded(full) =>
      (d.(truck := t, cargo := d.cargo + [ItemOf(p)], accepted := d.accepted + [ItemOf(p)],
          called := d.called || full), a)
  }

  /** The second component says that the whole batch was loaded. */
  function LoadBatch(d: Dock, items: seq<Item>): (Dock, bool) {
    var n := BatchTaken(d.truck, items);
    (d.(truck := AddItems(d.truck, items[..n]), cargo := d.cargo + items[..n],
        accepted := d.accepted + items[..n], batches := d.batches + 1,
        crowded := d.crowded || d.batches > 0, called := d.called || n < |items|),
     n == |items|)
  }

  function Leave(d: Dock, left: (TruckState, int)): Dock {
    d.(truck := left.0, completed := left.1, cargo := [],
       trips := d.trips + [Trip(d.truck, d.cargo, left.1 > d.completed)])
  }

  function Shutdown(d: Dock, pid: int): Dock {
    if d.truck.id == pid then Leave(d, ShutdownLeave(d.truck, d.completed, pid)) else d
  }

  function Depart(d: Dock, pid: int): Dock {
    if d.truck.id == pid then Leave(d, DepartLeave(d.truck, d.completed, pid)) else d
  }

  function Cleanup(d: Dock, pid: int): Dock {
    if d.truck.isPresent && d.truck.id == pid
    then Leave(d, (CleanupLeave(d.truck, pid), d.completed)) else d
  }

  /** Invariant of the docked truck: it carries exactly its cargo, within its limits. */
  ghost predicate TruckOk(d: Dock) {
    var t := d.truck;
    && t.id > 0 && t.maxLoad == 100 && SpecsInRange(t.maxWeight, t.maxVolume)
    && t.currentWeight == ItemWeight(d.cargo) <= t.maxWeight
    && t.currentVolume == ItemVolume(d.cargo) <= t.maxVolume
    && t.currentLoad == |BeltIds(d.cargo)|
    && t.currentLoad as real * VOL_A <= t.currentVolume
    && t.currentWeight <= 25.0 * t.currentLoad as real + 75.0 * d.batches as real
    && t.currentVolume <= VOL_C * (t.currentLoad as real + 5.0 * d.batches as real)
    && (t.currentLoad >= t.maxLoad ==> d.called)
  }

  /** The record of a truck on leaving was the sum of its cargo. */
  predicate RecordOk(t: Trip) {
    t.truck.currentWeight == ItemWeight(t.cargo) && t.truck.currentVolume == ItemVolume(t.cargo)
  }

  /** Invariant of the books: everything accepted is on exactly one trip or on the docked truck,
      `trucks_completed` counts the counted trips, and an uncounted trip carried at most 0.1 kg. */
  ghost predicate BooksOk(d: Dock) {
    && d.accepted == Carried(d.trips) + d.cargo
    && d.completed == Counted(d.trips)
    && (!d.truck.isPresent ==> d.cargo == [])
    && (forall i :: 0 <= i < |d.accepted| ==> BeltItem(d.accepted[i]) || ExpressItem(d.accepted[i]))
    && (forall i :: 0 <= i < |d.trips| ==> RecordOk(d.trips[i]))
    && (forall i :: 0 <= i < |d.trips| ==> d.trips[i].counted || ItemWeight(d.trips[i].cargo) <= 0.1)
    && (!d.crowded ==> d.batches <= 1)
  }

  ghost predicate DockOk(d: Dock) {
    BooksOk(d) && (d.truck.isPresent ==> TruckOk(d))
  }

  lemma {:induction false} WeightOfConcat(a: seq<Item>, b: seq<Item>)
    ensures ItemWeight(a + b) == ItemWeight(a) + ItemWeight(b)
  {
    if a == [] {
      assert a + b == b;
    } else {
      WeightOfConcat(a[1..], b);
      assert (a + b)[1..] == a[1..] + b;
    }
  }

  lemma {:induction false} VolumeOfConcat(a: seq<Item>, b: seq<Item>)
    ensures ItemVolume(a + b) == ItemVolume(a) + ItemVolume(b)
  {
    if a == [] {
      assert a + b == b;
    } else {
      VolumeOfConcat(a[1..], b);
      assert (a + b)[1..] == a[1..] + b;
    }
  }

  lemma {:induction false} IdsOfConcat(a: seq<Item>, b: seq<Item>)
    ensures BeltIds(a + b) == BeltIds(a) + BeltIds(b)
  {
    if a == [] {
      assert a + b == b;
    } else {
      IdsOfConcat(a[1..], b);
      IdsHead(a, b);
      hide OwnId;
      Regroup(OwnId(a[0]), BeltIds(a[1..]), BeltIds(b));
    }
  }

  lemma IdsHead(a: seq<Item>, b: seq<Item>)
    requires a != []
    ensures BeltIds(a + b) == OwnId(a[0]) + BeltIds(a[1..] + b)
  {
    assert (a + b)[1..] == a[1..] + b;
  }

  lemma Regroup(x: seq<int>, y: seq<int>, z: seq<int>)
    ensures x + (y + z) == (x + y) + z
  {
  }

  lemma LeftTrip(d: Dock, left: (TruckState, int))
    ensures Carried(Leave(d, left).trips) == Carried(d.trips) + d.cargo
    ensures Counted(Leave(d, left).trips) == Counted(d.trips) + if left.1 > d.completed then 1 else 0
  {
    var trips := Leave(d, left).trips;
    assert trips[..|trips| - 1] == d.trips;
  }

  lemma ClaimKeeps(d: Dock, pid: int, maxWeight: real, maxVolume: real)
    requires DockOk(d) && !d.truck.isPresent && pid > 0 && SpecsInRange(maxWeight, maxVolume)
    ensures DockOk(Claim(d, pid, maxWeight, maxVolume))
  {
  }

  /** Books after more items have been taken on board. */
  lemma AcceptBooks(d: Dock, d': Dock, items: seq<Item>)
    requires BooksOk(d) && forall i :: 0 <= i < |items| ==> BeltItem(items[i]) || ExpressItem(items[i])
    requires d' == d.(truck := d'.truck, cargo := d.cargo + items, accepted := d.accepted + items,
                      batches := d'.batches, crowded := d'.crowded, called := d'.called)
    requires d'.truck.isPresent && (!d'.crowded ==> d'.batches <= 1)
    ensures BooksOk(d')
  {
    hide BeltItem, ExpressItem, ItemWeight, Carried, Counted;
    assert d.accepted + items == Carried(d.trips) + (d.cargo + items);
  }

  /** Sums after one more package. */
  lemma PackageSums(cargo: seq<Item>, it: Item)
    requires it.id > 0
    ensures ItemWeight(cargo + [it]) == ItemWeight(cargo) + it.weight && ItemVolume(cargo + [it]) == ItemVolume(cargo) + it.volume
    ensures |BeltIds(cargo + [it])| == |BeltIds(cargo)| + 1
  {
    WeightOfConcat(cargo, [it]);
    VolumeOfConcat(cargo, [it]);
    IdsOfConcat(cargo, [it]);
    assert ItemWeight([it]) == it.weight && ItemVolume([it]) == it.volume && BeltIds([it]) == [it.id];
  }

  lemma LoadKeeps(d: Dock, p: Package)
    requires DockOk(d) && BeltItem(ItemOf(p))
    ensures DockOk(LoadPackage(d, p).0)
  {
    var it := ItemOf(p);
    if LoadPackage(d, p).1.Loaded? {
      LoadTruck(d, p);
      hide TruckOk, BooksOk, BeltItem;
      AcceptBooks(d, LoadPackage(d, p).0, [it]);
    }
  }

  lemma LoadTruck(d: Dock, p: Package)
    requires TruckOk(d) && BeltItem(ItemOf(p)) && LoadPackage(d, p).1.Loaded?
    ensures TruckOk(LoadPackage(d, p).0)
  {
    PackageSums(d.cargo, ItemOf(p));
    hide ItemWeight, ItemVolume, BeltIds;
  }

  lemma {:induction false} AddItemsKeeps(t: TruckState, items: seq<Item>)
    ensures AddItems(t, items).isPresent == t.isPresent && AddItems(t, items).id == t.id
    ensures AddItems(t, items).currentLoad == t.currentLoad
    decreases |items|
  {
    if items != [] {
      AddItemsKeeps(AddItem(t, items[0].weight, items[0].volume), items[1..]);
    }
  }

  /** What an express batch does to the record: sums grow, limits hold, the item count stays. */
  lemma {:induction false} BatchSums(t: TruckState, items: seq<Item>)
    requires t.currentWeight <= t.maxWeight && t.currentVolume <= t.maxVolume
    requires forall i :: 0 <= i < |items| ==> ExpressItem(items[i])
    ensures var n := BatchTaken(t, items);
      var t' := AddItems(t, items[..n]);
      && t' == t.(currentWeight := t.currentWeight + ItemWeight(items[..n]),
                  currentVolume := t.currentVolume + ItemVolume(items[..n]))
      && t'.currentWeight <= t.maxWeight && t'.currentVolume <= t.maxVolume
      && 0.0 <= ItemWeight(items[..n]) <= 15.0 * n as real
      && 0.0 <= ItemVolume(items[..n]) <= VOL_C * n as real
      && BeltIds(items[..n]) == []
    decreases |items|
  {
    var n := BatchTaken(t, items);
    if n > 0 {
      assert items[..n][1..] == items[1..][..n - 1];
      BatchSums(AddItem(t, items[0].weight, items[0].volume), items[1..]);
    }
  }

  /** An express batch goes on board up to the first item that exceeds a limit: what is taken is
      added, is within the limits, and one item more would not be. */
  lemma {:induction false} BatchIsLongest(t: TruckState, items: seq<Item>)
    ensures var n := BatchTaken(t, items);
      var t' := AddItems(t, items[..n]);
      && t' == t.(currentWeight := t.currentWeight + ItemWeight(items[..n]), currentVolume := t.currentVolume + ItemVolume(items[..n]))
      && (n > 0 ==> t'.currentWeight <= t.maxWeight && t'.currentVolume <= t.maxVolume)
      && (n < |items| ==>
            || t.currentWeight + ItemWeight(items[..n + 1]) > t.maxWeight
            || t.currentVolume + ItemVolume(items[..n + 1]) > t.maxVolume)
    decreases |items|
  {
    var n := BatchTaken(t, items);
    if n > 0 {
      assert items[..n][1..] == items[1..][..n - 1];
      if n < |items| {
        assert items[..n + 1][1..] == items[1..][..n];
      }
      BatchIsLongest(AddItem(t, items[0].weight, items[0].volume), items[1..]);
    } else if items != [] {
      assert items[..1] == [items[0]] && [items[0]][1..] == [];
      assert ItemWeight(items[..1]) == items[0].weight;
      assert ItemVolume(items[..1]) == items[0].volume;
    }
  }

  lemma BatchKeeps(d: Dock, items: seq<Item>)
    requires DockOk(d) && d.truck.isPresent && |items| <= 5
    requires forall i :: 0 <= i < |items| ==> ExpressItem(items[i])
    ensures DockOk(LoadBatch(d, items).0)
  {
    BatchTruck(d, items);
    BatchSums(d.truck, items);
    hide TruckOk, BooksOk, ExpressItem, ItemWeight, ItemVolume, BeltIds;
    AcceptBooks(d, LoadBatch(d, items).0, items[..BatchTaken(d.truck, items)]);
  }

  lemma BatchTruck(d: Dock, items: seq<Item>)
    requires TruckOk(d) && |items| <= 5 && forall i :: 0 <= i < |items| ==> ExpressItem(items[i])
    ensures TruckOk(LoadBatch(d, items).0)
  {
    var n := BatchTaken(d.truck, items);
    BatchSums(d.truck, items);
    WeightOfConcat(d.cargo, items[..n]);
    VolumeOfConcat(d.cargo, items[..n]);
    IdsOfConcat(d.cargo, items[..n]);
    hide ItemWeight, ItemVolume, BeltIds, BatchTaken, AddItems, ExpressItem;
  }

  /** A truck that leaves becomes one trip. */
  lemma LeaveKeeps(d: Dock, left: (TruckState, int))
    requires DockOk(d) && d.truck.isPresent && !left.0.isPresent
    requires left.1 == d.completed + 1 || (left.1 == d.completed && d.truck.currentWeight <= 0.1)
    ensures DockOk(Leave(d, left))
  {
    LeftTrip(d, left);
    hide Carried, Counted, ItemWeight, ItemVolume, BeltIds, BeltItem, ExpressItem;
  }

  lemma DepartKeeps(d: Dock, pid: int)
    requires DockOk(d) && d.truck.isPresent
    ensures DockOk(Depart(d, pid))
    ensures d.truck.id == pid ==>
      && Depart(d, pid).completed == d.completed + 1
      && Depart(d, pid).trips == d.trips + [Trip(d.truck, d.cargo, true)]
      && Depart(d, pid).truck == d.truck.(isPresent := false)
  {
    hide DockOk;
    if d.truck.id == pid {
      LeaveKeeps(d, DepartLeave(d.truck, d.completed, pid));
    }
  }

  lemma ShutdownKeeps(d: Dock, pid: int)
    requires DockOk(d) && d.truck.isPresent
    ensures DockOk(Shutdown(d, pid))
  {
    hide DockOk, Leave;
    if d.truck.id == pid {
      LeaveKeeps(d, ShutdownLeave(d.truck, d.completed, pid));
    }
  }

  /** A truck that leaves uncounted carries nothing, or one single package of exactly 0.1 kg. */
  lemma UncountedTripIsNearlyEmpty(d: Dock, i: nat)
    requires BooksOk(d) && i < |d.trips| && !d.trips[i].counted
    ensures var c := d.trips[i].cargo; c == [] || (|c| == 1 && c[0].id > 0 && c[0].weight == 0.1)
  {
    var c := d.trips[i].cargo;
    CargoAccepted(d.trips, i);
    if |c| >= 1 {
      forall j | 0 <= j < |c| ensures c[j].weight >= 0.1 {
        assert c[j] in d.accepted;
      }
      WeightAtLeast(c[1..]);
      assert c[0] in d.accepted;
    }
  }

  lemma {:induction false} CargoAccepted(trips: seq<Trip>, i: nat)
    requires i < |trips|
    ensures forall it :: it in trips[i].cargo ==> it in Carried(trips)
  {
    if i < |trips| - 1 {
      CargoAccepted(trips[..|trips| - 1], i);
    }
  }

  lemma {:induction false} WeightAtLeast(items: seq<Item>)
    requires forall j :: 0 <= j < |items| ==> items[j].weight >= 0.1
    ensures ItemWeight(items) >= 0.1 * |items| as real
  {
    if items != [] {
      WeightAtLeast(items[1..]);
    }
  }

  lemma {:induction false} WeightNonNegative(items: seq<Item>)
    requires forall it :: it in items ==> it.weight >= 0.0
    ensures ItemWeight(items) >= 0.0
  {
    if items != [] {
      WeightNonNegative(items[1..]);
    }
  }

  /** Over every docking: at most 154 belt packages, although `max_load` is tested after loading. */
  lemma LoadBound(d: Dock)
    requires DockOk(d) && d.truck.isPresent
    ensures d.truck.currentLoad <= 154
  {
    assert 155.0 * VOL_A > 3.0;
  }

  /** A truck that holds at most one express batch and nothing from the belt has room for any
      package a worker can make. */
  lemma RoomAfterOneBatch(d: Dock, p: Package)
    requires DockOk(d) && d.truck.isPresent && d.truck.currentLoad == 0 && d.batches <= 1
    requires BeltItem(ItemOf(p))
    ensures LoadPackage(d, p).1.Loaded?
  {
  }

  /** Total weight, by the trucks' own records on leaving, of the trips that were counted, or of
      those that were not. */
  function TripWeight(trips: seq<Trip>, counted: bool): real {
    if trips == [] then 0.0
    else
      var last := trips[|trips| - 1];
      TripWeight(trips[..|trips| - 1], counted) + if last.counted == counted then last.truck.currentWeight else 0.0
  }

  function TripVolume(trips: seq<Trip>, counted: bool): real {
    if trips == [] then 0.0
    else
      var last := trips[|trips| - 1];
      TripVolume(trips[..|trips| - 1], counted) + if last.counted == counted then last.truck.currentVolume else 0.0
  }

  lemma {:induction false} VolumeLeft(trips: seq<Trip>)
    requires forall i :: 0 <= i < |trips| ==> RecordOk(trips[i])
    ensures ItemVolume(Carried(trips)) == TripVolume(trips, true) + TripVolume(trips, false)
  {
    if trips != [] {
      var rest := trips[..|trips| - 1];
      VolumeLeft(rest);
      VolumeOfConcat(Carried(rest), trips[|trips| - 1].cargo);
    }
  }

  /** Weight in, weight out: what left the dock is what was counted plus what was lost, and each
      uncounted trip loses at most 0.1 kg. */
  lemma {:induction false} WeightLeft(trips: seq<Trip>)
    requires forall i :: 0 <= i < |trips| ==> RecordOk(trips[i])
    requires forall i :: 0 <= i < |trips| ==> trips[i].counted || ItemWeight(trips[i].cargo) <= 0.1
    ensures ItemWeight(Carried(trips)) == TripWeight(trips, true) + TripWeight(trips, false)
    ensures TripWeight(trips, false) <= 0.1 * (|trips| - Counted(trips)) as real
  {
    if trips != [] {
      var rest := trips[..|trips| - 1];
      WeightLeft(rest);
      WeightOfConcat(Carried(rest), trips[|trips| - 1].cargo);
    }
  }

  /** Shutting down loses a truck's payload exactly if that is a single package of 0.1 kg. */
  lemma ShutdownLosesExactly(d: Dock, pid: int)
    requires DockOk(d) && d.truck.isPresent && d.truck.id == pid && d.cargo != []
    ensures Shutdown(d, pid).completed == d.completed <==> |d.cargo| == 1 && d.cargo[0].weight == 0.1
  {
    forall j | 0 <= j < |d.cargo|
      ensures d.cargo[j].weight >= 0.1
    {
      assert d.cargo[j] in d.accepted;
    }
    assert d.cargo == [d.cargo[0]] + d.cargo[1..];
    WeightAtLeast(d.cargo[1..]);
  }

  /** The same in terms of the record: a truck leaves uncounted exactly if it is empty or has one
      package of 0.1 kg. */
  lemma LossByRecord(d: Dock, pid: int)
    requires DockOk(d) && d.truck.isPresent && d.truck.id == pid
    ensures Shutdown(d, pid).completed == d.completed <==>
      || (d.truck.currentLoad == 0 && d.truck.currentWeight == 0.0)
      || (d.truck.currentLoad == 1 && d.truck.currentWeight == 0.1)
  {
    if d.cargo != [] && d.truck.currentWeight <= 0.1 {
      ShutdownLosesExactly(d, pid);
      var it := d.cargo[0];
      assert d.cargo == [it] && it in d.accepted;
      assert BeltIds([it]) == [it.id] && ItemWeight([it]) == it.weight;
    }
  }

  function Copies(it: Item, n: nat): seq<Item> {
    seq(n, _ => it)
  }

  /** A batch for which there is room goes on board completely. */
  lemma {:induction false} WholeBatch(t: TruckState, items: seq<Item>)
    requires forall i :: 0 <= i < |items| ==> items[i].weight >= 0.0 && items[i].volume >= 0.0
    requires Fits(t, ItemWeight(items), ItemVolume(items))
    ensures BatchTaken(t, items) == |items| && ItemWeight(items) >= 0.0 && ItemVolume(items) >= 0.0
    ensures AddItems(t, items) ==
      t.(currentWeight := t.currentWeight + ItemWeight(items), currentVolume := t.currentVolume + ItemVolume(items))
    decreases |items|
  {
    if items != [] {
      NonNegativeSums(items[1..]);
      WholeBatch(AddItem(t, items[0].weight, items[0].volume), items[1..]);
    }
  }

  lemma {:induction false} NonNegativeSums(items: seq<Item>)
    requires forall i :: 0 <= i < |items| ==> items[i].weight >= 0.0 && items[i].volume >= 0.0
    ensures ItemWeight(items) >= 0.0 && ItemVolume(items) >= 0.0
  {
    if items != [] {
      NonNegativeSums(items[1..]);
    }
  }

  /** One batch per docking is as much as `RoomAfterOneBatch` can bear: after two batches a truck
      in range can be too full for the smallest package. */
  lemma NoRoomAfterTwoBatches(p: Package)
    requires p.volume >= VOL_A
    ensures var items := Copies(Item(0, 1.0, VOL_C), 5);
      var d := LoadBatch(LoadBatch(Claim(EMPTY_DOCK, 1, 200.0, 1.0), items).0, items).0;
      d.truck.isPresent && d.truck.currentLoad == 0 && d.batches == 2 && LoadPackage(d, p).1.Rejected?
  {
    var it := Item(0, 1.0, VOL_C);
    var d := Claim(EMPTY_DOCK, 1, 200.0, 1.0);
    FiveMore(d, it);
    hide LoadBatch, Copies;
    FiveMore(LoadBatch(d, Copies(it, 5)).0, it);
  }

  /** A batch of five equal items for which there is room. */
  lemma FiveMore(d: Dock, it: Item)
    requires it.weight >= 0.0 && it.volume >= 0.0 && Fits(d.truck, 5.0 * it.weight, 5.0 * it.volume)
    ensures var d' := LoadBatch(d, Copies(it, 5)).0;
      && d'.truck == d.truck.(currentWeight := d.truck.currentWeight + 5.0 * it.weight,
                              currentVolume := d.truck.currentVolume + 5.0 * it.volume)
      && d'.batches == d.batches + 1
  {
    var items := Copies(it, 5);
    assert |items| == 5;
    assert items == [it, it, it, it, it];
    assert items[..|items|] == items;
    FiveSums(it);
    WholeBatch(d.truck, items);
  }

  lemma FiveSums(it: Item)
    ensures ItemWeight([it, it, it, it, it]) == 5.0 * it.weight && ItemVolume([it, it, it, it, it]) == 5.0 * it.volume
  {
    assert [it, it, it, it, it] == [it] + ([it] + ([it] + ([it] + [it])));
    assert [it][1..] == [];
    assert ItemWeight([it]) == it.weight;
    assert ItemVolume([it]) == it.volume;
    WeightOfConcat([it], [it]);
    VolumeOfConcat([it], [it]);
    WeightOfConcat([it], [it] + [it]);
    VolumeOfConcat([it], [it] + [it]);
    WeightOfConcat([it], [it] + ([it] + [it]));
    VolumeOfConcat([it], [it] + ([it] + [it]));
    WeightOfConcat([it], [it] + ([it] + ([it] + [it])));
    VolumeOfConcat([it], [it] + ([it] + ([it] + [it])));
  }
}
