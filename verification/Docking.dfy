/** The dock record of include/Shared.h:310-319 and the critical sections that change it
    (include/Truck.h, include/Dispatcher.h, include/Express.h), together with a ledger of
    everything that was ever accepted on a truck. */
module Docking {
  import opened Shared

  /** Something on a truck: a package from the belt (positive identifier) or an express item (0). */
  datatype Item = Item(id: int, weight: real, volume: real)

  function ItemOf(p: Package): Item { Item(p.id, p.weight, p.volume) }

  /** Items a truck can meet: worker-made packages (include/Worker.h:95-123) and express items
      (include/Express.h:106-122). */
  predicate BeltItem(it: Item) {
    it.id > 0 && 0.1 <= it.weight < 25.0 && VOL_A <= it.volume <= VOL_C
  }

  predicate ExpressItem(it: Item) {
    it.id == 0 && 1.0 <= it.weight < 15.0 && it.volume in {VOL_A, VOL_B, VOL_C}
  }

  predicate Fits(t: TruckState, weight: real, volume: real) {
    t.currentWeight + weight <= t.maxWeight && t.currentVolume + volume <= t.maxVolume
  }

  /** `randomizeTruckSpecs` (include/Truck.h:58-76). */
  function Docked(pid: int, maxWeight: real, maxVolume: real): TruckState {
    TruckState(true, pid, 0, 100, 0.0, 0.0, maxWeight, maxVolume)
  }

  predicate SpecsInRange(maxWeight: real, maxVolume: real) {
    200.0 <= maxWeight < 600.0 && 1.0 <= maxVolume < 3.0
  }

  function AddItem(t: TruckState, weight: real, volume: real): TruckState {
    t.(currentWeight := t.currentWeight + weight, currentVolume := t.currentVolume + volume)
  }

  /** The dispatcher's departure condition (include/Dispatcher.h:119-121). */
  predicate LimitReached(t: TruckState) {
    || t.currentLoad >= t.maxLoad
    || t.currentWeight >= t.maxWeight * 0.99
    || t.currentVolume >= t.maxVolume * 0.99
  }

  datatype Attempt = NoTruck | Rejected | Loaded(full: bool)

  /** One round of the dispatcher's loop under the dock mutex (include/Dispatcher.h:101-139). */
  function TryLoad(t: TruckState, weight: real, volume: real): (TruckState, Attempt) {
    if !t.isPresent then (t, NoTruck)
    else if Fits(t, weight, volume) then
      var t' := AddItem(t, weight, volume).(currentLoad := t.currentLoad + 1);
      (t', Loaded(LimitReached(t')))
    else (t, Rejected)
  }

  /** How many items of an express batch go on the truck before the first that does not fit
      (include/Express.h:108-142). */
  function BatchTaken(t: TruckState, items: seq<Item>): (n: nat)
    ensures n <= |items|
    decreases |items|
  {
    if items == [] || !Fits(t, items[0].weight, items[0].volume) then 0
    else 1 + BatchTaken(AddItem(t, items[0].weight, items[0].volume), items[1..])
  }

  function AddItems(t: TruckState, items: seq<Item>): TruckState
    decreases |items|
  {
    if items == [] then t
    else AddItems(AddItem(t, items[0].weight, items[0].volume), items[1..])
  }

  /** Leaving on shutdown (include/Truck.h:139-156): the record and `trucks_completed` afterwards. */
  function ShutdownLeave(t: TruckState, completed: int, pid: int): (TruckState, int) {
    if t.id == pid && t.currentWeight > 0.1 then (t.(isPresent := false), completed + 1)
    else if t.id == pid then (t.(isPresent := false), completed)
    else (t, completed)
  }

  /** Ordinary departure (include/Truck.h:166-176). */
  function DepartLeave(t: TruckState, completed: int, pid: int): (TruckState, int) {
    if t.id == pid then (t.(isPresent := false), completed + 1) else (t, completed)
  }

  /** Clean-up after the loop (include/Truck.h:187-189). */
  function CleanupLeave(t: TruckState, pid: int): TruckState {
    if t.isPresent && t.id == pid then t.(isPresent := false) else t
  }
}
