/** The critical sections of include/Truck.h, include/Dispatcher.h and include/Express.h on the
    segment itself, with the messages they send. */
module DockController {
  import opened Shared
  import opened Docking
  import opened Ledger
  import Protocol
  import opened Segment

  class Truck {
    const shm: SharedState
    const pid: int

    constructor (shm: SharedState, pid: int)
      ensures this.shm == shm && this.pid == pid
    {
      this.shm := shm;
      this.pid := pid;
    }

    /** Every field of the record is overwritten; the two limits are the random draws. */
    method RandomizeTruckSpecs(maxWeight: real, maxVolume: real)
      modifies shm`dockTruck
      ensures shm.dockTruck == Docked(pid, maxWeight, maxVolume)
      ensures shm.dockTruck == TruckState(true, pid, 0, 100, 0.0, 0.0, maxWeight, maxVolume)
    {
      shm.dockTruck := shm.dockTruck.(id := pid);
      shm.dockTruck := shm.dockTruck.(currentLoad := 0, currentWeight := 0.0, currentVolume := 0.0);
      shm.dockTruck := shm.dockTruck.(maxLoad := 100, maxWeight := maxWeight, maxVolume := maxVolume);
      shm.dockTruck := shm.dockTruck.(isPresent := true);
    }

    /** Docking succeeds exactly at a free dock; an occupied one is left alone. */
    method TryDock(maxWeight: real, maxVolume: real) returns (docked: bool)
      modifies shm`dockTruck
      ensures docked == !old(shm.dockTruck).isPresent
      ensures shm.dockTruck == if docked then Docked(pid, maxWeight, maxVolume) else old(shm.dockTruck)
    {
      if shm.dockTruck.isPresent {
        return false;
      }
      RandomizeTruckSpecs(maxWeight, maxVolume);
      return true;
    }

    /** Leaving after the stop: more than 0.1 kg on board counts as a delivery. */
    method LeaveOnShutdown()
      modifies shm`dockTruck, shm`completed
      ensures (shm.dockTruck, shm.completed) == old(ShutdownLeave(shm.dockTruck, shm.completed, pid))
      ensures shm.dockTruck == if old(shm.dockTruck).id == pid then old(shm.dockTruck).(isPresent := false) else old(shm.dockTruck)
      ensures shm.completed == old(shm.completed) +
        if old(shm.dockTruck).id == pid && old(shm.dockTruck).currentWeight > 0.1 then 1 else 0
    {
      if shm.dockTruck.id == pid && shm.dockTruck.currentWeight > 0.1 {
        shm.completed := shm.completed + 1;
        shm.dockTruck := shm.dockTruck.(isPresent := false);
      } else if shm.dockTruck.id == pid {
        shm.dockTruck := shm.dockTruck.(isPresent := false);
      }
    }

    method Depart()
      modifies shm`dockTruck, shm`completed
      ensures (shm.dockTruck, shm.completed) == old(DepartLeave(shm.dockTruck, shm.completed, pid))
      ensures shm.dockTruck == if old(shm.dockTruck).id == pid then old(shm.dockTruck).(isPresent := false) else old(shm.dockTruck)
      ensures shm.completed == old(shm.completed) + if old(shm.dockTruck).id == pid then 1 else 0
    {
      if shm.dockTruck.id == pid {
        shm.completed := shm.completed + 1;
        shm.dockTruck := shm.dockTruck.(isPresent := false);
      }
    }

    method CleanUp()
      modifies shm`dockTruck
      ensures shm.dockTruck == old(CleanupLeave(shm.dockTruck, pid))
      ensures !(shm.dockTruck.isPresent && shm.dockTruck.id == pid)
      ensures old(shm.dockTruck).id != pid ==> shm.dockTruck == old(shm.dockTruck)
      ensures shm.dockTruck == old(shm.dockTruck).(isPresent := shm.dockTruck.isPresent)
    {
      if shm.dockTruck.isPresent && shm.dockTruck.id == pid {
        shm.dockTruck := shm.dockTruck.(isPresent := false);
      }
    }
  }

  class Dispatcher {
    const shm: SharedState
    const mail: MessageQueue

    constructor (shm: SharedState, mail: MessageQueue)
      ensures this.shm == shm && this.mail == mail
    {
      this.shm := shm;
      this.mail := mail;
    }

    /** One round of the retry loop: the package is loaded exactly if it fits by weight and volume, and
        then counted; the docked truck is told to leave exactly when it turned the
        package down or is now full, that is, has 100 packages or less than 1% of a limit left. */
    method TryLoad(pkg: Package) returns (attempt: Attempt)
      modifies shm`dockTruck, mail
      ensures (shm.dockTruck, attempt) == old(Docking.TryLoad(shm.dockTruck, pkg.weight, pkg.volume))
      ensures attempt.NoTruck? <==> !old(shm.dockTruck).isPresent
      ensures attempt.Loaded? <==>
        && old(shm.dockTruck).isPresent
        && old(shm.dockTruck).currentWeight + pkg.weight <= old(shm.dockTruck).maxWeight
        && old(shm.dockTruck).currentVolume + pkg.volume <= old(shm.dockTruck).maxVolume
      ensures shm.dockTruck ==
        if attempt.Loaded?
        then old(shm.dockTruck).(currentWeight := old(shm.dockTruck).currentWeight + pkg.weight,
                                 currentVolume := old(shm.dockTruck).currentVolume + pkg.volume,
                                 currentLoad := old(shm.dockTruck).currentLoad + 1)
        else old(shm.dockTruck)
      ensures attempt == Loaded(false) ==>
        && shm.dockTruck.currentLoad < shm.dockTruck.maxLoad
        && 100.0 * shm.dockTruck.currentWeight < 99.0 * shm.dockTruck.maxWeight
        && 100.0 * shm.dockTruck.currentVolume < 99.0 * shm.dockTruck.maxVolume
      ensures attempt == Loaded(true) ==>
        || shm.dockTruck.currentLoad >= shm.dockTruck.maxLoad
        || 100.0 * shm.dockTruck.currentWeight >= 99.0 * shm.dockTruck.maxWeight
        || 100.0 * shm.dockTruck.currentVolume >= 99.0 * shm.dockTruck.maxVolume
      ensures mail.queue ==
        if attempt.Rejected? || attempt == Loaded(true)
        then Protocol.Send(old(mail.queue), old(shm.dockTruck).id, Departure)
        else old(mail.queue)
    {
      var truck := shm.dockTruck;
      if !truck.isPresent {
        return NoTruck;
      }
      var fitsWeight := truck.currentWeight + pkg.weight <= truck.maxWeight;
      var fitsVolume := truck.currentVolume + pkg.volume <= truck.maxVolume;
      if fitsWeight && fitsVolume {
        shm.dockTruck := shm.dockTruck.(currentWeight := truck.currentWeight + pkg.weight);
        shm.dockTruck := shm.dockTruck.(currentVolume := truck.currentVolume + pkg.volume);
        shm.dockTruck := shm.dockTruck.(currentLoad := truck.currentLoad + 1);
        attempt := Loaded(LimitReached(shm.dockTruck));
        if attempt.full {
          mail.SendSignal(shm.dockTruck.id, Departure);
        }
      } else {
        attempt := Rejected;
        mail.SendSignal(truck.id, Departure);
      }
    }
  }

  class Express {
    const shm: SharedState?
    const mail: MessageQueue

    constructor (shm: SharedState?, mail: MessageQueue)
      ensures this.shm == shm && this.mail == mail
    {
      this.shm := shm;
      this.mail := mail;
    }

    ghost function Here(): set<SharedState> {
      if shm == null then {} else {shm}
    }

    /** The batch (the random draws) goes on the truck up to the first item that does not fit;
        that item makes the truck leave. The number of packages on the truck stays as it was. */
    method DeliverExpressBatch(items: seq<Item>) returns (taken: nat)
      modifies Here()`dockTruck, mail
      ensures shm == null || !old(shm.dockTruck).isPresent ==> taken == 0 && mail.queue == old(mail.queue)
      ensures shm != null && !old(shm.dockTruck).isPresent ==> shm.dockTruck == old(shm.dockTruck)
      ensures shm != null && old(shm.dockTruck).isPresent ==>
        && taken == BatchTaken(old(shm.dockTruck), items) <= |items|
        && shm.dockTruck == AddItems(old(shm.dockTruck), items[..taken])
        && mail.queue ==
           if taken < |items| then Protocol.Send(old(mail.queue), old(shm.dockTruck).id, Departure)
           else old(mail.queue)
      ensures shm != null && old(shm.dockTruck).isPresent ==>
        && taken <= |items|
        && shm.dockTruck ==
           old(shm.dockTruck).(currentWeight := old(shm.dockTruck).currentWeight + ItemWeight(items[..taken]),
                               currentVolume := old(shm.dockTruck).currentVolume + ItemVolume(items[..taken]))
        && (taken > 0 ==>
              shm.dockTruck.currentWeight <= shm.dockTruck.maxWeight && shm.dockTruck.currentVolume <= shm.dockTruck.maxVolume)
        && (taken < |items| ==>
              || old(shm.dockTruck).currentWeight + ItemWeight(items[..taken + 1]) > shm.dockTruck.maxWeight
              || old(shm.dockTruck).currentVolume + ItemVolume(items[..taken + 1]) > shm.dockTruck.maxVolume)
    {
      taken := 0;
      if shm == null || !shm.dockTruck.isPresent {
        return;
      }
      ghost var n := BatchTaken(shm.dockTruck, items);
      BatchIsLongest(shm.dockTruck, items);
      while taken < |items|
        invariant taken <= n && shm.dockTruck.id == old(shm.dockTruck).id && mail.queue == old(mail.queue)
        invariant BatchTaken(shm.dockTruck, items[taken..]) == n - taken
        invariant AddItems(shm.dockTruck, items[taken..n]) == AddItems(old(shm.dockTruck), items[..n])
      {
        var item := items[taken];
        assert items[taken..][0] == item && items[taken..][1..] == items[taken + 1..];
        var fitsWeight := shm.dockTruck.currentWeight + item.weight <= shm.dockTruck.maxWeight;
        var fitsVolume := shm.dockTruck.currentVolume + item.volume <= shm.dockTruck.maxVolume;
        if fitsWeight && fitsVolume {
          assert items[taken..n][1..] == items[taken + 1..n];
          shm.dockTruck := shm.dockTruck.(currentWeight := shm.dockTruck.currentWeight + item.weight);
          shm.dockTruck := shm.dockTruck.(currentVolume := shm.dockTruck.currentVolume + item.volume);
          taken := taken + 1;
        } else {
          mail.SendSignal(shm.dockTruck.id, Departure);
          break;
        }
      }
    }
  }
}
