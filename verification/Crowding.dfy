/** How many express batches a truck bears before it can refuse a worker's package, so that
    "at most one batch per docking" can be compared with what a given truck has room for. */
module Crowding {
  import opened Shared
  import opened Docking
  import opened Ledger

  /** A batch that Express can draw (include/Express.h:102-122). */
  predicate BatchOk(items: seq<Item>) {
    3 <= |items| <= 5 && forall i :: 0 <= i < |items| ==> ExpressItem(items[i])
  }

  /** The dock after some batches in turn. */
  function LoadBatches(d: Dock, bs: seq<seq<Item>>): Dock {
    if bs == [] then d else LoadBatch(LoadBatches(d, bs[..|bs| - 1]), bs[|bs| - 1]).0
  }

  ghost predicate Refuses(pid: int, maxWeight: real, maxVolume: real, bs: seq<seq<Item>>, p: Package) {
    LoadPackage(LoadBatches(Claim(EMPTY_DOCK, pid, maxWeight, maxVolume), bs), p).1.Rejected?
  }

  ghost predicate Drawable(bs: seq<seq<Item>>, b: nat) {
    |bs| == b && forall i :: 0 <= i < |bs| ==> BatchOk(bs[i])
  }

  lemma BatchFrame(d: Dock, items: seq<Item>)
    requires DockOk(d) && d.truck.isPresent && BatchOk(items)
    ensures var d' := LoadBatch(d, items).0;
      && DockOk(d') && d'.truck.isPresent && d'.truck.currentLoad == d.truck.currentLoad && d'.batches == d.batches + 1
      && d'.truck.maxWeight == d.truck.maxWeight && d'.truck.maxVolume == d.truck.maxVolume
  {
    BatchSums(d.truck, items);
    BatchKeeps(d, items);
  }

  lemma {:induction false} BatchesKeep(pid: int, maxWeight: real, maxVolume: real, bs: seq<seq<Item>>)
    requires pid > 0 && SpecsInRange(maxWeight, maxVolume) && Drawable(bs, |bs|)
    ensures var d := LoadBatches(Claim(EMPTY_DOCK, pid, maxWeight, maxVolume), bs);
      && DockOk(d) && d.truck.isPresent && d.truck.currentLoad == 0 && d.batches == |bs|
      && d.truck.maxWeight == maxWeight && d.truck.maxVolume == maxVolume
  {
    if bs == [] {
      ClaimKeeps(EMPTY_DOCK, pid, maxWeight, maxVolume);
    } else {
      hide DockOk, BatchOk, LoadBatch;
      BatchesKeep(pid, maxWeight, maxVolume, bs[..|bs| - 1]);
      BatchFrame(LoadBatches(Claim(EMPTY_DOCK, pid, maxWeight, maxVolume), bs[..|bs| - 1]), bs[|bs| - 1]);
    }
  }

  /** The largest and lightest express item. */
  const BULKY := Item(0, 1.0, VOL_C)

  /** Only such items are on board, all of `n` of them, or there is no room for another. */
  predicate Stuffed(t: TruckState, n: real) {
    && t.currentVolume == VOL_C * t.currentWeight && 0.0 <= t.currentVolume <= t.maxVolume
    && (t.currentWeight == n || t.currentVolume + VOL_C > t.maxVolume)
  }

  lemma {:induction false} StuffBatch(t: TruckState, n: nat, k: real)
    requires Stuffed(t, k) && 200.0 <= t.maxWeight && t.maxVolume < 3.0
    ensures var t' := AddItems(t, Copies(BULKY, n)[..BatchTaken(t, Copies(BULKY, n))]);
      Stuffed(t', k + n as real) && t' == t.(currentWeight := t'.currentWeight, currentVolume := t'.currentVolume)
    decreases n
  {
    var items := Copies(BULKY, n);
    var taken := BatchTaken(t, items);
    assert t.currentWeight < 31.0;
    if n > 0 && Fits(t, 1.0, VOL_C) {
      assert items[1..] == Copies(BULKY, n - 1);
      assert items[..taken][1..] == items[1..][..taken - 1];
      StuffBatch(AddItem(t, 1.0, VOL_C), n - 1, k + 1.0);
    }
  }

  function Repeat(items: seq<Item>, b: nat): seq<seq<Item>> {
    seq(b, _ => items)
  }

  lemma {:induction false} StuffBatches(d: Dock, b: nat)
    requires Stuffed(d.truck, 0.0) && d.truck.isPresent && 200.0 <= d.truck.maxWeight && d.truck.maxVolume < 3.0
    ensures var t := LoadBatches(d, Repeat(Copies(BULKY, 5), b)).truck;
      Stuffed(t, 5.0 * b as real) && t == d.truck.(currentWeight := t.currentWeight, currentVolume := t.currentVolume)
  {
    if b > 0 {
      var bs := Repeat(Copies(BULKY, 5), b);
      assert bs[..b - 1] == Repeat(Copies(BULKY, 5), b - 1) && bs[b - 1] == Copies(BULKY, 5);
      StuffBatches(d, b - 1);
      StuffBatch(LoadBatches(d, bs[..b - 1]).truck, 5, 5.0 * (b - 1) as real);
    }
  }

  /** The refusal for want of volume. */
  lemma FullByVolume(pid: int, maxWeight: real, maxVolume: real, b: nat) returns (bs: seq<seq<Item>>, p: Package)
    requires SpecsInRange(maxWeight, maxVolume) && VOL_C * (5 * b + 1) as real > maxVolume
    ensures Drawable(bs, b) && WorkerMade(p) && Refuses(pid, maxWeight, maxVolume, bs, p)
  {
    bs, p := Repeat(Copies(BULKY, 5), b), Package(0, 1, TypeC, 16.0, VOL_C);
    StuffBatches(Claim(EMPTY_DOCK, pid, maxWeight, maxVolume), b);
  }

  /** `x` added up `b` times. */
  function Times(b: nat, x: real): real {
    if b == 0 then 0.0 else Times(b - 1, x) + x
  }

  lemma {:induction false} TimesIsProduct(b: nat, x: real)
    ensures Times(b, x) == b as real * x
  {
    if b > 0 {
      TimesIsProduct(b - 1, x);
    }
  }

  /** Batches of five equal items for which there is room. */
  lemma {:induction false} EqualBatches(d: Dock, it: Item, b: nat)
    requires it.weight >= 0.0 && it.volume >= 0.0 && d.truck.isPresent && d.truck.currentWeight == 0.0 && d.truck.currentVolume == 0.0
    requires Times(b, 5.0 * it.weight) <= d.truck.maxWeight && Times(b, 5.0 * it.volume) <= d.truck.maxVolume
    ensures LoadBatches(d, Repeat(Copies(it, 5), b)).truck ==
      d.truck.(currentWeight := Times(b, 5.0 * it.weight), currentVolume := Times(b, 5.0 * it.volume))
  {
    if b > 0 {
      hide LoadBatch, Copies;
      var bs, items := Repeat(Copies(it, 5), b), Copies(it, 5);
      assert bs[..b - 1] == Repeat(items, b - 1) && bs[b - 1] == items;
      EqualBatches(d, it, b - 1);
      FiveMore(LoadBatches(d, bs[..b - 1]), it);
    }
  }

  /** The refusal for want of weight: express items and package of nearly the greatest weight. */
  lemma FullByWeight(pid: int, maxWeight: real, maxVolume: real, b: nat) returns (bs: seq<seq<Item>>, p: Package)
    requires SpecsInRange(maxWeight, maxVolume) && 75.0 * b as real + 25.0 > maxWeight && VOL_C * (5 * b + 1) as real <= maxVolume
    ensures Drawable(bs, b) && WorkerMade(p) && Refuses(pid, maxWeight, maxVolume, bs, p)
  {
    assert 3 <= b <= 5;
    var gap := 75.0 * b as real + 25.0 - maxWeight;
    var weight := if 75.0 * b as real > maxWeight then maxWeight / (5 * b) as real else 15.0 - gap / 27.0;
    var it := Item(0, weight, VOL_A);
    bs := Repeat(Copies(it, 5), b);
    p := Package(0, 1, TypeC, if 75.0 * b as real > maxWeight then 16.0 else 25.0 - gap / 27.0, VOL_C);
    NearlyFull(b, maxWeight, weight, p.weight);
    TimesIsProduct(b, 5.0 * weight);
    TimesIsProduct(b, 5.0 * VOL_A);
    EqualBatches(Claim(EMPTY_DOCK, pid, maxWeight, maxVolume), it, b);
  }

  lemma NearlyFull(b: nat, maxWeight: real, weight: real, last: real)
    requires 3 <= b <= 5 && 200.0 <= maxWeight < 600.0 && 75.0 * b as real + 25.0 > maxWeight
    requires 75.0 * b as real > maxWeight ==> weight == maxWeight / (5 * b) as real && last == 16.0
    requires 75.0 * b as real <= maxWeight ==>
      weight == 15.0 - (75.0 * b as real + 25.0 - maxWeight) / 27.0 && last == 25.0 - (75.0 * b as real + 25.0 - maxWeight) / 27.0
    ensures 1.0 <= weight < 15.0 && 16.0 <= last < 25.0
    ensures b as real * (5.0 * weight) <= maxWeight < b as real * (5.0 * weight) + last
  {
    if b == 3 {
    } else if b == 4 {
    } else {
      assert b == 5;
    }
  }

  /** A truck that has nothing from the belt can refuse a worker's package after `b` express batches
      exactly if it has no room, by volume or by weight, for `b` greatest batches and one greatest
      package. */
  lemma RefusalExactlyWhen(pid: int, maxWeight: real, maxVolume: real, b: nat)
    requires pid > 0 && SpecsInRange(maxWeight, maxVolume)
    ensures (exists bs, p :: Drawable(bs, b) && WorkerMade(p) && Refuses(pid, maxWeight, maxVolume, bs, p)) <==>
      VOL_C * (5 * b + 1) as real > maxVolume || 75.0 * b as real + 25.0 > maxWeight
  {
    if VOL_C * (5 * b + 1) as real > maxVolume {
      var bs, p := FullByVolume(pid, maxWeight, maxVolume, b);
    } else if 75.0 * b as real + 25.0 > maxWeight {
      var bs, p := FullByWeight(pid, maxWeight, maxVolume, b);
    }
    forall bs, p | Drawable(bs, b) && WorkerMade(p) && Refuses(pid, maxWeight, maxVolume, bs, p)
      ensures VOL_C * (5 * b + 1) as real > maxVolume || 75.0 * b as real + 25.0 > maxWeight
    {
      BatchesKeep(pid, maxWeight, maxVolume, bs);
    }
  }

  /** So one batch never leads to a refusal, and two can on any truck of less than 1.096832 cubic
      metres. */
  lemma OneBatchIsSafe(pid: int, maxWeight: real, maxVolume: real, bs: seq<seq<Item>>, p: Package)
    requires pid > 0 && SpecsInRange(maxWeight, maxVolume) && |bs| <= 1 && Drawable(bs, |bs|) && WorkerMade(p)
    ensures !Refuses(pid, maxWeight, maxVolume, bs, p)
  {
    RefusalExactlyWhen(pid, maxWeight, maxVolume, |bs|);
  }
}
