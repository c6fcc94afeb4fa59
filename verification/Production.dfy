/** The generators of packages (include/Worker.h:94-124) and of express items
    (include/Express.h:105-122), with the random draws as arguments. */
module Production {
  import opened Shared
  import opened Docking

  /** One draw of the type and of each weight distribution. */
  datatype Draw = Draw(roll: int, weightA: real, weightB: real, weightC: real)

  predicate Drawn(d: Draw) {
    0 <= d.roll <= 2 && 0.1 <= d.weightA < 8.0 && 8.0 <= d.weightB < 16.0 && 16.0 <= d.weightC < 25.0
  }

  function Generate(pid: int, d: Draw): Package
    requires Drawn(d)
  {
    match d.roll
    case 0 => Package(0, pid, TypeA, d.weightA, VOL_A)
    case 1 => Package(0, pid, TypeB, d.weightB, VOL_B)
    case _ => Package(0, pid, TypeC, d.weightC, VOL_C)
  }

  /** The packages that can be drawn are exactly the unnumbered ones that `WorkerMade` describes. */
  lemma GeneratedExactlyWhen(pid: int, p: Package)
    ensures (exists d :: Drawn(d) && Generate(pid, d) == p) <==> WorkerMade(p) && p.id == 0 && p.creator == pid
  {
    if WorkerMade(p) && p.id == 0 && p.creator == pid {
      var d :=
        match p.kind
        case TypeA => Draw(0, p.weight, 8.0, 16.0)
        case TypeB => Draw(1, 1.0, p.weight, 16.0)
        case _ => Draw(2, 1.0, 8.0, p.weight);
      assert Drawn(d) && Generate(pid, d) == p;
    }
  }

  /** One draw of the type and the weight of an express item (include/Express.h:105-122). */
  function GenerateExpress(roll: int, weight: real): Item {
    Item(0, weight, if roll == 2 then VOL_C else if roll == 1 then VOL_B else VOL_A)
  }

  lemma ExpressExactlyWhen(it: Item)
    ensures (exists roll, weight :: 0 <= roll <= 2 && 1.0 <= weight < 15.0 && GenerateExpress(roll, weight) == it)
      <==> ExpressItem(it)
  {
    if ExpressItem(it) {
      var roll := if it.volume == VOL_A then 0 else if it.volume == VOL_B then 1 else 2;
      assert GenerateExpress(roll, it.weight) == it;
    }
  }
}
