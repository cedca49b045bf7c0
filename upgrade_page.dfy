/** The upgrade screen (app/upgrade/page.tsx): spending upgrade points on
    the four trainable stats and choosing the stadium skin, which unlocks
    with the player's level. */
module UpgradePage {
  import opened Types
  import opened Traits

  const StadiumOptions: seq<string> := ["Neon Wave", "Crimson Burst", "Aurora Pulse", "Solar Flare", "Quantum Mist"]

  /** The four stats points can be spent on. */
  datatype StatKey = PowerKey | SpeedKey | StrengthKey | AgilityKey

  function Points(u: UpgradeState, key: StatKey): int
  {
    match key
    case PowerKey => u.power
    case SpeedKey => u.speed
    case StrengthKey => u.strength
    case AgilityKey => u.agility
  }

  /** The points already spent. */
  function Spent(u: UpgradeState): int
  {
    u.power + u.speed + u.strength + u.agility
  }

  /** `availablePoints`: the earned points not yet spent, never negative. */
  function AvailablePoints(p: Progress): (a: int)
    ensures a >= 0
    ensures a > 0 <==> Spent(p.upgrades) < UpgradePoints(p.xp)
    ensures a > 0 ==> a + Spent(p.upgrades) == UpgradePoints(p.xp)
  {
    var available := UpgradePoints(p.xp) - Spent(p.upgrades);
    if available > 0 then available else 0
  }

  /** The progress after `upgradeStat(key)`: nothing changes without an
      available point; otherwise the named stat gains exactly one point and
      everything else stays. */
  function Upgraded(p: Progress, key: StatKey): (r: Progress)
    ensures AvailablePoints(p) <= 0 ==> r == p
    ensures AvailablePoints(p) > 0 ==>
              Points(r.upgrades, key) == Points(p.upgrades, key) + 1
              && (forall k :: k != key ==> Points(r.upgrades, k) == Points(p.upgrades, k))
              && r.upgrades.stadiumFx == p.upgrades.stadiumFx
              && r.(upgrades := p.upgrades) == p
  {
    if AvailablePoints(p) <= 0 then p
    else
      var u := p.upgrades;
      var bumped := match key
        case PowerKey => u.(power := u.power + 1)
        case SpeedKey => u.(speed := u.speed + 1)
        case StrengthKey => u.(strength := u.strength + 1)
        case AgilityKey => u.(agility := u.agility + 1);
      p.(upgrades := bumped)
  }

  /** Spending never goes over budget: with the available points recomputed
      before each click, the spent points stay within the earned ones. */
  lemma {:induction false} UpgradeKeepsBudget(p: Progress, key: StatKey)
    requires Spent(p.upgrades) <= UpgradePoints(p.xp)
    ensures Spent(Upgraded(p, key).upgrades) <= UpgradePoints(p.xp)
    ensures Spent(Upgraded(p, key).upgrades) == Spent(p.upgrades) + (if AvailablePoints(p) > 0 then 1 else 0)
  {
    var r := Upgraded(p, key);
    if AvailablePoints(p) > 0 {
      assert Points(r.upgrades, key) == Points(p.upgrades, key) + 1;
      match key {
        case PowerKey =>
          assert r.upgrades.speed == p.upgrades.speed && r.upgrades.strength == p.upgrades.strength
            && r.upgrades.agility == p.upgrades.agility;
        case SpeedKey =>
          assert r.upgrades.power == p.upgrades.power && r.upgrades.strength == p.upgrades.strength
            && r.upgrades.agility == p.upgrades.agility;
        case StrengthKey =>
          assert r.upgrades.power == p.upgrades.power && r.upgrades.speed == p.upgrades.speed
            && r.upgrades.agility == p.upgrades.agility;
        case AgilityKey =>
          assert r.upgrades.power == p.upgrades.power && r.upgrades.speed == p.upgrades.speed
            && r.upgrades.strength == p.upgrades.strength;
      }
    }
  }

  /** Stadium option `index` (0-based) is unlocked from level index + 1;
      an unlocked option has every earlier option unlocked with it. */
  predicate Unlocked(p: Progress, index: nat)
    ensures Unlocked(p, index) ==> forall j: nat :: j <= index ==> Unlocked(p, j)
  {
    p.level >= index + 1
  }

  /** With the level derived from XP, option `index` unlocks exactly when the
      XP reaches the start of level index + 1. */
  lemma {:induction false} UnlockedByXp(p: Progress, index: nat)
    requires p.xp >= 0 && p.level == LevelFromXp(p.xp)
    ensures Unlocked(p, index) <==> p.xp >= Threshold(index + 1)
  {
    var l := LevelFromXp(p.xp);
    if l >= index + 1 {
      ThresholdMonotone(index + 1, l);
    } else {
      ThresholdMonotone(l + 1, index + 1);
    }
  }

  /** The first skin is open from the start. */
  lemma FirstStadiumAlwaysUnlocked(p: Progress)
    requires p.level == LevelFromXp(p.xp)
    ensures Unlocked(p, 0)
  {
  }

  /** The screen's view of the player's progress. */
  class UpgradeScreen {
    var progress: Progress

    /** The spent points never exceed the earned ones. */
    ghost predicate WithinBudget()
      reads this
    {
      Spent(progress.upgrades) <= UpgradePoints(progress.xp)
    }

    constructor (p: Progress)
      ensures progress == p
    {
      progress := p;
    }

    /** `upgradeStat(key)`. */
    method UpgradeStat(key: StatKey)
      modifies this
      ensures progress == Upgraded(old(progress), key)
      ensures old(WithinBudget()) ==> WithinBudget()
    {
      if AvailablePoints(progress) <= 0 {
        return;
      }
      UpgradeKeepsBudget(progress, key);
      var u := progress.upgrades;
      match key {
        case PowerKey => u := u.(power := u.power + 1);
        case SpeedKey => u := u.(speed := u.speed + 1);
        case StrengthKey => u := u.(strength := u.strength + 1);
        case AgilityKey => u := u.(agility := u.agility + 1);
      }
      progress := progress.(upgrades := u);
    }

    /** `setStadiumFx(value)`: only the skin changes. */
    method SetStadiumFx(value: string)
      modifies this
      ensures progress == old(progress).(upgrades := old(progress).upgrades.(stadiumFx := value))
      ensures old(WithinBudget()) ==> WithinBudget()
    {
      progress := progress.(upgrades := progress.upgrades.(stadiumFx := value));
    }

    /** A click on stadium option `index`: takes effect only when unlocked. */
    method ChooseStadium(index: nat)
      requires index < |StadiumOptions|
      modifies this
      ensures Unlocked(old(progress), index) ==>
                progress == old(progress).(upgrades := old(progress).upgrades.(stadiumFx := StadiumOptions[index]))
      ensures !Unlocked(old(progress), index) ==> progress == old(progress)
      ensures old(WithinBudget()) ==> WithinBudget()
    {
      if Unlocked(progress, index) {
        SetStadiumFx(StadiumOptions[index]);
      }
    }
  }
}
