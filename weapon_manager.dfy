/** Weapon selection (Assets/Scripts/Weapons/WeaponManager.cs): a fixed
    array of weapons of which exactly one game object is active, chosen by
    the number keys, with the name label following the choice; a mouse
    click plays the fire animation and uses the current weapon. */
module Weapons {

  /** What the manager reads of a weapon: its display name and the
      animation code it reports. */
  datatype Weapon = Weapon(name: string, animationCode: int)

  /** The manager's state: the weapons' active flags, the current index,
      the label text, and the animator's Fire and WeaponType parameters. */
  datatype Rack = Rack(active: seq<bool>, current: int, caption: string,
                       fireAnim: bool, weaponType: int)

  /** One frame's input. */
  datatype Keys = Keys(mouseHeld: bool, mouseDown: bool, alpha1: bool, alpha2: bool, alpha3: bool)

  /** Whose UseWeapon a frame calls, if any; indexing an empty weapon array
      throws. */
  datatype Outcome = NoUse | Use(index: nat) | IndexOutOfRange

  /** Only the weapon at `index` is active. */
  function OneHot(n: nat, index: int): (r: seq<bool>)
    ensures |r| == n
    ensures forall j :: 0 <= j < n ==> (r[j] <==> j == index)
  {
    seq(n, j => j == index)
  }

  function CountTrue(s: seq<bool>): nat {
    if s == [] then 0 else CountTrue(s[..|s| - 1]) + (if s[|s| - 1] then 1 else 0)
  }

  /** A one-hot row has exactly one flag on when the index is in range. */
  lemma {:induction false} OneHotCount(n: nat, index: int)
    ensures CountTrue(OneHot(n, index)) == if 0 <= index < n then 1 else 0
    decreases n
  {
    if n > 0 {
      assert OneHot(n, index)[..n - 1] == OneHot(n - 1, index);
      OneHotCount(n - 1, index);
    }
  }

  /** EquipWeapon(index) followed by UpdateWeaponNameUI. */
  function Equipped(weapons: seq<Weapon>, hasLabel: bool, r: Rack, index: int): Rack {
    if index < 0 || index >= |weapons| then r
    else r.(active := OneHot(|weapons|, index), current := index,
            caption := if hasLabel then weapons[index].name else r.caption)
  }

  /** The else-if chain over the number keys: the first key pressed wins. */
  function KeyChoice(k: Keys): int {
    if k.alpha1 then 0 else if k.alpha2 then 1 else if k.alpha3 then 2 else -1
  }

  /** Update, as the state it leaves. */
  function Updated(weapons: seq<Weapon>, hasLabel: bool, r: Rack, k: Keys): Rack {
    var r0 := if !k.mouseHeld then r.(fireAnim := false) else r;
    var r1 := if KeyChoice(k) >= 0 then Equipped(weapons, hasLabel, r0, KeyChoice(k)) else r0;
    if !k.mouseDown then r1
    else if 0 <= r1.current < |weapons| then r1.(fireAnim := true, weaponType := weapons[r1.current].animationCode)
    else r1.(fireAnim := true)
  }

  /** Update, as the weapon use it makes. */
  function UpdateOutcome(weapons: seq<Weapon>, hasLabel: bool, r: Rack, k: Keys): Outcome {
    var r1 := Updated(weapons, hasLabel, r, k);
    if !k.mouseDown then NoUse
    else if 0 <= r1.current < |weapons| then Use(r1.current)
    else IndexOutOfRange
  }

  /** Exactly the current weapon is active, and the index is valid. */
  predicate OneActive(weapons: seq<Weapon>, r: Rack) {
    0 <= r.current < |weapons| && r.active == OneHot(|weapons|, r.current)
  }

  /** EquipWeapon with an index out of range changes nothing; otherwise
      exactly the chosen weapon is active, it becomes current, and the label
      shows its name when there is a label. */
  lemma EquipSemantics(weapons: seq<Weapon>, hasLabel: bool, r: Rack, index: int)
    ensures var e := Equipped(weapons, hasLabel, r, index);
            && (!(0 <= index < |weapons|) ==> e == r)
            && (0 <= index < |weapons| ==>
                  && OneActive(weapons, e) && e.current == index
                  && CountTrue(e.active) == 1
                  && (forall j :: 0 <= j < |weapons| ==> (e.active[j] <==> j == index))
                  && e.caption == (if hasLabel then weapons[index].name else r.caption))
  {
    OneHotCount(|weapons|, index);
  }

  /** Start equips the first weapon, which establishes the one-active
      invariant whenever there is a weapon; every Update keeps it. */
  lemma OneActiveKept(weapons: seq<Weapon>, hasLabel: bool, r: Rack, k: Keys)
    ensures |weapons| > 0 ==> OneActive(weapons, Equipped(weapons, hasLabel, r, 0))
    ensures OneActive(weapons, r) ==> OneActive(weapons, Updated(weapons, hasLabel, r, k))
  {
  }

  /** Keys 1, 2 and 3 select weapons 0, 1 and 2, the first pressed key
      taking precedence; without a number key the selection stays. */
  lemma KeyPrecedence(weapons: seq<Weapon>, hasLabel: bool, r: Rack, k: Keys)
    requires |weapons| >= 3 && OneActive(weapons, r)
    ensures var u := Updated(weapons, hasLabel, r, k);
            && (k.alpha1 ==> u.current == 0)
            && (!k.alpha1 && k.alpha2 ==> u.current == 1)
            && (!k.alpha1 && !k.alpha2 && k.alpha3 ==> u.current == 2)
            && (!k.alpha1 && !k.alpha2 && !k.alpha3 ==> u.current == r.current && u.active == r.active)
  {
  }

  /** A click turns the fire animation on, reports the current weapon's
      animation code and uses that weapon; without a click no weapon is
      used, and releasing the button turns the animation off. */
  lemma ClickUsesCurrent(weapons: seq<Weapon>, hasLabel: bool, r: Rack, k: Keys)
    requires OneActive(weapons, r)
    ensures var u := Updated(weapons, hasLabel, r, k);
            var o := UpdateOutcome(weapons, hasLabel, r, k);
            && (k.mouseDown ==> u.fireAnim && o == Use(u.current)
                                && u.weaponType == weapons[u.current].animationCode)
            && (!k.mouseDown ==> o == NoUse)
            && (!k.mouseDown && !k.mouseHeld ==> !u.fireAnim)
  {
  }

  /** With no weapons at all, a click indexes past the end. */
  lemma EmptyRackClickThrows(hasLabel: bool, r: Rack, k: Keys)
    requires k.mouseDown
    ensures UpdateOutcome([], hasLabel, r, k) == IndexOutOfRange
  {
  }

  class WeaponManager {
    const weapons: seq<Weapon>
    /** `weapons[i].gameObject.activeSelf`. */
    const active: array<bool>
    /** Whether the name label is assigned. */
    const hasLabel: bool
    var currentWeaponIndex: int
    var labelText: string
    var fireAnim: bool
    var weaponType: int

    predicate Valid()
      reads this
    {
      active.Length == |weapons|
    }

    function Snapshot(): Rack
      reads this, active
    {
      Rack(active[..], currentWeaponIndex, labelText, fireAnim, weaponType)
    }

    constructor (weapons: seq<Weapon>, hasLabel: bool)
      ensures Valid() && fresh(active)
      ensures this.weapons == weapons && this.hasLabel == hasLabel
      ensures currentWeaponIndex == 0 && !fireAnim
    {
      this.weapons := weapons;
      this.hasLabel := hasLabel;
      active := new bool[|weapons|](_ => true);
      currentWeaponIndex := 0;
      labelText := "";
      fireAnim := false;
      weaponType := 0;
    }

    method Start()
      requires Valid()
      modifies this, active
      ensures Valid()
      ensures Snapshot() == Equipped(weapons, hasLabel, old(Snapshot()), 0)
    {
      EquipWeapon(0);
    }

    method Update(k: Keys) returns (outcome: Outcome)
      requires Valid()
      modifies this, active
      ensures Valid()
      ensures Snapshot() == Updated(weapons, hasLabel, old(Snapshot()), k)
      ensures outcome == UpdateOutcome(weapons, hasLabel, old(Snapshot()), k)
    {
      if !k.mouseHeld {
        fireAnim := false;
      }
      if k.alpha1 {
        EquipWeapon(0);
      } else if k.alpha2 {
        EquipWeapon(1);
      } else if k.alpha3 {
        EquipWeapon(2);
      }
      outcome := NoUse;
      if k.mouseDown {
        fireAnim := true;
        if 0 <= currentWeaponIndex < |weapons| {
          weaponType := weapons[currentWeaponIndex].animationCode;
          outcome := Use(currentWeaponIndex);
        } else {
          outcome := IndexOutOfRange;
        }
      }
    }

    method EquipWeapon(index: int)
      requires Valid()
      modifies this, active
      ensures Valid()
      ensures Snapshot() == Equipped(weapons, hasLabel, old(Snapshot()), index)
    {
      if index < 0 || index >= active.Length {
        return;
      }
      var i := 0;
      while i < active.Length
        invariant 0 <= i <= active.Length
        invariant forall j :: 0 <= j < i ==> (active[j] <==> j == index)
        invariant forall j :: i <= j < active.Length ==> active[j] == old(active[j])
        invariant unchanged(this)
      {
        active[i] := i == index;
        i := i + 1;
      }
      currentWeaponIndex := index;
      UpdateWeaponNameUI();
    }

    method UpdateWeaponNameUI()
      requires Valid() && 0 <= currentWeaponIndex < |weapons|
      modifies this`labelText
      ensures labelText == if hasLabel then weapons[currentWeaponIndex].name else old(labelText)
    {
      if hasLabel {
        labelText := weapons[currentWeaponIndex].name;
      }
    }
  }
}
