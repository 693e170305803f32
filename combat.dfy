/** The combo table of the enemy controller: the per-combo timing, damage and
    animation data, the start-up fill-in of the four built-in combos, and the
    two lookups with their fallbacks (EnemyController.cs, ComboData,
    InitializeCombos, GetCurrentComboRange, GetCurrentAttackDamage). */
module Combat {
  import opened Basics

  /** One combo. A null or empty name or array in the configured data is
      represented by "" or []: the start-up code treats both alike. */
  datatype ComboData = ComboData(
    comboName: string,
    attackTimings: seq<real>,     // wait before attack i of the combo fires
    attackDamages: seq<real>,     // damage of attack i
    animationTriggers: seq<string>,
    comboRange: real)             // engagement range of this combo

  /** The value of `new ComboData()`: references null, range initialised to 1.5. */
  function FreshComboData(): ComboData {
    ComboData("", [], [], [], 1.5)
  }

  function QuickJabs(): ComboData {
    ComboData("Quick Jabs", [0.3, 0.3, 0.4], [8.0, 8.0, 12.0], ["QuickJab1"], 1.2)
  }

  function HeavyStrikes(): ComboData {
    ComboData("Heavy Strikes", [0.8, 0.9, 1.2], [15.0, 18.0, 25.0], ["HeavyStrike1"], 1.8)
  }

  function SpinningAttacks(): ComboData {
    ComboData("Spinning Attacks", [0.6, 0.5, 0.7, 0.8], [10.0, 12.0, 14.0, 20.0], ["SpinAttack1"], 2.0)
  }

  function UppercutCombo(): ComboData {
    ComboData("Uppercut Combo", [0.5, 0.4, 1.0], [12.0, 10.0, 30.0], ["UppercutFinish"], 1.5)
  }

  /** The four built-in combos, in slot order. */
  function DefaultCombos(): seq<ComboData> {
    [QuickJabs(), HeavyStrikes(), SpinningAttacks(), UppercutCombo()]
  }

  /** Every array of the combo has at least one entry. */
  predicate WellFormedCombo(k: ComboData) {
    |k.attackTimings| > 0 && |k.attackDamages| > 0 && |k.animationTriggers| > 0
  }

  /** Start-up treatment of one slot: a missing slot becomes a fresh combo, every
      empty field takes the built-in value, and the range is always overwritten. */
  function FillSlot(slot: Option<ComboData>, builtIn: ComboData): (r: ComboData)
    requires WellFormedCombo(builtIn)
    ensures WellFormedCombo(r) && r.comboRange == builtIn.comboRange
    ensures slot.None? ==> r == builtIn
    ensures slot.Some? ==>
      r.comboName == (if slot.value.comboName == "" then builtIn.comboName else slot.value.comboName)
    ensures slot.Some? ==>
      r.attackTimings == (if slot.value.attackTimings == [] then builtIn.attackTimings else slot.value.attackTimings)
    ensures slot.Some? ==>
      r.attackDamages == (if slot.value.attackDamages == [] then builtIn.attackDamages else slot.value.attackDamages)
    ensures slot.Some? ==>
      r.animationTriggers == (if slot.value.animationTriggers == [] then builtIn.animationTriggers else slot.value.animationTriggers)
  {
    var b := if slot.Some? then slot.value else FreshComboData();
    ComboData(
      if b.comboName == "" then builtIn.comboName else b.comboName,
      if b.attackTimings == [] then builtIn.attackTimings else b.attackTimings,
      if b.attackDamages == [] then builtIn.attackDamages else b.attackDamages,
      if b.animationTriggers == [] then builtIn.animationTriggers else b.animationTriggers,
      builtIn.comboRange)
  }

  /** InitializeCombos: a table of any length other than four (a null table
      included, as []) is replaced by four empty slots, then each slot is filled.
      The result always has four well-formed combos with the built-in ranges, and
      with nothing configured it is exactly the built-in table. */
  function InitializeCombos(configured: seq<Option<ComboData>>): (r: seq<ComboData>)
    ensures |r| == 4
    ensures forall i :: 0 <= i < 4 ==> WellFormedCombo(r[i]) && r[i].comboRange == DefaultCombos()[i].comboRange
    ensures |configured| != 4 ==> r == DefaultCombos()
    ensures |configured| == 4 ==> forall i :: 0 <= i < 4 && configured[i].None? ==> r[i] == DefaultCombos()[i]
    ensures |configured| == 4 ==> forall i :: 0 <= i < 4 ==> r[i] == FillSlot(configured[i], DefaultCombos()[i])
  {
    var slots := if |configured| != 4 then [None, None, None, None] else configured;
    seq(4, i requires 0 <= i < 4 => FillSlot(slots[i], DefaultCombos()[i]))
  }

  /** GetCurrentComboRange: the selected combo's range, or the default attack
      range when the index does not name a combo. */
  function ComboRange(combos: seq<ComboData>, comboType: int, attackRange: real): (r: real)
    ensures 0 <= comboType < |combos| ==> r == combos[comboType].comboRange
    ensures !(0 <= comboType < |combos|) ==> r == attackRange
  {
    if 0 <= comboType < |combos| then combos[comboType].comboRange else attackRange
  }

  /** GetCurrentAttackDamage: the damage of the attack that fired last (the
      counter has already been advanced past it), or the default damage when
      that index is outside the combo's damage array. */
  function AttackDamage(combo: ComboData, comboCount: int, attackDamage: real): (r: real)
    ensures 1 <= comboCount <= |combo.attackDamages| ==> r == combo.attackDamages[comboCount - 1]
    ensures !(1 <= comboCount <= |combo.attackDamages|) ==> r == attackDamage
  {
    var attackIndex := comboCount - 1;
    if 0 <= attackIndex < |combo.attackDamages| then combo.attackDamages[attackIndex] else attackDamage
  }

  /** The built-in table: every combo has three or four timed attacks with a
      damage for each, but only one animation trigger. */
  lemma DefaultTableShape()
    ensures forall i :: 0 <= i < 4 ==>
      && |DefaultCombos()[i].animationTriggers| == 1
      && 3 <= |DefaultCombos()[i].attackTimings| <= 4
      && |DefaultCombos()[i].attackDamages| == |DefaultCombos()[i].attackTimings|
  {
  }
}
