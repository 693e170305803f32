/** The damage sink that an enemy's hits are delivered to (IDamageable.cs,
    class Damageable): a health counter that deactivates its object once the
    health reaches zero or less. */
module Health {

  const DefaultMaxHealth: real := 100.0

  /** The observable state of a damageable object. */
  datatype Vitals = Vitals(currentHealth: real, active: bool)

  /** One TakeDamage call: the damage is subtracted as it is (no clamping, a
      negative amount heals), and a result of zero or less deactivates. */
  function AfterHit(v: Vitals, damage: real): (r: Vitals)
    ensures r.currentHealth == v.currentHealth - damage
    ensures r.currentHealth <= 0.0 ==> !r.active
    ensures r.currentHealth > 0.0 ==> r.active == v.active
  {
    var h := v.currentHealth - damage;
    Vitals(h, if h <= 0.0 then false else v.active)
  }

  /** A run of TakeDamage calls, in order. */
  function AfterHits(v: Vitals, damages: seq<real>): Vitals
    decreases |damages|
  {
    if damages == [] then v else AfterHits(AfterHit(v, damages[0]), damages[1..])
  }

  function Sum(xs: seq<real>): real
    decreases |xs|
  {
    if xs == [] then 0.0 else xs[0] + Sum(xs[1..])
  }

  /** Hits accumulate exactly: the health drops by the total damage. */
  lemma {:induction false} AfterHitsHealth(v: Vitals, damages: seq<real>)
    ensures AfterHits(v, damages).currentHealth == v.currentHealth - Sum(damages)
    decreases |damages|
  {
    if damages != [] {
      AfterHitsHealth(AfterHit(v, damages[0]), damages[1..]);
    }
  }

  /** Nothing reactivates the object: once inactive, it stays inactive
      whatever further damage (or healing) it receives. */
  lemma {:induction false} DefeatIsPermanent(v: Vitals, damages: seq<real>)
    requires !v.active
    ensures !AfterHits(v, damages).active
    decreases |damages|
  {
    if damages != [] {
      DefeatIsPermanent(AfterHit(v, damages[0]), damages[1..]);
    }
  }

  /** The last hit decides: if the final health is zero or less the object is
      inactive, whatever happened on the way. */
  lemma {:induction false} LethalHits(v: Vitals, damages: seq<real>)
    requires damages != []
    requires Sum(damages) >= v.currentHealth
    ensures !AfterHits(v, damages).active
  {
    AfterHitsHealth(v, damages);
    LastHitDecides(v, damages);
  }

  lemma {:induction false} LastHitDecides(v: Vitals, damages: seq<real>)
    requires damages != []
    ensures AfterHits(v, damages).currentHealth <= 0.0 ==> !AfterHits(v, damages).active
    decreases |damages|
  {
    if |damages| > 1 {
      LastHitDecides(AfterHit(v, damages[0]), damages[1..]);
    }
  }

  /** A Damageable component. `active` stands for the game object's active flag. */
  class Damageable {
    const maxHealth: real
    var currentHealth: real
    var active: bool

    ghost function Vital(): Vitals
      reads this
    {
      Vitals(currentHealth, active)
    }

    /** A freshly created component: the serialized maximum (100 unless
        configured), health not yet initialised, object active. */
    constructor (maxHealth: real := DefaultMaxHealth)
      ensures this.maxHealth == maxHealth
      ensures currentHealth == 0.0 && active
    {
      this.maxHealth := maxHealth;
      currentHealth := 0.0;
      active := true;
    }

    /** Start: health is set to the configured maximum. */
    method Start()
      modifies this`currentHealth
      ensures currentHealth == maxHealth
    {
      currentHealth := maxHealth;
    }

    method TakeDamage(damage: real)
      modifies this
      ensures Vital() == AfterHit(old(Vital()), damage)
    {
      currentHealth := currentHealth - damage;
      if currentHealth <= 0.0 {
        Die();
      }
    }

    /** Die: the object is deactivated; its health stays as it is. */
    method Die()
      modifies this`active
      ensures !active
    {
      active := false;
    }
  }
}
