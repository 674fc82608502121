/** The health ledger (Assets/Scripts/PlayerHealth.cs): damage is clamped
    at zero and ignored once the player is dead, healing is clamped at the
    maximum and refused on clients and for the dead, and the death event is
    raised on the damage that brings health to zero. The events the C#
    raises (OnTakeDamage, OnDeath) are recorded in an event log. */
module Health {

  datatype Event = TookDamage(current: int, max: int) | Died

  /** The state of one PlayerHealth: its current and maximum health and the
      events raised so far, oldest first. */
  datatype Ledger = Ledger(current: int, max: int, events: seq<Event>)

  function Max(a: int, b: int): int { if a > b then a else b }
  function Min(a: int, b: int): int { if a < b then a else b }

  /** TakeDamage. */
  function Damage(l: Ledger, amount: int): Ledger {
    if l.current <= 0 then l
    else
      var h := Max(l.current - amount, 0);
      l.(current := h,
         events := l.events + [TookDamage(h, l.max)] + (if h <= 0 then [Died] else []))
  }

  /** Heal. */
  function Healed(l: Ledger, isServer: bool, amount: int): Ledger {
    if !isServer || l.current <= 0 then l
    else
      var h := Min(l.current + amount, l.max);
      l.(current := h, events := l.events + [TookDamage(h, l.max)])
  }

  /** Start and OnNetworkSpawn: the server restores full health. */
  function Spawn(l: Ledger, isServer: bool): Ledger {
    if isServer then l.(current := l.max) else l
  }

  /** Applies the damage amounts in order. */
  function DamageAll(l: Ledger, amounts: seq<int>): Ledger
    decreases |amounts|
  {
    if amounts == [] then l else DamageAll(Damage(l, amounts[0]), amounts[1..])
  }

  /** The number of death events in a log. */
  function Deaths(events: seq<Event>): nat {
    if events == [] then 0
    else Deaths(events[..|events| - 1]) + (if events[|events| - 1] == Died then 1 else 0)
  }

  lemma DeathsAppend(a: seq<Event>, b: seq<Event>)
    ensures Deaths(a + b) == Deaths(a) + Deaths(b)
    decreases |b|
  {
    if b == [] {
      assert a + b == a;
    } else {
      assert (a + b)[..|a + b| - 1] == a + b[..|b| - 1];
      assert (a + b)[|a + b| - 1] == b[|b| - 1];
      DeathsAppend(a, b[..|b| - 1]);
    }
  }

  /** One call to TakeDamage: nothing changes for a dead player; otherwise
      health drops by the amount but not below zero, OnTakeDamage reports
      the new health, and OnDeath is raised exactly when it reached zero. */
  lemma DamageStep(l: Ledger, amount: int)
    ensures var r := Damage(l, amount);
            && (l.current <= 0 ==> r == l)
            && (l.current > 0 ==>
                  && r.current == Max(l.current - amount, 0)
                  && r.max == l.max
                  && r.events == l.events + [TookDamage(r.current, l.max)] + (if r.current == 0 then [Died] else [])
                  && Deaths(r.events) == Deaths(l.events) + (if r.current == 0 then 1 else 0))
  {
    var r := Damage(l, amount);
    if l.current > 0 {
      var tail := [TookDamage(r.current, l.max)] + (if r.current <= 0 then [Died] else []);
      assert r.events == l.events + tail;
      DeathsAppend(l.events, tail);
      assert Deaths([TookDamage(r.current, l.max)]) == 0;
      assert Deaths([TookDamage(r.current, l.max), Died]) == 1;
    }
  }

  /** Whatever the amounts, a run of damage raises OnDeath at most once, and
      never for a player who was already dead. */
  lemma {:induction false} AtMostOneDeath(l: Ledger, amounts: seq<int>)
    ensures var r := DamageAll(l, amounts);
            && Deaths(l.events) <= Deaths(r.events) <= Deaths(l.events) + 1
            && (l.current <= 0 ==> r == l)
            && (Deaths(r.events) == Deaths(l.events) + 1 ==> r.current <= 0)
    decreases |amounts|
  {
    if amounts != [] {
      var next := Damage(l, amounts[0]);
      DamageStep(l, amounts[0]);
      AtMostOneDeath(next, amounts[1..]);
      if next.current <= 0 {
        DeadStaysPut(next, amounts[1..]);
      }
    }
  }

  /** Damage to a dead player changes nothing, however many times. */
  lemma {:induction false} DeadStaysPut(l: Ledger, amounts: seq<int>)
    requires l.current <= 0
    ensures DamageAll(l, amounts) == l
    decreases |amounts|
  {
    if amounts != [] {
      DeadStaysPut(Damage(l, amounts[0]), amounts[1..]);
    }
  }

  function Repeat(d: int, k: nat): (r: seq<int>)
    ensures |r| == k && forall i :: 0 <= i < k ==> r[i] == d
  {
    if k == 0 then [] else [d] + Repeat(d, k - 1)
  }

  /** K hits of d each from health H leave max(0, H - K*d), with exactly one
      death when that reaches zero from a living start. */
  lemma {:induction false} RepeatedDamage(l: Ledger, d: int, k: nat)
    requires l.current >= 0 && d >= 0
    ensures var r := DamageAll(l, Repeat(d, k));
            && r.current == Max(l.current - k * d, 0)
            && Deaths(r.events) == Deaths(l.events) + (if l.current > 0 && l.current - k * d <= 0 then 1 else 0)
    decreases k
  {
    if k > 0 {
      assert Repeat(d, k)[0] == d && Repeat(d, k)[1..] == Repeat(d, k - 1);
      var next := Damage(l, d);
      DamageStep(l, d);
      assert k * d == d + (k - 1) * d;
      assert (k - 1) * d >= 0;
      if next.current <= 0 {
        DeadStaysPut(next, Repeat(d, k - 1));
      } else {
        RepeatedDamage(next, d, k - 1);
      }
    }
  }

  /** The worked example: from 100, hits of 40, 40 and 30 leave 60, 20 and
      0, and only the third raises OnDeath. */
  lemma DamageExample()
    ensures DamageAll(Ledger(100, 100, []), [40, 40, 30])
         == Ledger(0, 100, [TookDamage(60, 100), TookDamage(20, 100), TookDamage(0, 100), Died])
  {
    assert Damage(Ledger(100, 100, []), 40) == Ledger(60, 100, [TookDamage(60, 100)]);
    assert Damage(Ledger(60, 100, [TookDamage(60, 100)]), 40)
        == Ledger(20, 100, [TookDamage(60, 100), TookDamage(20, 100)]);
  }

  /** Health stays within [0, max] under non-negative damage and healing
      and under spawning. */
  lemma BoundsPreserved(l: Ledger, isServer: bool, amount: int)
    requires 0 <= l.current <= l.max && amount >= 0
    ensures 0 <= Damage(l, amount).current <= l.max
    ensures 0 <= Healed(l, isServer, amount).current <= l.max
    ensures 0 <= Spawn(l, isServer).current <= l.max
  {
  }

  /** Healing leaves a dead player dead and a client's copy untouched;
      otherwise health rises by the amount up to the maximum and
      OnTakeDamage reports it. */
  lemma HealStep(l: Ledger, isServer: bool, amount: int)
    ensures var r := Healed(l, isServer, amount);
            && (!isServer || l.current <= 0 ==> r == l)
            && (isServer && l.current > 0 ==>
                  && r.current == Min(l.current + amount, l.max)
                  && r.events == l.events + [TookDamage(r.current, l.max)])
  {
  }

  class PlayerHealth {
    var maxHealth: int
    var currentHealth: int
    /** The OnTakeDamage and OnDeath events raised so far. */
    var events: seq<Event>

    function State(): Ledger
      reads this
    {
      Ledger(currentHealth, maxHealth, events)
    }

    /** The inspector defaults: both fields 100. */
    constructor ()
      ensures State() == Ledger(100, 100, [])
    {
      maxHealth := 100;
      currentHealth := 100;
      events := [];
    }

    method Start(isServer: bool)
      modifies this
      ensures State() == Spawn(old(State()), isServer)
    {
      if isServer {
        currentHealth := maxHealth;
      }
    }

    /** OnNetworkSpawn: the server restores full health; then the value is
        sent to every client (UpdateHealthClientRpc), returned here. */
    method OnNetworkSpawn(isServer: bool) returns (sync: int)
      modifies this
      ensures State() == Spawn(old(State()), isServer)
      ensures sync == currentHealth
    {
      if isServer {
        currentHealth := maxHealth;
      }
      sync := currentHealth;
    }

    /** UpdateHealthClientRpc on a receiving peer. */
    method UpdateHealthClientRpc(health: int)
      modifies this
      ensures State() == old(State()).(current := health)
    {
      currentHealth := health;
    }

    method TakeDamage(damageAmount: int)
      modifies this
      ensures State() == Damage(old(State()), damageAmount)
    {
      if currentHealth <= 0 {
        return;
      }
      currentHealth := currentHealth - damageAmount;
      currentHealth := Max(currentHealth, 0);
      events := events + [TookDamage(currentHealth, maxHealth)];
      if currentHealth <= 0 {
        HandleDeath();
      }
    }

    method HandleDeath()
      modifies this
      ensures State() == old(State()).(events := old(events) + [Died])
    {
      events := events + [Died];
    }

    method Heal(isServer: bool, healAmount: int)
      modifies this
      ensures State() == Healed(old(State()), isServer, healAmount)
    {
      if !isServer {
        return;
      }
      if currentHealth <= 0 {
        return;
      }
      currentHealth := currentHealth + healAmount;
      currentHealth := Min(currentHealth, maxHealth);
      events := events + [TookDamage(currentHealth, maxHealth)];
    }

    /** ApplyDamageServerRpc, as it runs on the server. */
    method ApplyDamageServerRpc(damageAmount: int)
      modifies this
      ensures State() == Damage(old(State()), damageAmount)
    {
      TakeDamage(damageAmount);
    }
  }
}
