/** The power-up timing ledger: which effects are active, since when, and how long
    they last. Time is a millisecond clock reading passed in by the caller. */
module PowerUps {
  import opened Config

  /** The ledger's state as a value: the start time of every active effect (the keys
      are the active effects) and the number of shield pickups so far in the game. */
  datatype Ledger = Ledger(startTimes: map<PowerUpType, int>, shieldPickupCount: nat)
  {
    predicate Active(t: PowerUpType) { t in startTimes }

    /** The effect's length: its base, except that the shield gains 2000 ms for every
        pickup after the first. */
    function Duration(t: PowerUpType): int {
      if t == Shield then BaseDuration(Shield) + (shieldPickupCount - 1) * ShieldBonusPerPickup
      else BaseDuration(t)
    }

    predicate Expired(t: PowerUpType, now: int)
      requires Active(t)
    {
      now - startTimes[t] > Duration(t)
    }

    /** `addPowerUp(type)`: (re)starts the effect at `now`; a shield also bumps the pickup count. */
    function Pickup(t: PowerUpType, now: int): (l: Ledger)
      ensures l.startTimes.Keys == startTimes.Keys + {t} && l.startTimes[t] == now
      ensures forall u :: u in startTimes && u != t ==> l.startTimes[u] == startTimes[u]
      ensures l.shieldPickupCount == if t == Shield then shieldPickupCount + 1 else shieldPickupCount
    {
      Ledger(startTimes[t := now], if t == Shield then shieldPickupCount + 1 else shieldPickupCount)
    }

    /** What `update()` leaves: the entries whose effect has not run past its duration. */
    function Purge(now: int): (l: Ledger)
      ensures forall u :: u in l.startTimes <==> Active(u) && !Expired(u, now)
      ensures forall u :: u in l.startTimes ==> u in startTimes && l.startTimes[u] == startTimes[u]
      ensures l.shieldPickupCount == shieldPickupCount
    {
      PurgeExcept({}, now)
    }

    /** Purge applied to every type outside `pending` only. */
    function PurgeExcept(pending: set<PowerUpType>, now: int): Ledger {
      Ledger(map u | u in startTimes && (u in pending || !Expired(u, now)) :: startTimes[u], shieldPickupCount)
    }

    /** `clear()`: forgets every effect, but not the shield pickup count. */
    function Cleared(): (l: Ledger)
      ensures l.startTimes == map[] && l.shieldPickupCount == shieldPickupCount
    {
      Ledger(map[], shieldPickupCount)
    }

    /** `getRemainingTime(type)`: 0 for an inactive effect, otherwise what is left of its
        duration, never negative. */
    function Remaining(t: PowerUpType, now: int): (r: int)
      ensures r >= 0
      ensures !Active(t) ==> r == 0
      ensures Active(t) ==> (r > 0 <==> now - startTimes[t] < Duration(t))
      ensures Active(t) && now >= startTimes[t] ==> r <= Duration(t)
      ensures Active(t) && r > 0 ==> r + (now - startTimes[t]) == Duration(t)
    {
      if !Active(t) then 0
      else
        var elapsed := now - startTimes[t];
        if Duration(t) - elapsed < 0 then 0 else Duration(t) - elapsed
    }
  }

  const Fresh: Ledger := Ledger(map[], 0)

  /** The operations the game performs on its ledger. */
  datatype LedgerOp = Collect(kind: PowerUpType, at: int) | Tick(at: int) | Reset

  function Apply(l: Ledger, op: LedgerOp): Ledger {
    match op
    case Collect(t, now) => l.Pickup(t, now)
    case Tick(now) => l.Purge(now)
    case Reset => l.Cleared()
  }

  /** The ledger after a history of operations, oldest first. */
  function Run(l: Ledger, ops: seq<LedgerOp>): Ledger
    decreases |ops|
  {
    if ops == [] then l else Apply(Run(l, ops[..|ops| - 1]), ops[|ops| - 1])
  }

  /** How many shield pickups a history contains. */
  function ShieldPickups(ops: seq<LedgerOp>): nat
    decreases |ops|
  {
    if ops == [] then 0
    else ShieldPickups(ops[..|ops| - 1]) + (if ops[|ops| - 1].Collect? && ops[|ops| - 1].kind == Shield then 1 else 0)
  }

  /** The pickup count is exactly the number of shield pickups in the history: neither
      expiry nor clearing ever resets it. */
  lemma {:induction false} PickupCountIsCumulative(l: Ledger, ops: seq<LedgerOp>)
    ensures Run(l, ops).shieldPickupCount == l.shieldPickupCount + ShieldPickups(ops)
    decreases |ops|
  {
    if ops != [] {
      PickupCountIsCumulative(l, ops[..|ops| - 1]);
    }
  }

  /** Picking up the N-th shield of the game (whatever happened before) gives a shield
      that lasts 8000 + (N - 1) x 2000 ms from that moment. */
  lemma NthShieldDuration(ops: seq<LedgerOp>, now: int)
    ensures var l := Run(Fresh, ops + [Collect(Shield, now)]);
            l.Active(Shield) &&
            l.Remaining(Shield, now) == 8000 + ShieldPickups(ops) * 2000 &&
            l.Remaining(Shield, now) == BaseDuration(Shield) + (ShieldPickups(ops + [Collect(Shield, now)]) - 1) * ShieldBonusPerPickup
  {
    var all := ops + [Collect(Shield, now)];
    assert all[..|all| - 1] == ops;
    PickupCountIsCumulative(Fresh, ops);
  }

  /** Two shields picked up back to back, with a tick in between that happens before
      the first one runs out: from the second pickup the shield lasts 10000 ms. */
  lemma BackToBackShields(t1: int, t2: int)
    requires t1 <= t2 <= t1 + BaseDuration(Shield)
    ensures var l := Run(Fresh, [Collect(Shield, t1), Tick(t2), Collect(Shield, t2)]);
            l.Remaining(Shield, t2) == BaseDuration(Shield) + ShieldBonusPerPickup
  {
    var ops := [Collect(Shield, t1), Tick(t2), Collect(Shield, t2)];
    assert ops[..2] == [Collect(Shield, t1), Tick(t2)];
    assert ops[..2][..1] == [Collect(Shield, t1)];
    assert [Collect(Shield, t1)][..0] == [];
    var l1 := Fresh.Pickup(Shield, t1);
    assert Run(Fresh, ops[..2][..1]) == l1;
    assert !l1.Expired(Shield, t2);
    var l2 := l1.Purge(t2);
    assert Run(Fresh, ops[..2]) == l2;
    assert l2.shieldPickupCount == 1;
    assert Run(Fresh, ops) == l2.Pickup(Shield, t2);
  }

  /** Right after a tick every effect still listed has time left or is exactly at its
      end: no negative remaining time is ever observed. */
  lemma PurgedLedgerHasTimeLeft(l: Ledger, t: PowerUpType, now: int)
    requires l.Active(t) && now >= l.startTimes[t]
    ensures var p := l.Purge(now);
            p.Active(t) ==> p.Remaining(t, now) + (now - l.startTimes[t]) == l.Duration(t)
  {
  }

  /** The manager object of the game: two dictionaries keyed by type and a pickup counter. */
  class PowerUpManager {
    var activePowerUps: set<PowerUpType>
    var powerUpStartTimes: map<PowerUpType, int>
    var shieldPickupCount: nat

    ghost predicate Valid()
      reads this
    {
      activePowerUps == powerUpStartTimes.Keys
    }

    function Model(): Ledger
      reads this
    {
      Ledger(powerUpStartTimes, shieldPickupCount)
    }

    constructor ()
      ensures Valid() && Model() == Fresh
    {
      activePowerUps := {};
      powerUpStartTimes := map[];
      shieldPickupCount := 0;
    }

    method AddPowerUp(t: PowerUpType, now: int)
      requires Valid()
      modifies this
      ensures Valid() && Model() == old(Model()).Pickup(t, now)
    {
      if t == Shield {
        shieldPickupCount := shieldPickupCount + 1;
      }
      activePowerUps := activePowerUps + {t};
      powerUpStartTimes := powerUpStartTimes[t := now];
    }

    /** Walks the active types and deletes every one that has run past its duration. */
    method Update(now: int)
      requires Valid()
      modifies this
      ensures Valid() && Model() == old(Model()).Purge(now)
    {
      var pending := activePowerUps;
      while pending != {}
        invariant Valid() && pending <= activePowerUps
        invariant shieldPickupCount == old(shieldPickupCount)
        invariant Model() == old(Model()).PurgeExcept(pending, now)
        decreases pending
      {
        var t :| t in pending;
        var duration := Model().Duration(t);
        var elapsed := now - powerUpStartTimes[t];
        if elapsed > duration {
          activePowerUps := activePowerUps - {t};
          powerUpStartTimes := powerUpStartTimes - {t};
        }
        pending := pending - {t};
      }
    }

    predicate HasPowerUp(t: PowerUpType)
      reads this
    {
      t in activePowerUps
    }

    function GetRemainingTime(t: PowerUpType, now: int): (r: int)
      reads this
      requires Valid()
      ensures HasPowerUp(t) <==> Model().Active(t)
      ensures r == Model().Remaining(t, now)
    {
      if !HasPowerUp(t) then 0
      else
        var elapsed := now - powerUpStartTimes[t];
        var left := Model().Duration(t) - elapsed;
        if left < 0 then 0 else left
    }

    method Clear()
      requires Valid()
      modifies this
      ensures Valid() && Model() == old(Model()).Cleared()
    {
      activePowerUps := {};
      powerUpStartTimes := map[];
    }
  }
}
