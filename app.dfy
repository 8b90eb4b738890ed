/**
 * The game state kept by the App component (src/App.jsx): the energy meter
 * with its regeneration tick, the daily booster allowance with its 30-second
 * ×10 boost, the rank label shown in the header, and EarnCircle's tap handler
 * that ties energy and boost to the score store. Every timer callback is an
 * explicit method and the clock is an integer parameter (milliseconds).
 */
module Game {
  import opened Wrappers
  import opened Storage
  import Points

  const MaxEnergy := 5000
  const IdleMs := 500
  const DailyBoosts := 3
  const BoostFactor := 10

  const BoostsKey := "boostsRemaining"
  const ResetKey := "boostResetTime"

  function Min(a: int, b: int): int { if a <= b then a else b }
  function Max(a: int, b: int): int { if a <= b then b else a }

  // ---------------------------------------------------------------------------
  // Energy

  /** The energy left and the time of the last tap that used some (`lastClickTime`, null at first). */
  datatype Meter = Meter(energy: int, lastClick: Option<int>)

  /**
   * The regeneration guard `!lastClickTime || now - lastClickTime > 500`. A
   * recorded time of 0 is falsy in JavaScript, so it counts as no tap at all.
   */
  predicate Idle(lastClick: Option<int>, now: int): (idle: bool)
    ensures lastClick.None? ==> idle
    ensures lastClick.Some? && lastClick.value != 0 ==> (idle <==> now > lastClick.value + IdleMs)
  {
    match lastClick
    case None => true
    case Some(t) => t == 0 || now - t > IdleMs
  }

  /** handleEnergyUse at time `now`: refused at energy 0 or below, otherwise one unit spent (floored at 0) and the tap time recorded. */
  function Used(m: Meter, now: int): (r: Meter)
    ensures m.energy <= 0 ==> r == m
    ensures m.energy > 0 ==> r.energy == m.energy - 1 && r.lastClick == Some(now)
  {
    if m.energy <= 0 then m else Meter(Max(0, m.energy - 1), Some(now))
  }

  /** One run of the 500 ms regeneration interval at time `now`. */
  function Ticked(m: Meter, now: int): (r: Meter)
    ensures r.lastClick == m.lastClick
    ensures r.energy == m.energy + 1 <==> Idle(m.lastClick, now) && m.energy < MaxEnergy
    ensures m.energy <= MaxEnergy ==> r.energy == m.energy || r.energy == m.energy + 1
    ensures !Idle(m.lastClick, now) ==> r == m
  {
    if Idle(m.lastClick, now) then Meter(Min(MaxEnergy, m.energy + 1), m.lastClick) else m
  }

  /** A tap that asks for energy, or a regeneration tick, at a given time. */
  datatype MeterEvent = Tap(at: int) | Tick(at: int)

  function Step(m: Meter, e: MeterEvent): Meter {
    match e
    case Tap(t) => Used(m, t)
    case Tick(t) => Ticked(m, t)
  }

  /** The meter after the events, in order. */
  function RunMeter(m: Meter, events: seq<MeterEvent>): Meter
    decreases |events|
  {
    if events == [] then m else RunMeter(Step(m, events[0]), events[1..])
  }

  /** Energy that starts in [0, 5000] stays there under any interleaving of taps and ticks. */
  lemma {:induction false} EnergyStaysInRange(m: Meter, events: seq<MeterEvent>)
    requires 0 <= m.energy <= MaxEnergy
    ensures 0 <= RunMeter(m, events).energy <= MaxEnergy
    decreases |events|
  {
    if events != [] {
      EnergyStaysInRange(Step(m, events[0]), events[1..]);
    }
  }

  function TicksAt(times: seq<int>): (events: seq<MeterEvent>)
    ensures |events| == |times|
    ensures forall i :: 0 <= i < |times| ==> events[i] == Tick(times[i])
  {
    if times == [] then [] else [Tick(times[0])] + TicksAt(times[1..])
  }

  /** Ticks during a pause in tapping each add one unit, up to the cap: k idle ticks give min(5000, energy + k). */
  lemma {:induction false} IdleTicksRefill(m: Meter, times: seq<int>)
    requires 0 <= m.energy <= MaxEnergy
    requires forall i :: 0 <= i < |times| ==> Idle(m.lastClick, times[i])
    ensures RunMeter(m, TicksAt(times)).energy == Min(MaxEnergy, m.energy + |times|)
    ensures RunMeter(m, TicksAt(times)).lastClick == m.lastClick
    decreases |times|
  {
    if times != [] {
      var events := TicksAt(times);
      assert events[0] == Tick(times[0]);
      assert events[1..] == TicksAt(times[1..]);
      var next := Ticked(m, times[0]);
      IdleTicksRefill(next, times[1..]);
    }
  }

  /** Two seconds without a tap after one at t = 1000: four ticks take energy 100 to 104. */
  lemma FourIdleTicks()
    ensures RunMeter(Meter(100, Some(1000)), TicksAt([1600, 2100, 2600, 3100])).energy == 104
  {
    IdleTicksRefill(Meter(100, Some(1000)), [1600, 2100, 2600, 3100]);
  }

  /** A tick within 500 ms of a successful tap adds nothing: energy cannot regenerate while taps come faster than two a second. */
  lemma TapHoldsOffRegeneration(m: Meter, tapAt: int, now: int)
    requires m.energy > 0 && tapAt != 0 && now - tapAt <= IdleMs
    ensures Ticked(Used(m, tapAt), now).energy == m.energy - 1
  {
  }

  // ---------------------------------------------------------------------------
  // Boosters

  /** boostsRemaining, boostMultiplier and activeBooster. */
  datatype Booster = Booster(remaining: int, factor: int, active: bool)

  /** What every booster transition keeps: at most three boosts left, a factor of 1 or 10, and active exactly when boosted. */
  ghost predicate BoosterOk(b: Booster) {
    && 0 <= b.remaining <= DailyBoosts
    && (b.factor == 1 || b.factor == BoostFactor)
    && b.active == (b.factor == BoostFactor)
  }

  /** activateBooster: with a boost left, spend it and switch the ×10 factor on; with none left, nothing changes. */
  function Activated(b: Booster): (r: Booster)
    ensures r.remaining == b.remaining - 1 <==> b.remaining > 0
    ensures b.remaining > 0 ==> r.factor == BoostFactor && r.active
    ensures b.remaining <= 0 ==> r == b
    ensures BoosterOk(b) ==> BoosterOk(r)
  {
    if b.remaining > 0 then Booster(b.remaining - 1, BoostFactor, true) else b
  }

  /**
   * The 30-second expiry callback. It does not check which activation it
   * belongs to, so an earlier activation's expiry also ends a later boost.
   */
  function Expired(b: Booster): (r: Booster)
    ensures r.remaining == b.remaining && r.factor == 1 && !r.active
    ensures BoosterOk(b) ==> BoosterOk(r)
  {
    Booster(b.remaining, 1, false)
  }

  datatype BoostEvent = Activate | Expire

  function RunBoosts(b: Booster, events: seq<BoostEvent>): Booster
    decreases |events|
  {
    if events == [] then b
    else RunBoosts(if events[0] == Activate then Activated(b) else Expired(b), events[1..])
  }

  /** The number of activation requests in `events` that took effect. */
  function Granted(b: Booster, events: seq<BoostEvent>): nat
    decreases |events|
  {
    if events == [] then 0
    else if events[0] == Activate then
      (if b.remaining > 0 then 1 else 0) + Granted(Activated(b), events[1..])
    else Granted(Expired(b), events[1..])
  }

  /**
   * Between two start-ups the boosts granted and the boosts left add up to the
   * allowance held at the start, so no more than three boosts are granted.
   */
  lemma {:induction false} GrantsWithinAllowance(b: Booster, events: seq<BoostEvent>)
    requires BoosterOk(b)
    ensures BoosterOk(RunBoosts(b, events))
    ensures Granted(b, events) + RunBoosts(b, events).remaining == b.remaining
    ensures Granted(b, events) <= DailyBoosts
    decreases |events|
  {
    if events != [] {
      if events[0] == Activate {
        GrantsWithinAllowance(Activated(b), events[1..]);
      } else {
        GrantsWithinAllowance(Expired(b), events[1..]);
      }
    }
  }

  // ---------------------------------------------------------------------------
  // Daily reset of the booster allowance

  /**
   * The entries the start-up effects read hold what this program writes there:
   * a timestamp under `boostResetTime`, a count in [0, 3] under `boostsRemaining`.
   */
  predicate StartReadable(items: map<string, Value>) {
    && (ResetKey in items ==> items[ResetKey].Instant?)
    && (BoostsKey in items ==> items[BoostsKey].Count? && 0 <= items[BoostsKey].n <= DailyBoosts)
  }

  /** `!resetTime || new Date(resetTime) < today's midnight`. */
  predicate ResetDue(items: map<string, Value>, midnight: int): (due: bool)
    requires StartReadable(items)
    ensures ResetKey !in items ==> due
    ensures ResetKey in items ==> (due <==> items[ResetKey].ms < midnight)
  {
    ResetKey !in items || items[ResetKey].ms < midnight
  }

  /** The allowance after the daily reset effect: 3 when a reset is due, else the saved count, else the initial 3. */
  function AllowanceAtStart(items: map<string, Value>, midnight: int): (n: int)
    requires StartReadable(items)
    ensures 0 <= n <= DailyBoosts
    ensures ResetDue(items, midnight) ==> n == DailyBoosts
    ensures !ResetDue(items, midnight) && BoostsKey in items ==> n == items[BoostsKey].n
    ensures !ResetDue(items, midnight) && BoostsKey !in items ==> n == DailyBoosts
  {
    if ResetDue(items, midnight) then DailyBoosts
    else if BoostsKey in items then items[BoostsKey].n
    else DailyBoosts
  }

  /**
   * The time a due reset writes under `boostResetTime`. With no stamp stored,
   * `!resetTime` short-circuits the `||`, `setHours` never runs and `now` is
   * still the current time; with a stamp before midnight, `setHours` has
   * already turned `now` into today's midnight.
   */
  function ResetStamp(items: map<string, Value>, midnight: int, now: int): (t: int)
    ensures ResetKey !in items ==> t == now
    ensures ResetKey in items ==> t == midnight
  {
    if ResetKey in items then midnight else now
  }

  /**
   * Storage after the start-up effects at time `now`, in the day starting at
   * `midnight`: a due reset stamps `boostResetTime` with `ResetStamp`, and the
   * persistence effect writes the allowance.
   */
  function StartItems(items: map<string, Value>, midnight: int, now: int): (r: map<string, Value>)
    requires StartReadable(items)
    ensures StartReadable(r)
    ensures BoostsKey in r && r[BoostsKey] == Count(AllowanceAtStart(items, midnight))
    ensures ResetKey !in items ==> ResetKey in r && r[ResetKey] == Instant(now)
    ensures ResetKey in items && ResetDue(items, midnight) ==> ResetKey in r && r[ResetKey] == Instant(midnight)
    ensures !ResetDue(items, midnight) ==> (ResetKey in r <==> ResetKey in items)
    ensures !ResetDue(items, midnight) && ResetKey in items ==> r[ResetKey] == items[ResetKey]
    ensures r.Keys == items.Keys + {BoostsKey, ResetKey}
    ensures forall k :: k in items && k != BoostsKey && k != ResetKey ==> k in r && r[k] == items[k]
  {
    var stamped :=
      if ResetDue(items, midnight) then items[ResetKey := Instant(ResetStamp(items, midnight, now))] else items;
    stamped[BoostsKey := Count(AllowanceAtStart(items, midnight))]
  }

  /** The first start-up, on empty storage: three boosts, stamped with the current time rather than midnight. */
  lemma FirstLaunchStampsNow(midnight: int, now: int)
    ensures AllowanceAtStart(map[], midnight) == DailyBoosts
    ensures StartItems(map[], midnight, now) == map[ResetKey := Instant(now), BoostsKey := Count(DailyBoosts)]
  {
  }

  /** A reset recorded yesterday with no boosts left gives three again at the next start-up, stamped with today's midnight. */
  lemma NewDayRefills(yesterday: int, midnight: int, now: int)
    requires yesterday < midnight
    ensures var items := map[ResetKey := Instant(yesterday), BoostsKey := Count(0)];
      && StartReadable(items)
      && AllowanceAtStart(items, midnight) == DailyBoosts
      && StartItems(items, midnight, now)[ResetKey] == Instant(midnight)
  {
  }

  /**
   * The allowance is refilled at most once a day: after a start-up at `now`,
   * however many boosts were then spent, a later start-up the same day
   * restores the count left, and one on a later day refills it.
   */
  lemma {:induction false} RefillOncePerDay(items: map<string, Value>, midnight: int, now: int, left: int, later: int)
    requires StartReadable(items)
    requires 0 <= left <= DailyBoosts
    requires midnight <= now < later
    requires ResetKey in items ==> items[ResetKey].ms < later  // no reset recorded on the later day already
    ensures var spent := StartItems(items, midnight, now)[BoostsKey := Count(left)];
      && StartReadable(spent)
      && !ResetDue(spent, midnight)
      && AllowanceAtStart(spent, midnight) == left
      && AllowanceAtStart(spent, later) == DailyBoosts
  {
    var started := StartItems(items, midnight, now);
    assert ResetKey in started && midnight <= started[ResetKey].ms < later by {
      if !ResetDue(items, midnight) {
        assert ResetKey in items && started[ResetKey] == items[ResetKey];
      }
    }
  }

  // ---------------------------------------------------------------------------
  // Rank label in the header

  /** getRank: inclusive lower thresholds 5000 and 2500. */
  function RankLabel(points: int): (rank: string)
    ensures rank == "Ocean Master" <==> points >= 5000
    ensures rank == "Beach Explorer" <==> 2500 <= points < 5000
    ensures rank == "Sandy Starter" <==> points < 2500
  {
    if points >= 5000 then "Ocean Master"
    else if points >= 2500 then "Beach Explorer"
    else "Sandy Starter"
  }

  /** The position of a header label in the order the thresholds give. */
  function LabelLevel(name: string): nat {
    if name == "Ocean Master" then 2 else if name == "Beach Explorer" then 1 else 0
  }

  /** More points never give a lower label. */
  lemma RankLabelMonotone(p: int, q: int)
    requires p <= q
    ensures LabelLevel(RankLabel(p)) <= LabelLevel(RankLabel(q))
  {
  }

  // ---------------------------------------------------------------------------
  // The App component's state

  class App {
    var energy: int
    var lastClickTime: Option<int>
    var boostsRemaining: int
    var boostMultiplier: int
    var activeBooster: bool
    /** 30-second expiry timers scheduled by ActivateBooster that have not fired yet. */
    var pendingExpiries: nat
    /** EarnCircle's `isClicked` guard, cleared by a 300 ms timer. */
    var isClicked: bool
    const store: Points.PointsStore
    const storage: LocalStorage

    function MeterState(): Meter
      reads this
    {
      Meter(energy, lastClickTime)
    }

    function BoosterState(): Booster
      reads this
    {
      Booster(boostsRemaining, boostMultiplier, activeBooster)
    }

    ghost predicate Valid()
      reads this, store, storage
    {
      && 0 <= energy <= MaxEnergy
      && BoosterOk(BoosterState())
      && (activeBooster ==> pendingExpiries > 0)
      && store.storage == storage
      && store.Valid()
      && BoostsKey in storage.items && storage.items[BoostsKey] == Count(boostsRemaining)
      && StartReadable(storage.items)
      && Points.SavedCoherent(storage.items)
    }

    /**
     * The component's first render and its mount effects: full energy, no
     * boost, then the daily reset of the allowance and the write of the
     * allowance to storage, at time `now` in the local day starting at
     * `midnight`.
     */
    constructor (store: Points.PointsStore, storage: LocalStorage, midnight: int, now: int)
      requires store.Valid() && store.storage == storage
      requires StartReadable(storage.items) && Points.SavedCoherent(storage.items)
      modifies storage
      ensures Valid()
      ensures this.store == store && this.storage == storage
      ensures MeterState() == Meter(MaxEnergy, None)
      ensures BoosterState() == Booster(AllowanceAtStart(old(storage.items), midnight), 1, false)
      ensures pendingExpiries == 0 && !isClicked
      ensures storage.items == StartItems(old(storage.items), midnight, now)
    {
      var items := storage.items;
      var allowance := AllowanceAtStart(items, midnight);
      energy, lastClickTime := MaxEnergy, None;
      boostsRemaining, boostMultiplier, activeBooster := allowance, 1, false;
      pendingExpiries, isClicked := 0, false;
      this.store := store;
      this.storage := storage;
      new;
      if ResetDue(items, midnight) {
        storage.SetItem(ResetKey, Instant(ResetStamp(items, midnight, now)));
      }
      storage.SetItem(BoostsKey, Count(boostsRemaining));
    }

    /** handleEnergyUse at time `now`. */
    method UseEnergy(now: int) returns (used: bool)
      requires Valid()
      modifies this`energy, this`lastClickTime
      ensures Valid()
      ensures used == (old(energy) > 0)
      ensures MeterState() == Used(old(MeterState()), now)
    {
      if energy <= 0 {
        return false;
      }
      lastClickTime := Some(now);
      energy := Max(0, energy - 1);
      return true;
    }

    /** The body of the 500 ms regeneration interval, run at time `now`. */
    method Tick(now: int)
      requires Valid()
      modifies this`energy
      ensures Valid()
      ensures MeterState() == Ticked(old(MeterState()), now)
    {
      if Idle(lastClickTime, now) {
        energy := Min(MaxEnergy, energy + 1);
      }
    }

    /** activateBooster: spend a boost and schedule its expiry, or do nothing with none left. */
    method ActivateBooster()
      requires Valid()
      modifies this`boostsRemaining, this`boostMultiplier, this`activeBooster, this`pendingExpiries, storage
      ensures Valid()
      ensures BoosterState() == Activated(old(BoosterState()))
      ensures pendingExpiries == old(pendingExpiries) + (if old(boostsRemaining) > 0 then 1 else 0)
      ensures storage.items == old(storage.items)[BoostsKey := Count(boostsRemaining)]
    {
      if boostsRemaining > 0 {
        boostsRemaining := boostsRemaining - 1;
        boostMultiplier := BoostFactor;
        activeBooster := true;
        pendingExpiries := pendingExpiries + 1;
        // the persistence effect runs because boostsRemaining changed
        storage.SetItem(BoostsKey, Count(boostsRemaining));
      }
    }

    /** The body of one 30-second expiry timer: back to ×1 whichever activation scheduled it. */
    method ExpireBooster()
      requires Valid() && pendingExpiries > 0
      modifies this`boostMultiplier, this`activeBooster, this`pendingExpiries
      ensures Valid()
      ensures BoosterState() == Expired(old(BoosterState()))
      ensures pendingExpiries == old(pendingExpiries) - 1
    {
      boostMultiplier := 1;
      activeBooster := false;
      pendingExpiries := pendingExpiries - 1;
    }

    /** The body of EarnCircle's 300 ms timer. */
    method ClearClick()
      requires Valid()
      modifies this`isClicked
      ensures Valid()
      ensures !isClicked
    {
      isClicked := false;
    }

    /**
     * EarnCircle.handleClick at time `now`: ignored while the click guard is
     * set or energy is below 1; otherwise energy is used and, when that
     * succeeds, the guard is set and addPoints receives the boost factor.
     */
    method Click(now: int)
      requires Valid()
      modifies this`energy, this`lastClickTime, this`isClicked, store, storage
      ensures Valid()
      ensures BoosterState() == old(BoosterState()) && pendingExpiries == old(pendingExpiries)
      ensures old(isClicked) || old(energy) < 1 ==>
        && MeterState() == old(MeterState()) && isClicked == old(isClicked)
        && store.Current() == old(store.Current())
        && storage.items == old(storage.items)
      ensures !old(isClicked) && old(energy) >= 1 ==>
        && MeterState() == Used(old(MeterState()), now)
        && isClicked
        && store.Current() == Points.Added(old(store.Current()), old(boostMultiplier))
        && storage.items == old(storage.items)[Points.StateKey := Points.Encode(store.Current())]
      ensures store.points >= old(store.points)
    {
      if isClicked || energy < 1 {
        return;
      }
      var used := UseEnergy(now);
      if !used {
        return;
      }
      isClicked := true;
      Points.AddedStep(store.Current(), boostMultiplier);
      store.AddPoints(boostMultiplier);
    }
  }

  /**
   * Two boosts in a row, then the first 30-second timer fires: the boost ends
   * although the second activation's timer is still pending.
   */
  method EarlierExpiryEndsLaterBoost(app: App)
    requires app.Valid() && app.boostsRemaining >= 2
    modifies app, app.storage
    ensures app.Valid()
    ensures app.boostsRemaining == old(app.boostsRemaining) - 2
    ensures app.boostMultiplier == 1 && !app.activeBooster
    ensures app.pendingExpiries == old(app.pendingExpiries) + 1
  {
    app.ActivateBooster();
    app.ActivateBooster();
    app.ExpireBooster();
  }

  /**
   * App mounting over a score store that initializeApp has restored from
   * storage. Which code calls initializeApp is not part of this model; this
   * method states what follows if it runs once before App mounts. The App
   * invariant then holds whenever the saved state is one addPoints can
   * leave behind.
   */
  method StartUp(storage: LocalStorage, midnight: int, now: int) returns (app: App)
    requires StartReadable(storage.items) && Points.SavedCoherent(storage.items)
    modifies storage
    ensures fresh(app) && fresh(app.store) && app.storage == storage
    ensures app.Valid()
    ensures app.store.Current() == Points.Restored(Points.Initial, old(storage.items))
    ensures app.MeterState() == Meter(MaxEnergy, None)
    ensures app.BoosterState() == Booster(AllowanceAtStart(old(storage.items), midnight), 1, false)
    ensures app.pendingExpiries == 0 && !app.isClicked
    ensures storage.items == StartItems(old(storage.items), midnight, now)
  {
    var store := Points.Load(storage);
    app := new App(store, storage, midnight, now);
  }

  /**
   * A restart at any point of play, under the same assumption as StartUp:
   * every operation keeps the storage in a shape initializeApp and the mount
   * effects read, so a new App can start over the same storage with full
   * energy, no boost and no pending timers.
   */
  method Reload(app: App, midnight: int, now: int) returns (next: App)
    requires app.Valid()
    modifies app.storage
    ensures fresh(next) && next.storage == app.storage && next.Valid()
    ensures next.store.Current() == Points.Restored(Points.Initial, old(app.storage.items))
    ensures next.MeterState() == Meter(MaxEnergy, None)
    ensures next.BoosterState() == Booster(AllowanceAtStart(old(app.storage.items), midnight), 1, false)
    ensures next.pendingExpiries == 0 && !next.isClicked
    ensures app.storage.items == StartItems(old(app.storage.items), midnight, now)
  {
    next := StartUp(app.storage, midnight, now);
  }
}
