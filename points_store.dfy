/**
 * The score store (src/store/pointsStore.js): points, combo and multiplier,
 * replaced as a whole by every addPoints call and written through to the
 * `sandyState` storage entry; initializeApp reads that entry back.
 */
module Points {
  import opened Storage

  datatype Snapshot = Snapshot(points: int, combo: int, multiplier: int)

  const StateKey := "sandyState"
  const Initial := Snapshot(0, 1, 1)

  /**
   * The relation every addPoints call leaves behind: the multiplier is one more
   * than a tenth of the combo BEFORE its last increment, so it lags the combo by
   * one tap. The initial state satisfies it too. It is stated without division
   * (see CoherentMeansLaggedMultiplier for the equivalence), which keeps the
   * solver fast where it is assumed.
   */
  ghost predicate Coherent(s: Snapshot) {
    s.combo >= 1 && 10 * (s.multiplier - 1) <= s.combo - 1 < 10 * s.multiplier
  }

  lemma CoherentMeansLaggedMultiplier(s: Snapshot)
    ensures Coherent(s) <==> s.combo >= 1 && s.multiplier == (s.combo - 1) / 10 + 1
  {
  }

  /**
   * One addPoints(amount). The amount compounds by the combo and multiplier
   * held before the call; the new multiplier is taken from the old combo.
   * (For a positive divisor, Dafny's `/` is JavaScript's Math.floor of the quotient.)
   */
  function Added(s: Snapshot, amount: int): (r: Snapshot)
    ensures r.combo == s.combo + 1
    ensures Coherent(s) ==> Coherent(r) && s.multiplier <= r.multiplier <= s.multiplier + 1
  {
    Snapshot(s.points + amount * s.combo * s.multiplier, s.combo + 1, s.combo / 10 + 1)
  }

  lemma AddedStep(s: Snapshot, amount: int)
    requires Coherent(s)
    ensures var r := Added(s, amount);
      && r.points == s.points + amount * s.combo * s.multiplier
      && r.combo == s.combo + 1
      && Coherent(r)
      && s.multiplier <= r.multiplier <= s.multiplier + 1
      && (amount >= 0 ==> r.points >= s.points)
      && (amount > 0 ==> r.points >= s.points + amount)
  {
    if amount >= 0 {
      GainAtLeastAmount(amount, s.combo, s.multiplier);
    }
  }

  /** With combo and multiplier at least 1, a tap is worth at least its amount. */
  lemma GainAtLeastAmount(amount: int, combo: int, multiplier: int)
    requires amount >= 0 && combo >= 1 && multiplier >= 1
    ensures amount * combo * multiplier >= amount
  {
    assert amount * combo >= amount;
    assert amount * combo * multiplier >= amount * combo;
  }

  /** The store after addPoints was called with each of `amounts`, in order. */
  function AddAll(s: Snapshot, amounts: seq<int>): Snapshot
    decreases |amounts|
  {
    if amounts == [] then s
    else Added(AddAll(s, amounts[..|amounts| - 1]), amounts[|amounts| - 1])
  }

  /** Any run of non-negative addPoints keeps the store coherent: combo grows by one per call, multiplier and points never fall. */
  lemma {:induction false} AddAllGrowth(s: Snapshot, amounts: seq<int>)
    requires Coherent(s)
    requires forall i :: 0 <= i < |amounts| ==> amounts[i] >= 0
    ensures var r := AddAll(s, amounts);
      && Coherent(r)
      && r.combo == s.combo + |amounts|
      && r.multiplier >= s.multiplier
      && r.points >= s.points
  {
    if amounts != [] {
      var prefix := amounts[..|amounts| - 1];
      AddAllGrowth(s, prefix);
      AddedStep(AddAll(s, prefix), amounts[|amounts| - 1]);
    }
  }

  /** From the initial store, n calls leave combo n + 1 and multiplier n / 10 + 1, whatever the amounts. */
  lemma {:induction false} AddAllFromInitial(amounts: seq<int>)
    ensures AddAll(Initial, amounts).combo == |amounts| + 1
    ensures AddAll(Initial, amounts).multiplier == |amounts| / 10 + 1
  {
    if amounts != [] {
      AddAllFromInitial(amounts[..|amounts| - 1]);
    }
  }

  /**
   * The multiplier follows the combo one tap late: after nine taps the combo is
   * 10 but the multiplier is still 1, not 10 / 10 + 1.
   */
  lemma MultiplierLagsCombo(amounts: seq<int>)
    requires |amounts| == 9
    ensures AddAll(Initial, amounts).combo == 10
    ensures AddAll(Initial, amounts).multiplier == 1
    ensures AddAll(Initial, amounts).multiplier != AddAll(Initial, amounts).combo / 10 + 1
  {
    AddAllFromInitial(amounts);
  }

  /** `n` copies of `amount`. */
  function Repeat(amount: int, n: nat): (r: seq<int>)
    ensures |r| == n
  {
    if n == 0 then [] else Repeat(amount, n - 1) + [amount]
  }

  /** Sum over the first n taps from the initial store of combo * multiplier at each tap. */
  function Weight(n: nat): nat {
    if n == 0 then 0 else Weight(n - 1) + n * ((n - 1) / 10 + 1)
  }

  /**
   * Tapping steadily with the same amount from the initial store earns
   * amount * Weight(n): the n-th tap is worth amount * n * ((n - 1) / 10 + 1),
   * so the score grows faster than linearly in the number of taps.
   */
  lemma {:induction false} SteadyTapping(amount: int, n: nat)
    ensures AddAll(Initial, Repeat(amount, n)).points == amount * Weight(n)
  {
    if n > 0 {
      var taps := Repeat(amount, n);
      var earlier := Repeat(amount, n - 1);
      assert taps == earlier + [amount];
      assert taps[..n - 1] == earlier && taps[n - 1] == amount;
      var before := AddAll(Initial, earlier);
      assert AddAll(Initial, taps) == Added(before, amount);
      SteadyTapping(amount, n - 1);
      AddAllFromInitial(earlier);
      TapWorth(amount, before, n, Weight(n - 1));
    }
  }

  /** The n-th tap from the initial store adds amount * n * ((n - 1) / 10 + 1). */
  lemma TapWorth(amount: int, before: Snapshot, n: nat, w: int)
    requires n > 0 && before.combo == n && before.multiplier == (n - 1) / 10 + 1
    requires before.points == amount * w
    ensures Added(before, amount).points == amount * (w + n * ((n - 1) / 10 + 1))
  {
    var m := before.multiplier;
    assert amount * before.combo * m == amount * (n * m);
    Distribute(amount, w, n * m);
  }

  lemma Distribute(a: int, x: int, y: int)
    ensures a * x + a * y == a * (x + y)
  {
  }

  /** The JSON object written under `sandyState`. */
  function Encode(s: Snapshot): Value {
    Blob(s.points, s.combo, s.multiplier)
  }

  /** The three fields of a saved JSON object. */
  function Decode(v: Value): (s: Snapshot)
    requires v.Blob?
    ensures Encode(s) == v
  {
    Snapshot(v.points, v.combo, v.multiplier)
  }

  /**
   * The `sandyState` entry is absent, empty (which `if (savedState)` skips),
   * or holds the JSON object this store writes. Other text makes JSON.parse
   * throw, which the model does not cover.
   */
  predicate Loadable(items: map<string, Value>) {
    StateKey in items ==> items[StateKey].Blob? || items[StateKey] == Text("")
  }

  /** The state initializeApp leaves, starting from `s`. */
  function Restored(s: Snapshot, items: map<string, Value>): (r: Snapshot)
    requires Loadable(items)
    ensures StateKey !in items || items[StateKey] == Text("") ==> r == s
    ensures StateKey in items && items[StateKey].Blob? ==> Encode(r) == items[StateKey]
  {
    if StateKey in items && items[StateKey].Blob? then Decode(items[StateKey]) else s
  }

  /** A saved state, if there is one, is one that addPoints can leave behind. */
  ghost predicate SavedCoherent(items: map<string, Value>) {
    && Loadable(items)
    && (StateKey in items && items[StateKey].Blob? ==> Coherent(Decode(items[StateKey])))
  }

  /** What addPoints writes from a coherent store is a coherent saved state. */
  lemma AddedSavesCoherent(s: Snapshot, amount: int, items: map<string, Value>)
    requires Coherent(s)
    ensures SavedCoherent(items[StateKey := Encode(Added(s, amount))])
  {
    AddedStep(s, amount);
  }

  /** Restoring a coherent saved state into a coherent store leaves it coherent. */
  lemma RestoredCoherent(s: Snapshot, items: map<string, Value>)
    requires Coherent(s) && SavedCoherent(items)
    ensures Coherent(Restored(s, items))
  {
    if StateKey in items && items[StateKey].Blob? {
      assert Restored(s, items) == Decode(items[StateKey]);
    }
  }

  /**
   * Round trip: whatever state initializeApp starts from, reading back an
   * entry this store wrote gives exactly the state it wrote.
   */
  lemma RestoresWritten(s: Snapshot, items: map<string, Value>, start: Snapshot)
    requires StateKey in items && items[StateKey] == Encode(s)
    ensures Loadable(items) && Restored(start, items) == s
  {
  }

  class PointsStore {
    var points: int
    var combo: int
    var multiplier: int
    const storage: LocalStorage

    function Current(): Snapshot
      reads this
    {
      Snapshot(points, combo, multiplier)
    }

    ghost predicate Valid()
      reads this
    {
      Coherent(Current())
    }

    /** The store as created: points 0, combo 1, multiplier 1; storage is not read yet. */
    constructor (storage: LocalStorage)
      ensures Current() == Initial && Valid()
      ensures this.storage == storage
    {
      points, combo, multiplier := 0, 1, 1;
      this.storage := storage;
    }

    /** initializeApp: overwrite the three fields from `sandyState` when that entry exists. */
    method InitializeApp()
      requires Loadable(storage.items)
      modifies this
      ensures Current() == Restored(old(Current()), storage.items)
      ensures StateKey !in storage.items || storage.items[StateKey] == Text("") ==> Current() == old(Current())
      ensures old(Valid()) && SavedCoherent(storage.items) ==> Valid()
    {
      if StateKey in storage.items && storage.items[StateKey].Blob? {
        var blob := storage.items[StateKey];
        points, combo, multiplier := blob.points, blob.combo, blob.multiplier;
      }
      if old(Valid()) && SavedCoherent(storage.items) {
        RestoredCoherent(old(Current()), storage.items);
      }
    }

    /** addPoints(amount): compound the amount, bump the combo, and write the new state through. */
    method AddPoints(amount: int)
      modifies this, storage
      ensures Current() == Added(old(Current()), amount)
      ensures storage.items == old(storage.items)[StateKey := Encode(Current())]
      ensures old(Valid()) ==> Valid() && SavedCoherent(storage.items)
    {
      var next := Added(Current(), amount);
      storage.SetItem(StateKey, Encode(next));
      points, combo, multiplier := next.points, next.combo, next.multiplier;
      if old(Valid()) {
        AddedSavesCoherent(old(Current()), amount, old(storage.items));
      }
    }
  }

  /**
   * A new store over `storage`, then initializeApp. Which code calls
   * initializeApp is not part of this model.
   */
  method Load(storage: LocalStorage) returns (store: PointsStore)
    requires Loadable(storage.items)
    ensures fresh(store) && store.storage == storage
    ensures store.Current() == Restored(Initial, storage.items)
    ensures SavedCoherent(storage.items) ==> store.Valid()
  {
    store := new PointsStore(storage);
    store.InitializeApp();
  }

  /** A tap, then a new store initialised from the same storage: it holds what the old one holds. */
  method ReloadAfterAddPoints(store: PointsStore, amount: int) returns (reloaded: PointsStore)
    modifies store, store.storage
    ensures fresh(reloaded) && reloaded.storage == store.storage
    ensures store.Current() == Added(old(store.Current()), amount)
    ensures reloaded.Current() == store.Current()
  {
    store.AddPoints(amount);
    RestoresWritten(store.Current(), store.storage.items, Initial);
    reloaded := Load(store.storage);
  }
}
