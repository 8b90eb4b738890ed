# Sandy tap-to-earn game engine in Dafny

This project models the integer state machine behind Sandy's tap button and
proves properties of it:

- the score store (`points`, `combo`, `multiplier`). Every tap compounds
  by combo and multiplier and is written through to local storage.
- the energy meter. It loses one unit per tap and regains one per
  500 ms tick after a pause in tapping, capped at 5000.
- the booster. A daily allowance of three ×10 boosts, each ended by a
  30-second timer.
- the daily reset of that allowance at start-up.
- the two rank classifiers: the header label and the ranks page with its
  progress bars.
- the sound preference flag.

Files and modules:

| file | module | models |
|---|---|---|
| `wrappers.dfy` | `Wrappers` | `Option` |
| `storage.dfy` | `Storage` | browser local storage, a map from key to an abstract value, shared by all parts |
| `points_store.dfy` | `Points` | `src/store/pointsStore.js` |
| `app.dfy` | `Game` | `src/App.jsx`: energy, booster, daily reset, `getRank`, `EarnCircle.handleClick` |
| `ranks.dfy` | `Ranks` | `src/components/RanksSection.jsx` |
| `rank_agreement.dfy` | `RankAgreement` | where `getRank` and the ranks page agree |
| `sound.dfy` | `Sound` | `src/utils/soundEffects.js` |

Each part whose source updates state in place is a class. `PointsStore`,
`App` and `SoundManager` have the source's fields. Their methods are proved
against pure functions: `Added`, `Restored`, `Used`, `Ticked`, `Activated`,
`Expired`, `AllowanceAtStart`, `StartItems` and `EnabledFrom`. The
properties are lemmas about those functions and class invariants (`Valid`)
that every method keeps. Because every method keeps `App.Valid()`, energy
stays in [0, 5000] under any interleaving of taps, ticks and timers, and
the same holds for the booster invariant and the stored allowance.

Timers are explicit methods, and the clock is an integer parameter in
milliseconds:

- the 500 ms regeneration interval is `App.Tick(now)`;
- the 30-second booster expiry is `App.ExpireBooster()`;
- EarnCircle's 300 ms click reset is `App.ClearClick()`.

`pendingExpiries` counts the expiry timers scheduled and not yet fired.
The start-up time `now` and the start of its local day, `midnight`, are
inputs.

Where a written reading of the design and the code differ, the model
follows the code:

- The new multiplier is `floor(combo / 10) + 1` of the combo *before* the
  increment (`src/store/pointsStore.js:20`). After the call,
  `multiplier == (combo - 1) / 10 + 1`. It is not `combo / 10 + 1` of the
  new combo. `Points.MultiplierLagsCombo` shows that the two readings
  differ after nine taps.
- A `sandyState` entry that is not valid JSON makes `initializeApp` throw
  (`src/store/pointsStore.js:11`). The code has no fallback to defaults,
  so the model demands that the entry is absent, empty (skipped as falsy)
  or a saved state.
- The reset time written by the daily reset depends on the case
  (`src/App.jsx:73-75`). When a stored stamp is older than today's
  midnight, the code writes midnight, because `setHours` in the test has
  already changed `now`. When no stamp is stored, `!resetTime`
  short-circuits the `||`, `setHours` never runs, and the code writes the
  current time. That happens on a first launch and after the storage has
  been cleared. `Game.ResetStamp` models both cases.

## Model

| member | source | states |
|---|---|---|
| `Points.CoherentMeansLaggedMultiplier` | src/store/pointsStore.js:19-20 | The store invariant is the same as "combo ≥ 1 and multiplier is one more than a tenth of the combo before its last increment". |
| `Points.Added` | src/store/pointsStore.js:15-21 | One addPoints transition raises combo by exactly 1. From a coherent store it leaves a coherent store, with the multiplier up by 0 or 1. |
| `Points.AddedStep` | src/store/pointsStore.js:15-21 | One addPoints adds exactly amount × combo × multiplier (values from before the call) and raises combo by 1. It keeps the store invariant and raises the multiplier by 0 or 1. Points never fall for amount ≥ 0 and rise by at least the amount for amount > 0. |
| `Points.AddAllGrowth` | src/store/pointsStore.js:15-21 | Any sequence of non-negative addPoints calls keeps the invariant and adds one to combo per call. Multiplier and points never decrease. |
| `Points.AddAllFromInitial` | src/store/pointsStore.js:4-20 | From the initial store (0, 1, 1), n calls leave combo = n + 1 and multiplier = n / 10 + 1, whatever the amounts. |
| `Points.MultiplierLagsCombo` | src/store/pointsStore.js:19-20 | After nine taps from the initial store, combo is 10 and multiplier is still 1, not 10 / 10 + 1. |
| `Points.SteadyTapping` | src/store/pointsStore.js:16-20 | n taps of the same amount from the initial store earn amount × Σ_{i=1..n} i × ((i − 1) / 10 + 1), which grows faster than linearly. |
| `Points.Restored` | src/store/pointsStore.js:8-13 | initializeApp keeps the state when the `sandyState` entry is absent or the empty string (falsy, so skipped). Otherwise it takes exactly the saved object. |
| `Points.AddedSavesCoherent` | src/store/pointsStore.js:15-23 | What addPoints writes from a coherent store is a saved state that is itself coherent. |
| `Points.RestoredCoherent` | src/store/pointsStore.js:8-13 | Restoring a coherent saved state, or skipping an absent one, leaves a coherent store coherent. |
| `Points.RestoresWritten` | src/store/pointsStore.js:9-23 | Round trip: whatever state initializeApp starts from, an entry holding what addPoints writes for a state is read back as exactly that state. |
| `Points.PointsStore.constructor` | src/store/pointsStore.js:3-6 | The store starts at points 0, combo 1, multiplier 1, which satisfies the invariant. |
| `Points.PointsStore.InitializeApp` | src/store/pointsStore.js:8-13 | The fields become the saved `sandyState` object when one exists. They are unchanged when the entry is absent or empty. With a coherent saved state, the store invariant is kept. |
| `Points.PointsStore.AddPoints` | src/store/pointsStore.js:15-25 | The new fields are `Added` of the old ones. Storage changes only in `sandyState`, which now holds exactly the new three fields. The invariant is kept, and the saved state is coherent. |
| `Points.Load` | src/store/pointsStore.js:3-13 | A store created and then passed through initializeApp holds the restored state. It satisfies the store invariant whenever the saved state is coherent. |
| `Points.ReloadAfterAddPoints` | src/store/pointsStore.js:8-25 | After a tap, a new store initialised from the same storage holds the same points, combo and multiplier. |
| `Game.Used` | src/App.jsx:170-175 | At energy ≤ 0 the use is refused and nothing changes. Otherwise energy drops by exactly 1 (the floor at 0 never applies) and the tap time is recorded. |
| `Game.Idle` | src/App.jsx:160 | The regeneration guard holds when no tap is recorded. For a non-zero tap time it holds exactly when more than 500 ms have passed. |
| `Game.Ticked` | src/App.jsx:156-164 | A tick raises energy by exactly 1 if and only if the tap is idle (none recorded, a falsy 0, or more than 500 ms ago) and energy is below 5000. Otherwise, for energy ≤ 5000, energy is unchanged. It is always unchanged when not idle. The tap time is never touched. |
| `Game.EnergyStaysInRange` | src/App.jsx:156-175 | Starting in [0, 5000], energy stays in [0, 5000] under any sequence of taps and ticks. |
| `Game.IdleTicksRefill` | src/App.jsx:157-164 | k ticks during a pause in tapping raise energy to min(5000, energy + k). |
| `Game.FourIdleTicks` | src/App.jsx:157-165 | Four idle ticks take energy 100 to 104. |
| `Game.TapHoldsOffRegeneration` | src/App.jsx:157-175 | A tick within 500 ms of a successful tap adds nothing. |
| `Game.Activated` | src/App.jsx:136-141 | With a boost left, activation takes exactly one, sets the factor to 10 and marks the boost active. With none left, nothing changes. The booster invariant is kept. |
| `Game.Expired` | src/App.jsx:146-150 | Expiry always sets the factor to 1 and the active flag to false and leaves the allowance alone. |
| `Game.GrantsWithinAllowance` | src/App.jsx:136-150 | In any sequence of activations and expiries, boosts granted plus boosts left equal the allowance at the start. So at most 3 are granted, and the booster invariant holds throughout. |
| `Game.ResetDue` | src/App.jsx:73 | The daily reset is due when no reset time is stored, or exactly when the stored time is before today's midnight. |
| `Game.AllowanceAtStart` | src/App.jsx:60-80 | The allowance after start-up is in [0, 3]. It is 3 when a reset is due. Otherwise it is the saved count, or the initial 3 when no count is saved. |
| `Game.ResetStamp` | src/App.jsx:73-75 | The time a due reset writes is the current time when no stamp is stored, and today's midnight when a stored stamp is older. |
| `Game.StartItems` | src/App.jsx:70-85 | After start-up at `now`, `boostsRemaining` holds the allowance. With no stamp stored, `boostResetTime` is stamped with `now`. With a stamp older than midnight, it is stamped with midnight. With a stamp not older than midnight, it is left as it was. The keys are the old ones plus these two. Every other entry is unchanged. |
| `Game.FirstLaunchStampsNow` | src/App.jsx:70-85 | On empty storage, start-up writes exactly three boosts and a reset stamp equal to the current time. |
| `Game.NewDayRefills` | src/App.jsx:71-75 | With a reset stamped yesterday and 0 boosts saved, start-up gives 3 boosts and stamps today's midnight. |
| `Game.RefillOncePerDay` | src/App.jsx:70-85 | After a start-up at any time `now` of the day (first launch included), however many boosts are then spent, a later start-up the same day restores the count left. A start-up on a later day refills to 3. |
| `Game.RankLabel` | src/App.jsx:177-181 | The header label is "Ocean Master" exactly when points ≥ 5000, "Beach Explorer" exactly on [2500, 5000), and "Sandy Starter" exactly below 2500. |
| `Game.RankLabelMonotone` | src/App.jsx:177-181 | More points never give a lower header label. |
| `Game.App.constructor` | src/App.jsx:58-85 | Mount: energy 5000, no tap, factor 1, no boost, no pending timers. The allowance and storage are as `AllowanceAtStart` and `StartItems` give at the mount time. The invariant holds, including that storage stays readable by the next page load. |
| `Game.App.UseEnergy` | src/App.jsx:170-175 | Returns true exactly when energy was positive. The meter becomes `Used` of the old meter. |
| `Game.App.Tick` | src/App.jsx:156-164 | The meter becomes `Ticked` of the old meter. Energy stays in [0, 5000]. |
| `Game.App.ActivateBooster` | src/App.jsx:136-152 | The booster becomes `Activated` of the old one. A successful activation schedules one more expiry. The stored allowance follows the new count. |
| `Game.App.ExpireBooster` | src/App.jsx:146-150 | One pending timer fires, and the booster becomes `Expired` of the old one. An active boost always has a pending expiry. |
| `Game.App.ClearClick` | src/App.jsx:611-613 | The click guard is cleared. |
| `Game.App.Click` | src/App.jsx:600-614 | If the guard is set or energy is below 1, nothing changes. Otherwise one unit of energy is used, the guard is set, and the store becomes `Added(old, boostMultiplier)`, written through to `sandyState`. Points never decrease, and the booster is untouched. |
| `Game.EarlierExpiryEndsLaterBoost` | src/App.jsx:136-150 | Two activations and then one expiry leave no boost active, even though the second activation's timer is still pending. |
| `Game.StartUp` | src/App.jsx:56-85 | App mounting over a store that initializeApp has restored (that ordering is assumed, see "## Left out"). From readable storage with a coherent saved state, the App invariant holds. The store holds the restored score. App starts with energy 5000, no tap, the allowance from `AllowanceAtStart`, factor 1, no boost and no pending timers. Storage becomes `StartItems` at the start-up time. |
| `Game.Reload` | src/App.jsx:56-85 | Under the same assumption, a restart at any point of play succeeds: a new App over the same storage is valid and holds the restored score. It has energy 5000, no tap, factor 1, no boost and no pending timers, and the allowance after the daily reset. Storage becomes `StartItems` at the restart time. |
| `Ranks.TableAscending` | src/components/RanksSection.jsx:8-37 | The thresholds are 0, 1000, 2500 and 5000, strictly ascending. |
| `Ranks.LastReached` | src/components/RanksSection.jsx:39-46 | Gives the index of the last rank whose threshold the points reach, or 0 when none is reached. Every later rank's threshold is above the points. |
| `Ranks.GetCurrentRank` | src/components/RanksSection.jsx:39-46 | The backward search returns exactly the rank `LastReached` designates. |
| `Ranks.FallbackOnlyBelowZero` | src/components/RanksSection.jsx:39-46 | No threshold is reached exactly when points are negative. Only then does the first-rank fallback apply. For points ≥ 0 the returned rank's threshold is reached. |
| `Ranks.CurrentRankMonotone` | src/components/RanksSection.jsx:39-46 | More points never give an earlier rank. |
| `Ranks.IndexOf` | src/components/RanksSection.jsx:50 | `ranks.indexOf`: -1 exactly when the rank is absent. Otherwise it is the first position holding the rank. |
| `Ranks.Progress` | src/components/RanksSection.jsx:48-55 | Progress is always in [0, 100]. It is 100 whenever the rank's threshold is reached, and 0 for the first rank below its threshold. |
| `Ranks.ProgressUpToCurrent` | src/components/RanksSection.jsx:48-49 | For points ≥ 0, every rank up to the current one shows 100. |
| `Ranks.ProgressOfNext` | src/components/RanksSection.jsx:50-54 | For points ≥ 0, the rank after the current one shows the exact share of the way from the current threshold, which is below 100. |
| `Ranks.ProgressBeyondNext` | src/components/RanksSection.jsx:50-54 | For points ≥ 0, every rank beyond the next one shows 0, by the clamp. |
| `Ranks.ProgressProfile` | src/components/RanksSection.jsx:48-55 | For points ≥ 0, every rank up to the current one shows 100. The next rank shows the exact, unclamped share of the way to it, which is below 100. Every later rank shows 0. |
| `RankAgreement.HeaderAgreesWithPage` | src/App.jsx:177-181 | The header label and the ranks page name the same rank exactly when points < 1000 or points ≥ 5000. They differ on [1000, 2500) and on [2500, 5000). |
| `Sound.EnabledFrom` | src/utils/soundEffects.js:3 | Sound is off exactly when the stored `soundEnabled` value is the string "false". An absent value means on. |
| `Sound.Stored` | src/utils/soundEffects.js:13 | toggle writes the string "true" or "false", and a storage holding only that entry reads back as the same flag. |
| `Sound.StoredReadsBack` | src/utils/soundEffects.js:3-13 | The value toggle stores reads back as the same flag. |
| `Sound.SoundManager.constructor` | src/utils/soundEffects.js:2-9 | The flag is read from storage and the three clips are loaded. |
| `Sound.SoundManager.Toggle` | src/utils/soundEffects.js:11-14 | The flag flips, the clip table is unchanged, and storage changes only in `soundEnabled`, which now holds the new value. |
| `Sound.SoundManager.Play` | src/utils/soundEffects.js:16-20 | A clip is played exactly when sound is on and the name is one of the loaded sounds. It is that name's clip. |
| `Sound.ToggleTwice` | src/utils/soundEffects.js:11-14 | Toggling twice restores the flag and the clips, and storage reads back the same flag. |
| `Sound.ReloadAfterToggle` | src/utils/soundEffects.js:3-13 | After a toggle, a manager built afresh over the same storage starts with the flag the old one ended with. |

## Left out

- Rendering, animation, toasts, modals, the portal container and the 3-second loading screen are presentation only. The booster modal flag is not modelled.
- Real timers are left out. Each timer callback is a method called at an explicit time. The regeneration interval restarts whenever `lastClickTime` changes, which shifts the phase of later ticks. That restart, and stale React closures, are not modelled.
- React batching is not modelled. `handleClick` tests the energy from the last render, and `handleEnergyUse` tests the rendered value but updates the current one. The model applies events one at a time, so these values are always equal.
- `Date`, `toISOString`, `JSON.parse`/`stringify` and `parseInt` are library calls. Time is integer milliseconds, the start-up time and today's midnight are inputs, and stored values are an abstract `Value` with one kind per item written.
- Points.PointsStore.InitializeApp: requires the `sandyState` entry to be absent, empty or a saved state. The empty string is falsy, so it is skipped like an absent entry. Other text that is not JSON makes `JSON.parse` throw. JSON holding only some of the fields would be merged field by field by the store. Neither case is modelled.
- Game.StartUp, Game.Reload: no file of this model calls `initializeApp` (`src/store/pointsStore.js:8`), and `src/App.jsx` only reads `points` and calls `addPoints`. These two members, and `Points.Load` and `Points.ReloadAfterAddPoints`, assume it runs once before App mounts. Without that call a page load starts the score at 0/1/1 whatever `sandyState` holds, and the next tap overwrites the saved state.
- Game.App.constructor: requires `boostResetTime` to be absent or a timestamp, and `boostsRemaining` to be absent or a count in [0, 3]. Only an outside edit of storage produces anything else. That would mean an Invalid Date, a NaN or an out-of-range count, which the integer model cannot hold. It also requires a coherent score store and a coherent saved `sandyState` (combo at least 1, multiplier as addPoints leaves it). The source mounts App over any store. Every state this program writes is coherent (`Points.AddedSavesCoherent`, `Game.StartUp`), but a `sandyState` edited outside the program, such as combo 0, is restored as is, and the model does not cover play from it.
- Number precision: points, combo and energy are unbounded integers. JavaScript numbers are doubles, which lose integer precision above 2^53.
- Ranks.Progress: exact reals stand for doubles. The `toFixed(1)` display formatting is not modelled.
- Sound.SoundManager.Play: returns the clip that would play. Audio loading and playback are not modelled. A name that is an `Object.prototype` member (such as "toString") would hit an inherited property in JavaScript. The model treats the clip table as a plain map.
- The settings page's progress reset (`localStorage.clear()` and a reload) is not modelled as an operation. Its effect is a start from storage with no entries. The constructors and `Restored` handle that start: the score is 0/1/1, there are three boosts, and the reset is stamped with the current time (`Game.FirstLaunchStampsNow`).
- `src/components/Circle.jsx` calls `addPoints(1)` with no energy check. It, the other components and `src/hooks/useAnimations.js` are not part of this model.
- The QR scanner, wallet integration and transaction signing are foreign calls and asynchronous I/O.
