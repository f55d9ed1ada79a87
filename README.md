# Eos fitting engine: drone-group restriction, ordered holder container, drone-bandwidth stat

This project models three parts of Eos, a library that computes ship fittings for EVE Online, and proves properties about each:

- **Drone-group restriction register** (`drone_group.dfy`, module `RestrictionTracker`):
  - The register tracks the drones of a fit and ignores every other holder.
  - On validation, it reads the ship item's original `allowedDroneGroup1`/`allowedDroneGroup2` attributes. If either is present, every tracked drone whose group is not among them is reported in one aggregated failure. Each reported drone maps to its own group and the allowed set.
  - Validation never changes the register.
- **Ordered holder container** `HolderList` (`holder_list.dfy`, module `HolderContainer`):
  - It is a list of slots, where `None` is an empty placeholder. `append` adds to the end. `place(index, h)` pads the list with empty slots when needed.
  - `remove` takes a holder, `None` or an index. It deletes the first matching slot, and later slots shift left.
  - Trailing empty slots are trimmed after every removal, so the list never ends in an empty slot.
  - The owning fit is told once per holder that enters or leaves: `_addHolder` / `_removeHolder`. It is not told at all about empty slots or failed calls.
  - The fit's view is a log of notifications. The class invariant says the holders in the slots are exactly those added minus those removed, as multisets.
- **Drone-bandwidth stat** (`drone_bandwidth.dfy`, module `DroneBandwidthStat`):
  - `output` is the ship's *modified* `droneBandwidth`, or none when there is no ship or no such attribute.
  - `used` is the sum of the modified `droneBandwidthUsed` of every tracked holder that is online or higher, whatever the holder's class.
  - The value is cached on first read and recomputed only after `_clear_volatile_attrs`.

`holders.dfy` holds the shared entities:
- attribute ids;
- holder kinds;
- activation states;
- items, whose base attributes are a map;
- holders.

`wrappers.dfy` holds `Option` (Python's `None`) and `Get` (Python's `dict.get`).

Replay methods are scripted runs that drive the classes step by step and assert, at each step, what the source's tests assert:
- `RestrictionTracker.ReplayAggregation` runs a ship that allows one group, with drones of an allowed and a foreign group and a module beside them.
- `HolderContainer.ReplayHolderFailure`, `HolderContainer.ReplayIndexNone` and `HolderContainer.ReplayIndexOutside` run `testHolderFailure`, `testIndexNone` and `testIndexOutside` through `HolderList`, including the fit-call counts those tests check.
- `DroneBandwidthStat.ReplayVolatility` runs the cache and volatility tests through the `StatTracker` class.

`remove(index)` on an empty slot deletes that slot and shifts later slots left, as `testIndexNone` (testRemove.py:179-194) shows; the fit is not told.

Source paths below are relative to the repository root.
- `fit/restrictionTracker/register/droneGroup.py` is the register itself.
- The container's implementation, `eos/fit/holder/container`, is not part of this model. `HolderList` is modelled from its behaviour as pinned by `tests/fit/holderContainer/ordered/testRemove.py`.
- The stat tracker's implementation is not part of this model either. The bandwidth stat is modelled from `tests/stat_tracker/resource/test_drone_bandwidth.py`.

## Model

| member | source | states |
|---|---|---|
| RestrictionTracker.AllowedGroupsByAttribute | fit/restrictionTracker/register/droneGroup.py:74-81 | The allowed set is the value of each restriction attribute present on the ship item, and nothing else; it is empty exactly when neither attribute is present |
| RestrictionTracker.DroneGroupRegister.constructor | fit/restrictionTracker/register/droneGroup.py:51-56 | A new register tracks no holder |
| RestrictionTracker.DroneGroupRegister.RegisterHolder | fit/restrictionTracker/register/droneGroup.py:58-61 | A drone is added to the tracked set; any other holder leaves it unchanged; only drones are ever tracked |
| RestrictionTracker.DroneGroupRegister.UnregisterHolder | fit/restrictionTracker/register/droneGroup.py:63-64 | The holder is no longer tracked and nothing else changes; unregistering an untracked holder is a silent no-op |
| RestrictionTracker.DroneGroupRegister.Validate | fit/restrictionTracker/register/droneGroup.py:66-94 | No ship, or no restriction attribute, passes. Otherwise validation fails if and only if some tracked drone's group is outside the allowed set. The failure's keys are exactly those drones. Each maps to its own group and the full allowed set. The register is not modified |
| RestrictionTracker.DroneGroupRegister.RestrictionType | fit/restrictionTracker/register/droneGroup.py:96-98 | The register reports the drone-group restriction |
| HolderContainer.HolderList.constructor | tests/fit/holderContainer/ordered/testRemove.py:30-33 | A new container has no slots, the fit has been told nothing, and the invariant holds |
| HolderContainer.HolderList.Length | tests/fit/holderContainer/ordered/testRemove.py:42-48 | `len` is the number of slots, empty placeholders included |
| HolderContainer.HolderList.At | tests/fit/holderContainer/ordered/testRemove.py:67-74 | Indexing yields a slot's content (a holder or `None`) exactly for indices inside the list |
| HolderContainer.HolderList.Append | tests/fit/holderContainer/ordered/testRemove.py:40-42 | The holder lands in a new last slot and the fit is told once; no trailing empty slot appears, and the fit still knows exactly the holders inside |
| HolderContainer.HolderList.Place | tests/fit/holderContainer/ordered/testRemove.py:64-74 | Placing into a free slot gives the `Placed` slots and one add notification. An occupied slot is refused with nothing changed. The invariant is kept |
| HolderContainer.HolderList.Remove | tests/fit/holderContainer/ordered/testRemove.py:35-248 | A missing value raises ValueError and an index past the end raises IndexError; in both cases nothing changes and the fit is not told. Otherwise the located slot, empty or not, is deleted, later slots shift left and trailing empties are trimmed. The fit gets one remove call exactly when the slot held a holder. The invariant is kept |
| HolderContainer.Trimmed | tests/fit/holderContainer/ordered/testRemove.py:87-93 | Trimmed slots are a prefix of the input, do not end in an empty slot, and drop only empty slots |
| HolderContainer.Delete | tests/fit/holderContainer/ordered/testRemove.py:44-49 | Deleting slot k keeps the earlier slots and moves each later slot one place left |
| HolderContainer.Placed | tests/fit/holderContainer/ordered/testRemove.py:64-74 | After placing, the list reaches the index, the holder is at the index, old slots are kept elsewhere, and new padding slots are empty |
| HolderContainer.IndexOf | tests/fit/holderContainer/ordered/testRemove.py:112-135 | The result is the first slot equal to the value (a holder or `None`); there is none exactly when the value is absent |
| HolderContainer.Locate | tests/fit/holderContainer/ordered/testRemove.py:97-110 | A value target is found exactly when it occurs; an index target is found exactly when it is inside the list |
| HolderContainer.IndexOfFirst | tests/fit/holderContainer/ordered/testRemove.py:112-113 | A slot equal to the value with no equal slot before it is the one `list.index` finds |
| HolderContainer.FindFirst | tests/fit/holderContainer/ordered/testRemove.py:126-132 | The front-to-back scan returns `IndexOf` |
| HolderContainer.TrimTrailing | tests/fit/holderContainer/ordered/testRemove.py:87-93 | The one-at-a-time cleanup loop returns `Trimmed` |
| HolderContainer.Allocate | tests/fit/holderContainer/ordered/testRemove.py:64-66 | Padding extends the list up to the index with empty slots only, so no holder is gained or lost |
| HolderContainer.PlacedByAllocation | tests/fit/holderContainer/ordered/testRemove.py:64-74 | Writing the holder into the padded slots equals `Placed`, and the last slot stays occupied |
| HolderContainer.TrimmedKeepsOccupants | tests/fit/holderContainer/ordered/testRemove.py:87-93 | Trimming never loses a holder |
| HolderContainer.TrimmedEmptyIffNoOccupants | tests/fit/holderContainer/ordered/testRemove.py:94-95 | Trimming leaves no slot at all exactly when no holder is left, so the object buffers end up empty |
| HolderContainer.TrimmedIgnoresEmptyTail | tests/fit/holderContainer/ordered/testRemove.py:87-93 | Empty slots appended at the end make no difference after trimming |
| HolderContainer.AppendKeepsSync | tests/fit/holderContainer/ordered/testRemove.py:40-47 | After an append and its notification, the fit still knows exactly the holders in the slots |
| HolderContainer.PlaceKeepsSync | tests/fit/holderContainer/ordered/testRemove.py:64-66 | After placing into a free padded slot and notifying, the fit still knows exactly the holders in the slots |
| HolderContainer.RemoveKeepsSync | tests/fit/holderContainer/ordered/testRemove.py:43-54 | After a delete-and-trim, the fit still knows exactly the holders in the slots. That holds with one remove call for a holder slot and with none for an empty slot |
| HolderContainer.PlaceScenario | tests/fit/holderContainer/ordered/testRemove.py:64-74 | `append(h1)`, `place(3, h2)`, `place(6, h3)` give seven slots with gaps at 1, 2, 4 and 5 |
| HolderContainer.RemoveMiddleScenario | tests/fit/holderContainer/ordered/testRemove.py:75-86 | Removing h2 finds slot 3, shifts h3 to slot 5 and keeps the interior gaps |
| HolderContainer.RemoveLastScenario | tests/fit/holderContainer/ordered/testRemove.py:87-93 | Removing h3 then leaves only `[h1]`, since the gaps become trailing |
| HolderContainer.RemoveNoneScenario | tests/fit/holderContainer/ordered/testRemove.py:118-132 | `remove(None)` takes away the first empty slot and keeps the later gap |
| DroneBandwidthStat.Usage | tests/stat_tracker/resource/test_drone_bandwidth.py:104-116 | A holder below online adds 0; an online holder adds its modified `droneBandwidthUsed` from the snapshot, or 0 when it has none |
| DroneBandwidthStat.Output | tests/stat_tracker/resource/test_drone_bandwidth.py:33-59 | Output is none without a ship; otherwise it is the ship's modified bandwidth, none when the attribute is missing |
| DroneBandwidthStat.TotalUsage | tests/stat_tracker/resource/test_drone_bandwidth.py:99-102 | When no tracked holder uses anything, including when none is tracked, the total is 0 |
| DroneBandwidthStat.TotalUsageRemove | tests/stat_tracker/resource/test_drone_bandwidth.py:71-83 | Each holder adds its usage once: the total is any one holder's usage plus the total of the rest |
| DroneBandwidthStat.TotalUsageUnion | tests/stat_tracker/resource/test_drone_bandwidth.py:71-83 | The total over two disjoint sets of holders is the sum of their totals |
| DroneBandwidthStat.OfflineHolderAddsNothing | tests/stat_tracker/resource/test_drone_bandwidth.py:104-116 | A holder below online adds nothing to `used` |
| DroneBandwidthStat.TotalUsageOfTwo | tests/stat_tracker/resource/test_drone_bandwidth.py:71-83 | The total of two distinct holders is the sum of their usages |
| DroneBandwidthStat.OutputScenario | tests/stat_tracker/resource/test_drone_bandwidth.py:33-59 | The modified 50 is reported, not the base 10. A ship whose item has no attributes gives none, and so does no ship |
| DroneBandwidthStat.UsedScenarios | tests/stat_tracker/resource/test_drone_bandwidth.py:61-130 | Used is 0 with no users and 55.5555555555 for a single user, unrounded. It is 80 for 50 and 30; 20 for 50 and -30; 50 for an online 50 and an offline 30; and 80 for a drone and an implant, whatever their class |
| DroneBandwidthStat.ComputeUsed | tests/stat_tracker/resource/test_drone_bandwidth.py:61-83 | The summing loop over the tracked holders returns `TotalUsage` |
| DroneBandwidthStat.StatTracker.constructor | tests/stat_tracker/resource/test_drone_bandwidth.py:44-48 | A new tracker has no ship, no tracked holder and no cached value |
| DroneBandwidthStat.StatTracker.SetShip | tests/stat_tracker/resource/test_drone_bandwidth.py:38-40 | The ship is replaced and the tracked holders and the cache are untouched |
| DroneBandwidthStat.StatTracker.TrackHolder | tests/stat_tracker/resource/test_drone_bandwidth.py:140-143 | The holder joins the tracked set and the ship and the cache are untouched |
| DroneBandwidthStat.StatTracker.UntrackHolder | tests/stat_tracker/resource/test_drone_bandwidth.py:150-154 | The holder leaves the tracked set and the ship and the cache are untouched |
| DroneBandwidthStat.StatTracker.ClearVolatileAttrs | tests/stat_tracker/resource/test_drone_bandwidth.py:170-174 | The cached value is dropped and nothing else changes |
| DroneBandwidthStat.StatTracker.DroneBandwidthUse | tests/stat_tracker/resource/test_drone_bandwidth.py:132-179 | A cached value is returned unchanged even when attributes have changed. Otherwise the result is the sum of the online usages and the ship's output, and that result is cached. The ship and the tracked holders are untouched |
| DroneBandwidthStat.VolatilityValues | tests/stat_tracker/resource/test_drone_bandwidth.py:156-174 | The cache-test fit computes to 80 used and 50 output before the attribute change, and to 40 and 60 after it |

## Left out

- The container's own source file (`eos/fit/holder/container`) is not part of this model. `HolderList` follows what the remove tests pin.
- Negative indices: `RemoveTarget.Index` carries a `nat`, so Python's counting from the end is not modelled. The tests never use it.
- HolderContainer.HolderList.Place: placing into an occupied slot returns `SlotTaken` and changes nothing. testRemove.py does not pin that case, and the real error type is not modelled.
- Holder identity: holders are values, so two holders are the same exactly when all their fields match. Python compares `Mock` holders by object identity. The abstract `id` field keeps distinct holders apart.
- The fit appears only as a log of `_addHolder`/`_removeHolder` calls for the container, and as the ship parameter of `Validate`. The fit's other duties, such as the calculation engine and the event dispatch to registers, are not modelled.
- RestrictionTracker.DroneGroupRegister.Validate: the allowed groups are kept as a set, so the order of the tuple the source builds (droneGroup.py:86) is not modelled. `RegisterValidationError` becomes the `Failed` result.
- Attribute values are modelled as exact `real`s, not IEEE floats. A group id is compared with an allowed value as the same number, as Python does for `100 == 100.0`.
- The attribute ids (1271, 1272, 1782, 1783) are the game's ids for these attributes. `eos/const/eve` is not part of this model.
- DroneBandwidthStat.Usage: a tracked holder that is online but has no calculated `droneBandwidthUsed` contributes 0. test_drone_bandwidth.py does not pin that case.
- DroneBandwidthStat.StatTracker.SetShip: tracking, untracking and setting the ship do not clear the cached value; in Eos the fit clears volatile attributes on those events. The event plumbing that does this is not modelled.
- Holder domains (space, character) and the stat tracker's registration filters are not modelled. The bandwidth tests show that domain and class do not change `used`.
- The attribute calculator, which produces modified values, is a parameter: the `Snapshot` of states and modified values at the moment of each read.
- The SQLite data handler, the modifier builder, the attribute-calculator tests, the logger and the exception classes are outside the modelled core.
