# Battery power-level notifier (indicator-power)

A Dafny model of the power-level notifier of `indicator-power`.

The notifier watches one battery device. Whenever the battery's charge percentage or charging state changes, it recomputes a published pair: a power level (ok, low, very-low or critical) and a warning flag. It then broadcasts only the properties of that pair whose value changed (`PowerLevel`, `IsWarning`). Subscribers accumulate those broadcasts.

The notifier's implementation files (`notifier.c`, `device.c`, `dbus-shared.h`) are not part of this model. The behaviour is taken from `tests/test-notify.cc`, which fixes it in detail:
- the thresholds;
- an inline reference classifier;
- a subscriber that accumulates the changed fields;
- a drain sweep;
- a sequence of plug and unplug events.

Modules:

- `Levels` (`levels.dfy`) has the four levels, their severity order, the thresholds 2, 5 and 10, and `Classify`. A percentage at a threshold gets the more severe level.
- `PowerDevice` (`device.dfy`) has the battery `Device` class: a percentage and a charging state, each set on its own.
- `Notify` (`notifier.dfy`) has:
  - the published pair `View` and the warning rule (discharging and not ok);
  - the broadcast payload `Changes`;
  - `Diff`, which flags each property separately;
  - `Apply`, what a subscriber sees after a broadcast;
  - the `Notifier` class, which holds the watched battery and the last published pair.

  `Notifier.Valid()` says that the published pair is the battery's pair, or ok/no warning while no battery is set.
- `PropertyMonitor` (`changed_params.dfy`) has the `ChangedParams` subscriber. It starts at ok / no warning / no fields, overwrites each property a broadcast carries, and adds that property to its field set.
- `NotifyTests` (`notify_tests.dfy`) has three scenarios as verified methods. `Sweep` specifies the broadcasts of a drain, and the lemmas about `Sweep` state where level and warning broadcasts happen.

A battery change reaches the notifier in two explicit calls:
1. `Device.SetPercentage` or `Device.SetState` changes the device.
2. `Notifier.OnDeviceChanged` is the property-notify handler that recomputes.

The two calls model the device's synchronous change notification.

## Model

| member | source | states |
|---|---|---|
| `Levels.Classify` | tests/test-notify.cc:118-125 | the severity of the level equals the number of thresholds (2, 5, 10) that the percentage is at or below |
| `Levels.ClassifyBands` | tests/test-notify.cc:94-96 | in both directions: critical iff p ≤ 2; very-low iff 2 < p ≤ 5; low iff 5 < p ≤ 10; ok iff p > 10 |
| `Levels.ClassifyMonotone` | tests/test-notify.cc:113-126 | a lower percentage never gives a less severe level |
| `Levels.UnitStep` | tests/test-notify.cc:211-219 | lowering an integer percentage by one changes the level exactly when the new value is a threshold, and then by exactly one step of severity |
| `Notify.ViewOf` | tests/test-notify.cc:271-308 | the published level is the classified one; the warning is on iff the battery is discharging at or below the low threshold |
| `Notify.Diff` | tests/test-notify.cc:221-229 | applying the broadcast to the old pair gives the new pair; each property is in the changed set iff its value differs |
| `Notify.DiffEmptyIff` | tests/test-notify.cc:221-224 | a recompute broadcasts nothing exactly when the pair is unchanged |
| `Notify.PercentageChange` | tests/test-notify.cc:211-229 | at a fixed state, the level is flagged iff it changes, and then carries the new level; the warning is flagged iff discharging and the low threshold is crossed |
| `Notify.StateChange` | tests/test-notify.cc:289-300 | at a fixed percentage, a state change never flags the level; the warning is flagged iff at or below low and discharging starts or stops |
| `Notify.DropIntoLowWhileDischarging` | tests/test-notify.cc:274-279 | from ok into the low band while discharging, both fields change: level low, warning on |
| `Notify.DropIntoVeryLowWhileWarning` | tests/test-notify.cc:282-286 | from low into very-low while discharging, only the level changes, to very-low |
| `Notify.PluggingInClearsWarning` | tests/test-notify.cc:289-293 | switching to charging at or below low changes only the warning, to off |
| `Notify.UnpluggingRaisesWarning` | tests/test-notify.cc:296-300 | switching back to discharging at or below low changes only the warning, to on |
| `Notify.RiseAboveLowWhileDischarging` | tests/test-notify.cc:303-308 | rising above low while discharging changes both fields in one broadcast: level ok, warning off |
| `Notify.GetPowerLevel` | tests/test-notify.cc:116 | the level read from a device has the severity given by its percentage's thresholds |
| `Notify.Notifier.constructor` | tests/test-notify.cc:192 | a new notifier has no battery and publishes ok / no warning |
| `Notify.Notifier.Recompute` | tests/test-notify.cc:216-218 | publishes the battery's pair and returns the field diff against the previous pair |
| `Notify.Notifier.SetBattery` | tests/test-notify.cc:192-193 | watches the device, publishes its pair at once and returns the diff from the previous pair |
| `Notify.Notifier.OnDeviceChanged` | tests/test-notify.cc:217-219 | a change of the watched battery republishes and returns the diff; a change of any other device is ignored and broadcasts nothing |
| `PowerDevice.Device.constructor` | tests/test-notify.cc:184-188 | a device starts with the given percentage and state |
| `PowerDevice.Device.SetPercentage` | tests/test-notify.cc:98-101 | sets the percentage, state unchanged |
| `PowerDevice.Device.SetState` | tests/test-notify.cc:290 | sets the charging state, percentage unchanged |
| `PropertyMonitor.ChangedParams.constructor` | tests/test-notify.cc:144-149 | a fresh subscriber holds ok / no warning / empty field set |
| `PropertyMonitor.ChangedParams.OnBatteryPropertyChanged` | tests/test-notify.cc:164-176 | each carried property overwrites the stored value and is added to the fields; others untouched |
| `NotifyTests.Sweep` | tests/test-notify.cc:211-219 | a drain from `top` down to 0 yields one broadcast per step |
| `NotifyTests.SweepAt` | tests/test-notify.cc:211-219 | step k of a drain is the diff from the pair at the previous percentage to the pair at `top - k` |
| `NotifyTests.DrainStep` | tests/test-notify.cc:221-229 | after the first step, the level is broadcast iff the new percentage is a threshold, carrying the new level; while discharging, the warning is broadcast only at the low threshold |
| `NotifyTests.LevelChangeCount` | tests/test-notify.cc:211-229 | a drain broadcasts the level once for each severity step between its start level and critical |
| `NotifyTests.DrainFromFull` | tests/test-notify.cc:182-230 | draining from 100 while discharging broadcasts the level exactly at 10, 5 and 2, with the new level, three times in all; the warning only at 10 |
| `NotifyTests.PercentageToLevel` | tests/test-notify.cc:104-129 | the levels read over the sweep from 100 to 0 match the thresholds and never decrease in severity |
| `NotifyTests.LevelsDuringBatteryDrain` | tests/test-notify.cc:182-230 | the broadcasts a real notifier makes while its battery drains are exactly `Sweep` from the default pair |
| `NotifyTests.Deliver` | tests/test-notify.cc:274-276 | a fresh subscriber records the notifier's diff for one battery change |
| `NotifyTests.EventSteps` | tests/test-notify.cc:271-308 | what a fresh subscriber receives at each event step, as pure facts |
| `NotifyTests.EventsThatChangeNotifications` | tests/test-notify.cc:242-314 | the subscriber sees: setup ok/none; {level, warning} low/on; {level} very-low; {warning} off; {warning} on; {level, warning} ok/off |

## Left out

- Desktop notification dispatch, with its QUIET/ARMED gate, is not modelled. The tests never observe a notification call, and libnotify init and uninit are I/O.
- D-Bus is not modelled: the bus connection, signal subscription, the GVariant payload checks, and the wire strings of `POWER_LEVEL_STR_*`. The model keeps the abstract set of changed fields. The `FIELD_*` bitmask becomes a `set<Field>`.
- `indicator_power_notifier_set_bus` and `wait_msec` are not modelled: they are bus I/O and timing.
- These `Device` properties are not modelled: the device kind (non-battery devices), the object path and the time estimate. The notifier is modelled for one battery only.
- Clamping of percentages outside 0 to 100 is not modelled: the source shows no clamping, and `Classify` is total over all reals.
- `Notify.Notifier.Valid` is not kept when a device is changed directly. It holds again once `OnDeviceChanged` runs for the watched device. Nothing models the observer subscription that makes that call automatic.
- `Notify.Notifier.Recompute` requires a battery to be set. It is only ever invoked for the watched battery, through `SetBattery` and `OnDeviceChanged`.
- The test fixtures, the Python mock notification daemon and the sound-file lookup in `src/datafiles.h` are not modelled. They are I/O plumbing with no notifier logic.
