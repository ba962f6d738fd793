/**
 * The notifier: it watches one battery, recomputes the published
 * (power level, warning) pair on every battery change, and reports the
 * properties whose published value changed.
 */
module Notify {
  import opened Levels
  import opened PowerDevice

  datatype Option<T> = None | Some(value: T)

  /** Names of the published properties ("PowerLevel" and "IsWarning"). */
  datatype Field = PowerLevel | IsWarning

  /** The published pair of property values. */
  datatype View = View(level: Level, warning: bool)

  /** What is published before any battery is known. */
  const DefaultView: View := View(Ok, false)

  /**
   * Payload of one property-change broadcast: a new value for each property
   * that changed, and nothing for a property that did not.
   */
  datatype Changes = Changes(powerLevel: Option<Level>, isWarning: Option<bool>)

  const NoChanges: Changes := Changes(None, None)

  /** The properties a broadcast carries. */
  function ChangedFields(c: Changes): set<Field> {
    (if c.powerLevel.Some? then {PowerLevel} else {})
    + (if c.isWarning.Some? then {IsWarning} else {})
  }

  /** The warning rule: on while discharging at a level of Low or worse. */
  predicate Warning(level: Level, state: ChargeState) {
    state == Discharging && level != Ok
  }

  /** The pair the notifier publishes for a battery's percentage and state. */
  function ViewOf(percentage: real, state: ChargeState): (v: View)
    ensures Severity(v.level) == ThresholdsReached(percentage)
    ensures v.warning <==> state == Discharging && percentage <= PercentLow
  {
    var level := Classify(percentage);
    View(level, Warning(level, state))
  }

  /** What a subscriber that last saw `v` sees after receiving broadcast `c`. */
  function Apply(v: View, c: Changes): View {
    View(if c.powerLevel.Some? then c.powerLevel.value else v.level,
         if c.isWarning.Some? then c.isWarning.value else v.warning)
  }

  /**
   * The broadcast that takes the published pair from `before` to `after`:
   * each property is flagged on its own, and only when its value differs.
   */
  function Diff(before: View, after: View): (c: Changes)
    ensures Apply(before, c) == after
    ensures PowerLevel in ChangedFields(c) <==> before.level != after.level
    ensures IsWarning in ChangedFields(c) <==> before.warning != after.warning
  {
    Changes(if before.level != after.level then Some(after.level) else None,
            if before.warning != after.warning then Some(after.warning) else None)
  }

  /** A recompute that changes nothing broadcasts nothing, and only then. */
  lemma DiffEmptyIff(before: View, after: View)
    ensures Diff(before, after) == NoChanges <==> before == after
    ensures ChangedFields(Diff(before, after)) == {} <==> before == after
  {
  }

  /**
   * A percentage change at a fixed charging state: the level is flagged exactly
   * when it differs and then carries the new level; the warning is flagged only
   * while discharging, when the low threshold is crossed in either direction.
   */
  lemma PercentageChange(p0: real, p1: real, s: ChargeState)
    ensures var c := Diff(ViewOf(p0, s), ViewOf(p1, s));
      && (PowerLevel in ChangedFields(c) <==> Classify(p0) != Classify(p1))
      && (c.powerLevel.Some? ==> c.powerLevel.value == Classify(p1))
      && (IsWarning in ChangedFields(c) <==> s == Discharging && (p0 <= PercentLow) != (p1 <= PercentLow))
      && (c.isWarning.Some? ==> c.isWarning.value == (p1 <= PercentLow))
  {
  }

  /**
   * A charging-state change at a fixed percentage never flags the level; the
   * warning is flagged exactly when the battery is at or below the low
   * threshold and starts or stops discharging.
   */
  lemma StateChange(p: real, s0: ChargeState, s1: ChargeState)
    ensures var c := Diff(ViewOf(p, s0), ViewOf(p, s1));
      && PowerLevel !in ChangedFields(c)
      && (IsWarning in ChangedFields(c) <==> p <= PercentLow && (s0 == Discharging) != (s1 == Discharging))
      && (c.isWarning.Some? ==> c.isWarning.value == (s1 == Discharging))
  {
  }

  /** Discharging from above the low threshold into the Low band flags both properties. */
  lemma DropIntoLowWhileDischarging(p0: real, p1: real)
    requires PercentLow < p0 && PercentVeryLow < p1 <= PercentLow
    ensures Diff(ViewOf(p0, Discharging), ViewOf(p1, Discharging)) == Changes(Some(Low), Some(true))
  {
  }

  /** Discharging from Low into VeryLow flags only the level; the warning stays on. */
  lemma DropIntoVeryLowWhileWarning(p0: real, p1: real)
    requires PercentVeryLow < p0 <= PercentLow && PercentCritical < p1 <= PercentVeryLow
    ensures ViewOf(p0, Discharging).warning
    ensures Diff(ViewOf(p0, Discharging), ViewOf(p1, Discharging)) == Changes(Some(VeryLow), None)
  {
  }

  /** Plugging in at or below the low threshold clears the warning and flags nothing else. */
  lemma PluggingInClearsWarning(p: real, s: ChargeState)
    requires p <= PercentLow && s != Discharging
    ensures Diff(ViewOf(p, Discharging), ViewOf(p, s)) == Changes(None, Some(false))
  {
  }

  /** Unplugging at or below the low threshold raises the warning and flags nothing else. */
  lemma UnpluggingRaisesWarning(p: real, s: ChargeState)
    requires p <= PercentLow && s != Discharging
    ensures Diff(ViewOf(p, s), ViewOf(p, Discharging)) == Changes(None, Some(true))
  {
  }

  /** Discharging back above the low threshold flags both: level Ok and warning off. */
  lemma RiseAboveLowWhileDischarging(p0: real, p1: real)
    requires p0 <= PercentLow < p1
    ensures Diff(ViewOf(p0, Discharging), ViewOf(p1, Discharging)) == Changes(Some(Ok), Some(false))
  {
  }

  /** The power level of a battery, as read from the device itself. */
  function GetPowerLevel(d: Device): (r: Level)
    reads d
    ensures Severity(r) == ThresholdsReached(d.percentage)
  {
    Classify(d.percentage)
  }

  /** The notifier: the battery it watches and the pair it last published. */
  class Notifier {
    var battery: Device?
    var powerLevel: Level
    var isWarning: bool

    function Published(): View
      reads this
    {
      View(powerLevel, isWarning)
    }

    /** The published pair is the battery's, or the default while no battery is set. */
    ghost predicate Valid()
      reads this, battery
    {
      Published() == if battery == null then DefaultView else ViewOf(battery.percentage, battery.state)
    }

    constructor()
      ensures Valid() && battery == null && Published() == DefaultView
    {
      battery := null;
      powerLevel := Ok;
      isWarning := false;
    }

    /** Recomputes the pair from the battery, publishes it, and returns what changed. */
    method Recompute() returns (c: Changes)
      requires battery != null
      modifies this
      ensures battery == old(battery) && Valid()
      ensures c == Diff(old(Published()), Published())
    {
      var next := ViewOf(battery.percentage, battery.state);
      c := Diff(Published(), next);
      powerLevel, isWarning := next.level, next.warning;
    }

    /** Starts watching `d` and publishes its pair at once. */
    method SetBattery(d: Device) returns (c: Changes)
      modifies this
      ensures battery == d && Valid()
      ensures Published() == ViewOf(d.percentage, d.state)
      ensures c == Diff(old(Published()), Published())
    {
      battery := d;
      c := Recompute();
    }

    /**
     * Handler for a property change on device `d`: the watched battery is
     * recomputed; a change on any other device is ignored.
     */
    method OnDeviceChanged(d: Device) returns (c: Changes)
      modifies this
      ensures battery == old(battery)
      ensures battery == d ==> Valid() && c == Diff(old(Published()), Published())
      ensures battery != d ==> c == NoChanges && Published() == old(Published())
      ensures battery != d ==> (old(Valid()) ==> Valid())
    {
      if battery == d {
        c := Recompute();
      } else {
        c := NoChanges;
      }
    }
  }
}
