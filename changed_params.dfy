/**
 * The subscriber the tests attach to the battery's property-change signal:
 * it remembers the last value received for each property and accumulates
 * the set of properties that were broadcast.
 */
module PropertyMonitor {
  import opened Levels
  import opened Notify

  /** A snapshot of the subscriber: fields seen so far and last values. */
  datatype Observation = Observation(fields: set<Field>, powerLevel: Level, isWarning: bool)

  class ChangedParams {
    var powerLevel: Level
    var isWarning: bool
    var fields: set<Field>

    /** Starts at level Ok, no warning, and no field seen. */
    constructor()
      ensures powerLevel == Ok && !isWarning && fields == {}
    {
      powerLevel := Ok;
      isWarning := false;
      fields := {};
    }

    function Observe(): Observation
      reads this
    {
      Observation(fields, powerLevel, isWarning)
    }

    /**
     * Receives one broadcast: each property it carries overwrites the stored
     * value and is added to the seen fields; the others are left alone.
     */
    method OnBatteryPropertyChanged(c: Changes)
      modifies this
      ensures View(powerLevel, isWarning) == Apply(old(View(powerLevel, isWarning)), c)
      ensures fields == old(fields) + ChangedFields(c)
    {
      if c.powerLevel.Some? {
        powerLevel := c.powerLevel.value;
        fields := fields + {PowerLevel};
      }
      if c.isWarning.Some? {
        isWarning := c.isWarning.value;
        fields := fields + {IsWarning};
      }
    }
  }
}
