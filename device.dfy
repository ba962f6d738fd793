/** The observable battery whose changes drive the notifier. */
module PowerDevice {

  /** Charging state of the battery; Other covers full, empty and unknown. */
  datatype ChargeState = Charging | Discharging | Other

  /** A battery device: its charge percentage and charging state, both set from outside. */
  class Device {
    var percentage: real
    var state: ChargeState

    constructor(percentage: real, state: ChargeState)
      ensures this.percentage == percentage && this.state == state
    {
      this.percentage := percentage;
      this.state := state;
    }

    /** Sets the percentage property; the state is left as it was. */
    method SetPercentage(p: real)
      modifies this
      ensures percentage == p && state == old(state)
    {
      percentage := p;
    }

    /** Sets the state property; the percentage is left as it was. */
    method SetState(s: ChargeState)
      modifies this
      ensures state == s && percentage == old(percentage)
    {
      state := s;
    }
  }
}
