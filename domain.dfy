/**
 * The records exchanged with the launch-data API: a launch, a rocket and a
 * launch pad.  Names the upstream may leave out are optional.
 */
module Domain {
  import opened Wrappers

  /**
   * One launch.  The identifiers and the instant come from the launch
   * listing and are never reassigned, so they are constants here; the two
   * derived fields start absent and are set during enrichment.
   */
  class Launch {
    const rocketId: string
    const launchPadId: string
    /** The launch instant, in whole seconds since 1970-01-01T00:00:00Z. */
    const date: int
    var rocketType: Option<string>
    var launchPadName: Option<string>

    /** A launch as decoded from the listing: no derived field is set yet. */
    constructor (rocketId: string, launchPadId: string, date: int)
      ensures this.rocketId == rocketId && this.launchPadId == launchPadId && this.date == date
      ensures rocketType == None && launchPadName == None
    {
      this.rocketId := rocketId;
      this.launchPadId := launchPadId;
      this.date := date;
      rocketType := None;
      launchPadName := None;
    }
  }

  /** A rocket as returned by a lookup by id. */
  datatype Rocket = Rocket(rocketId: string, rocketName: Option<string>)

  /** A launch pad as returned by a lookup by id. */
  datatype LaunchPad = LaunchPad(launchPadId: string, launchPadName: Option<string>)
}
