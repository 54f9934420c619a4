/**
 * The three reads the service makes against the launch-data API, with the
 * remote side given as data: the launch listing, and for rockets and launch
 * pads a map from id to what a lookup of that id returns.  Every call is
 * appended to a log, so that which lookups a pipeline makes can be stated.
 */
module SpacexClient {
  import opened Domain

  /** Why a read failed. */
  datatype Cause = NotFound(id: string) | RemoteUnavailable | DecodeError

  /** What one read returns: the decoded record, or a failure. */
  datatype Fetch<+T> = Found(record: T) | Failed(cause: Cause)

  /** One call made on the client. */
  datatype Call = ListLaunches | RocketLookup(rocketId: string) | LaunchPadLookup(launchPadId: string)

  /** The result of looking up an id; an id the remote side does not know is not found. */
  function Lookup<T>(service: map<string, Fetch<T>>, id: string): Fetch<T>
  {
    if id in service then service[id] else Failed(NotFound(id))
  }

  class Client {
    /** What `/launches` returns. */
    const listing: Fetch<seq<Launch>>
    /** What `/rockets/{id}` returns, per id. */
    const rockets: map<string, Fetch<Rocket>>
    /** What `/launchpads/{id}` returns, per id. */
    const launchPads: map<string, Fetch<LaunchPad>>
    /** Every call made so far, oldest first. */
    var calls: seq<Call>

    constructor (listing: Fetch<seq<Launch>>, rockets: map<string, Fetch<Rocket>>,
                 launchPads: map<string, Fetch<LaunchPad>>)
      ensures this.listing == listing && this.rockets == rockets && this.launchPads == launchPads
      ensures calls == []
    {
      this.listing := listing;
      this.rockets := rockets;
      this.launchPads := launchPads;
      calls := [];
    }

    /** The launch objects the listing hands out (none when it fails). */
    function Launches(): seq<Launch> {
      if listing.Found? then listing.record else []
    }

    method GetAllLaunches() returns (r: Fetch<seq<Launch>>)
      modifies this
      ensures r == listing
      ensures calls == old(calls) + [ListLaunches]
    {
      r := listing;
      calls := calls + [ListLaunches];
    }

    method GetRocketById(rocketId: string) returns (r: Fetch<Rocket>)
      modifies this
      ensures r == Lookup(rockets, rocketId)
      ensures calls == old(calls) + [RocketLookup(rocketId)]
    {
      r := Lookup(rockets, rocketId);
      calls := calls + [RocketLookup(rocketId)];
    }

    method GetLaunchPadById(launchPadId: string) returns (r: Fetch<LaunchPad>)
      modifies this
      ensures r == Lookup(launchPads, launchPadId)
      ensures calls == old(calls) + [LaunchPadLookup(launchPadId)]
    {
      r := Lookup(launchPads, launchPadId);
      calls := calls + [LaunchPadLookup(launchPadId)];
    }
  }
}
