/**
 * The two request pipelines of the task service.  Each lists the launches,
 * enriches every launch in place with names obtained by id lookups
 * (substituting a fixed sentinel where the upstream gives no name), and
 * then counts the enriched launches by rocket name and a second key: the
 * UTC calendar year of the launch, or the launch pad's name.
 *
 * Each pipeline is a method of TaskService, proved against a function of
 * the client's data (LaunchesByYear, LaunchesBySite); the lemmas below
 * state what those functions promise.
 */
module Service {
  import opened Wrappers
  import opened Domain
  import opened SpacexClient
  import opened Grouping
  import Calendar

  const RocketNameNa: string := "ROCKET_NAME_NA"
  const LaunchPadNameNa: string := "LAUNCHPAD_NAME_NA"

  /** The name a rocket lookup contributes: its name, or the sentinel when that is absent. */
  function RocketTypeOf(rocket: Rocket): string {
    if rocket.rocketName.None? then RocketNameNa else rocket.rocketName.value
  }

  /** The name a launch-pad lookup contributes: its name, or the sentinel when that is absent. */
  function LaunchPadNameOf(pad: LaunchPad): string {
    if pad.launchPadName.None? then LaunchPadNameNa else pad.launchPadName.value
  }

  // ----- The by-year view, as a function of the client's data -----

  /** The rocket lookup of a launch succeeds. */
  predicate RocketResolves(rockets: map<string, Fetch<Rocket>>, l: Launch) {
    Lookup(rockets, l.rocketId).Found?
  }

  /** The grouping keys of one enriched launch in the by-year view. */
  function YearKeyOf(rockets: map<string, Fetch<Rocket>>, l: Launch): (string, int)
    requires RocketResolves(rockets, l)
  {
    (RocketTypeOf(Lookup(rockets, l.rocketId).record), Calendar.UtcYear(l.date))
  }

  /** The by-year keys of the launches in listing order, or the cause of the first failed lookup. */
  function YearKeys(rockets: map<string, Fetch<Rocket>>, ls: seq<Launch>): Result<seq<(string, int)>, Cause>
  {
    if ls == [] then Success([])
    else if !RocketResolves(rockets, ls[0]) then Failure(Lookup(rockets, ls[0].rocketId).cause)
    else match YearKeys(rockets, ls[1..])
      case Failure(c) => Failure(c)
      case Success(ks) => Success([YearKeyOf(rockets, ls[0])] + ks)
  }

  /** What getRocketsLaunchedByYear delivers: rocket name to UTC year to launch count, or a failure. */
  function LaunchesByYear(rockets: map<string, Fetch<Rocket>>, listing: Fetch<seq<Launch>>)
    : Result<map<string, map<int, nat>>, Cause>
  {
    match listing
    case Failed(c) => Failure(c)
    case Found(ls) =>
      match YearKeys(rockets, ls)
      case Failure(c) => Failure(c)
      case Success(ks) => Success(GroupCount(ks))
  }

  /** The positions of the launches whose by-year keys are (name, year). */
  function LaunchesWithYearKey(rockets: map<string, Fetch<Rocket>>, ls: seq<Launch>, name: string, year: int): set<nat>
    requires forall i :: 0 <= i < |ls| ==> RocketResolves(rockets, ls[i])
  {
    set i: nat | i < |ls| && YearKeyOf(rockets, ls[i]) == (name, year)
  }

  /** The lookups the by-year view makes on success: one rocket lookup per launch, in order. */
  function RocketLookups(ls: seq<Launch>): seq<Call> {
    if ls == [] then [] else RocketLookups(ls[..|ls| - 1]) + [RocketLookup(ls[|ls| - 1].rocketId)]
  }

  // ----- The by-site view, as a function of the client's data -----

  /** Both lookups of a launch succeed. */
  predicate SiteResolves(rockets: map<string, Fetch<Rocket>>, pads: map<string, Fetch<LaunchPad>>, l: Launch) {
    Lookup(pads, l.launchPadId).Found? && Lookup(rockets, l.rocketId).Found?
  }

  /** The first failure among the two lookups of a launch: the pad's is reported first. */
  function SiteFailure(rockets: map<string, Fetch<Rocket>>, pads: map<string, Fetch<LaunchPad>>, l: Launch): Cause
    requires !SiteResolves(rockets, pads, l)
  {
    if Lookup(pads, l.launchPadId).Failed? then Lookup(pads, l.launchPadId).cause
    else Lookup(rockets, l.rocketId).cause
  }

  /** The grouping keys of one enriched launch in the by-site view. */
  function SiteKeyOf(rockets: map<string, Fetch<Rocket>>, pads: map<string, Fetch<LaunchPad>>, l: Launch): (string, string)
    requires SiteResolves(rockets, pads, l)
  {
    (RocketTypeOf(Lookup(rockets, l.rocketId).record), LaunchPadNameOf(Lookup(pads, l.launchPadId).record))
  }

  /** The by-site keys of the launches in listing order, or the first failure. */
  function SiteKeys(rockets: map<string, Fetch<Rocket>>, pads: map<string, Fetch<LaunchPad>>, ls: seq<Launch>)
    : Result<seq<(string, string)>, Cause>
  {
    if ls == [] then Success([])
    else if !SiteResolves(rockets, pads, ls[0]) then Failure(SiteFailure(rockets, pads, ls[0]))
    else match SiteKeys(rockets, pads, ls[1..])
      case Failure(c) => Failure(c)
      case Success(ks) => Success([SiteKeyOf(rockets, pads, ls[0])] + ks)
  }

  /** What getLaunchesPerSite delivers: rocket name to pad name to launch count, or a failure. */
  function LaunchesBySite(rockets: map<string, Fetch<Rocket>>, pads: map<string, Fetch<LaunchPad>>,
                          listing: Fetch<seq<Launch>>): Result<map<string, map<string, nat>>, Cause>
  {
    match listing
    case Failed(c) => Failure(c)
    case Found(ls) =>
      match SiteKeys(rockets, pads, ls)
      case Failure(c) => Failure(c)
      case Success(ks) => Success(GroupCount(ks))
  }

  /** The positions of the launches whose by-site keys are (name, site). */
  function LaunchesWithSiteKey(rockets: map<string, Fetch<Rocket>>, pads: map<string, Fetch<LaunchPad>>,
                               ls: seq<Launch>, name: string, site: string): set<nat>
    requires forall i :: 0 <= i < |ls| ==> SiteResolves(rockets, pads, ls[i])
  {
    set i: nat | i < |ls| && SiteKeyOf(rockets, pads, ls[i]) == (name, site)
  }

  /** The lookups the by-site view makes on success: a pad and a rocket lookup per launch, in order. */
  function SiteLookups(ls: seq<Launch>): seq<Call> {
    if ls == [] then []
    else SiteLookups(ls[..|ls| - 1]) + [LaunchPadLookup(ls[|ls| - 1].launchPadId), RocketLookup(ls[|ls| - 1].rocketId)]
  }

  // ----- The grouping keys read back from enriched launch objects -----

  /** (rocketType, UTC year) of each launch, as the grouping reads them. */
  function EnrichedYearKeys(ls: seq<Launch>): seq<(string, int)>
    reads set l | l in ls
    requires forall l :: l in ls ==> l.rocketType.Some?
  {
    if ls == [] then [] else [(ls[0].rocketType.value, Calendar.UtcYear(ls[0].date))] + EnrichedYearKeys(ls[1..])
  }

  /** (rocketType, launchPadName) of each launch, as the grouping reads them. */
  function EnrichedSiteKeys(ls: seq<Launch>): seq<(string, string)>
    reads set l | l in ls
    requires forall l :: l in ls ==> l.rocketType.Some? && l.launchPadName.Some?
  {
    if ls == [] then [] else [(ls[0].rocketType.value, ls[0].launchPadName.value)] + EnrichedSiteKeys(ls[1..])
  }

  /** Launches enriched by the by-year rule carry exactly the keys of YearKeys. */
  lemma {:induction false} EnrichedYearKeysMatch(rockets: map<string, Fetch<Rocket>>, ls: seq<Launch>)
    requires forall l :: l in ls ==>
      RocketResolves(rockets, l) && l.rocketType == Some(RocketTypeOf(Lookup(rockets, l.rocketId).record))
    ensures YearKeys(rockets, ls) == Success(EnrichedYearKeys(ls))
  {
    if ls != [] {
      EnrichedYearKeysMatch(rockets, ls[1..]);
    }
  }

  /** Launches enriched by the by-site rule carry exactly the keys of SiteKeys. */
  lemma {:induction false} EnrichedSiteKeysMatch(rockets: map<string, Fetch<Rocket>>,
                                                 pads: map<string, Fetch<LaunchPad>>, ls: seq<Launch>)
    requires forall l :: l in ls ==>
      SiteResolves(rockets, pads, l)
      && l.rocketType == Some(RocketTypeOf(Lookup(rockets, l.rocketId).record))
      && l.launchPadName == Some(LaunchPadNameOf(Lookup(pads, l.launchPadId).record))
    ensures SiteKeys(rockets, pads, ls) == Success(EnrichedSiteKeys(ls))
  {
    if ls != [] {
      EnrichedSiteKeysMatch(rockets, pads, ls[1..]);
    }
  }

  // ----- The request pipelines -----

  class TaskService {
    const client: Client

    constructor (client: Client)
      ensures this.client == client
    {
      this.client := client;
    }

    /**
     * The by-year enrichment of one launch: look up its rocket and, when
     * that succeeds, set rocketType from it.  A failed lookup leaves the
     * launch as it was and is reported.
     */
    method EnrichRocketType(launch: Launch) returns (failure: Option<Cause>)
      modifies client, launch
      ensures failure.None? <==> RocketResolves(client.rockets, launch)
      ensures failure.Some? ==> failure.value == Lookup(client.rockets, launch.rocketId).cause
      ensures launch.rocketType == if failure.None?
        then Some(RocketTypeOf(Lookup(client.rockets, launch.rocketId).record))
        else old(launch.rocketType)
      ensures launch.launchPadName == old(launch.launchPadName)
      ensures client.calls == old(client.calls) + [RocketLookup(launch.rocketId)]
    {
      var rocket := client.GetRocketById(launch.rocketId);
      if rocket.Failed? {
        return Some(rocket.cause);
      }
      launch.rocketType := Some(if rocket.record.rocketName.None? then RocketNameNa else rocket.record.rocketName.value);
      return None;
    }

    /**
     * The by-site enrichment of one launch: look up its pad and its rocket
     * (both lookups are made), and when both succeed set launchPadName and
     * rocketType.  Otherwise the launch is left as it was and the pad's
     * failure, if any, is reported ahead of the rocket's.
     */
    method EnrichSite(launch: Launch) returns (failure: Option<Cause>)
      modifies client, launch
      ensures failure.None? <==> SiteResolves(client.rockets, client.launchPads, launch)
      ensures failure.Some? ==> failure.value == SiteFailure(client.rockets, client.launchPads, launch)
      ensures launch.launchPadName == if failure.None?
        then Some(LaunchPadNameOf(Lookup(client.launchPads, launch.launchPadId).record))
        else old(launch.launchPadName)
      ensures launch.rocketType == if failure.None?
        then Some(RocketTypeOf(Lookup(client.rockets, launch.rocketId).record))
        else old(launch.rocketType)
      ensures client.calls == old(client.calls) + [LaunchPadLookup(launch.launchPadId), RocketLookup(launch.rocketId)]
    {
      var pad := client.GetLaunchPadById(launch.launchPadId);
      var rocket := client.GetRocketById(launch.rocketId);
      if pad.Failed? {
        return Some(pad.cause);
      }
      if rocket.Failed? {
        return Some(rocket.cause);
      }
      launch.launchPadName := Some(if pad.record.launchPadName.None? then LaunchPadNameNa else pad.record.launchPadName.value);
      launch.rocketType := Some(if rocket.record.rocketName.None? then RocketNameNa else rocket.record.rocketName.value);
      return None;
    }

    /**
     * getRocketsLaunchedByYear: list the launches, set each launch's
     * rocketType from its rocket lookup, then count by rocket name and
     * UTC year.  Only rocketType is written; no pad is looked up.
     */
    method GetRocketsLaunchedByYear() returns (r: Result<map<string, map<int, nat>>, Cause>)
      modifies client, set l | l in client.Launches()
      ensures r == LaunchesByYear(client.rockets, client.listing)
      ensures r.Success? ==> forall l :: l in client.Launches() ==>
        RocketResolves(client.rockets, l)
        && l.rocketType == Some(RocketTypeOf(Lookup(client.rockets, l.rocketId).record))
      ensures forall l :: l in client.Launches() ==> l.launchPadName == old(l.launchPadName)
      ensures r.Success? ==> client.calls == old(client.calls) + [ListLaunches] + RocketLookups(client.Launches())
      ensures old(client.calls) <= client.calls
      ensures forall k :: |old(client.calls)| <= k < |client.calls| ==> !client.calls[k].LaunchPadLookup?
    {
      var listing := client.GetAllLaunches();
      if listing.Failed? {
        return Failure(listing.cause);
      }
      var ls := listing.record;
      var i := 0;
      while i < |ls|
        invariant 0 <= i <= |ls|
        invariant forall j :: 0 <= j < i ==>
          RocketResolves(client.rockets, ls[j])
          && ls[j].rocketType == Some(RocketTypeOf(Lookup(client.rockets, ls[j].rocketId).record))
        invariant forall l :: l in ls ==> l.launchPadName == old(l.launchPadName)
        invariant client.calls == old(client.calls) + [ListLaunches] + RocketLookups(ls[..i])
        invariant old(client.calls) <= client.calls
        invariant forall k :: |old(client.calls)| <= k < |client.calls| ==> !client.calls[k].LaunchPadLookup?
      {
        var failure := EnrichRocketType(ls[i]);
        if failure.Some? {
          YearKeysFirstFailure(client.rockets, ls, i);
          return Failure(failure.value);
        }
        assert ls[..i + 1][..i] == ls[..i];
        i := i + 1;
      }
      assert ls[..i] == ls;
      EnrichedYearKeysMatch(client.rockets, ls);
      r := Success(GroupCount(EnrichedYearKeys(ls)));
    }

    /**
     * getLaunchesPerSite: list the launches, look up each launch's pad and
     * rocket, set launchPadName and rocketType, then count by rocket name
     * and pad name.
     */
    method GetLaunchesPerSite() returns (r: Result<map<string, map<string, nat>>, Cause>)
      modifies client, set l | l in client.Launches()
      ensures r == LaunchesBySite(client.rockets, client.launchPads, client.listing)
      ensures r.Success? ==> forall l :: l in client.Launches() ==>
        SiteResolves(client.rockets, client.launchPads, l)
        && l.rocketType == Some(RocketTypeOf(Lookup(client.rockets, l.rocketId).record))
        && l.launchPadName == Some(LaunchPadNameOf(Lookup(client.launchPads, l.launchPadId).record))
      ensures r.Success? ==> client.calls == old(client.calls) + [ListLaunches] + SiteLookups(client.Launches())
      ensures old(client.calls) <= client.calls
    {
      var listing := client.GetAllLaunches();
      if listing.Failed? {
        return Failure(listing.cause);
      }
      var ls := listing.record;
      var i := 0;
      while i < |ls|
        invariant 0 <= i <= |ls|
        invariant forall j :: 0 <= j < i ==>
          SiteResolves(client.rockets, client.launchPads, ls[j])
          && ls[j].rocketType == Some(RocketTypeOf(Lookup(client.rockets, ls[j].rocketId).record))
          && ls[j].launchPadName == Some(LaunchPadNameOf(Lookup(client.launchPads, ls[j].launchPadId).record))
        invariant client.calls == old(client.calls) + [ListLaunches] + SiteLookups(ls[..i])
        invariant old(client.calls) <= client.calls
      {
        var failure := EnrichSite(ls[i]);
        if failure.Some? {
          SiteKeysFirstFailure(client.rockets, client.launchPads, ls, i);
          return Failure(failure.value);
        }
        assert ls[..i + 1][..i] == ls[..i];
        i := i + 1;
      }
      assert ls[..i] == ls;
      EnrichedSiteKeysMatch(client.rockets, client.launchPads, ls);
      r := Success(GroupCount(EnrichedSiteKeys(ls)));
    }
  }

  // ----- What the by-year view promises -----

  /** A failed rocket lookup after a run of successful ones decides the outcome. */
  lemma {:induction false} YearKeysFirstFailure(rockets: map<string, Fetch<Rocket>>, ls: seq<Launch>, i: nat)
    requires i < |ls|
    requires forall j :: 0 <= j < i ==> RocketResolves(rockets, ls[j])
    requires !RocketResolves(rockets, ls[i])
    ensures YearKeys(rockets, ls) == Failure(Lookup(rockets, ls[i].rocketId).cause)
  {
    if i > 0 {
      assert RocketResolves(rockets, ls[0]);
      YearKeysFirstFailure(rockets, ls[1..], i - 1);
    }
  }

  /** YearKeys succeeds exactly when every rocket lookup does, and then gives each launch's keys in order. */
  lemma {:induction false} YearKeysSucceed(rockets: map<string, Fetch<Rocket>>, ls: seq<Launch>)
    ensures YearKeys(rockets, ls).Success? <==> forall i :: 0 <= i < |ls| ==> RocketResolves(rockets, ls[i])
    ensures YearKeys(rockets, ls).Success? ==>
      var ks := YearKeys(rockets, ls).value;
      |ks| == |ls| && forall i :: 0 <= i < |ls| ==> ks[i] == YearKeyOf(rockets, ls[i])
  {
    if ls != [] {
      YearKeysSucceed(rockets, ls[1..]);
      if RocketResolves(rockets, ls[0]) && YearKeys(rockets, ls[1..]).Success? {
        var ks := YearKeys(rockets, ls).value;
        forall i | 0 <= i < |ls| ensures ks[i] == YearKeyOf(rockets, ls[i]) {
          if i > 0 {
            assert ls[1..][i - 1] == ls[i];
          }
        }
      } else if !RocketResolves(rockets, ls[0]) {
      } else {
        var i :| 0 <= i < |ls[1..]| && !RocketResolves(rockets, ls[1..][i]);
        assert !RocketResolves(rockets, ls[i + 1]);
      }
    }
  }

  /** Listing one more launch in front puts its keys in front of the others'. */
  lemma YearKeysCons(rockets: map<string, Fetch<Rocket>>, l: Launch, ls: seq<Launch>)
    requires RocketResolves(rockets, l) && YearKeys(rockets, ls).Success?
    ensures YearKeys(rockets, [l] + ls) == Success([YearKeyOf(rockets, l)] + YearKeys(rockets, ls).value)
  {
    assert ([l] + ls)[1..] == ls;
  }

  /**
   * All or nothing: the by-year result is produced exactly when the listing
   * and every rocket lookup succeed.
   */
  lemma ByYearSucceedsIff(rockets: map<string, Fetch<Rocket>>, listing: Fetch<seq<Launch>>)
    ensures LaunchesByYear(rockets, listing).Success? <==>
      listing.Found? && forall i :: 0 <= i < |listing.record| ==> RocketResolves(rockets, listing.record[i])
  {
    if listing.Found? {
      YearKeysSucceed(rockets, listing.record);
    }
  }

  /**
   * A failed by-year request reports one cause: the listing's, or that of
   * the first launch, in listing order, whose rocket lookup failed.
   */
  lemma ByYearFailureCause(rockets: map<string, Fetch<Rocket>>, listing: Fetch<seq<Launch>>)
    requires LaunchesByYear(rockets, listing).Failure?
    ensures listing.Failed? ==> LaunchesByYear(rockets, listing).error == listing.cause
    ensures listing.Found? ==>
      exists i ::
        && 0 <= i < |listing.record|
        && (forall j :: 0 <= j < i ==> RocketResolves(rockets, listing.record[j]))
        && !RocketResolves(rockets, listing.record[i])
        && LaunchesByYear(rockets, listing).error == Lookup(rockets, listing.record[i].rocketId).cause
  {
    if listing.Found? {
      var ls := listing.record;
      YearKeysSucceed(rockets, ls);
      var i := FirstFailing(ls, l => RocketResolves(rockets, l));
      YearKeysFirstFailure(rockets, ls, i);
    }
  }

  /** A sequence with an element failing ok has a first such element; all before it pass. */
  lemma {:induction false} FirstFailing<T>(s: seq<T>, ok: T -> bool) returns (i: nat)
    requires exists k :: 0 <= k < |s| && !ok(s[k])
    ensures i < |s| && !ok(s[i])
    ensures forall j :: 0 <= j < i ==> ok(s[j])
  {
    if !ok(s[0]) {
      i := 0;
    } else {
      var k :| 0 <= k < |s| && !ok(s[k]);
      assert !ok(s[1..][k - 1]);
      var i' := FirstFailing(s[1..], ok);
      i := i' + 1;
      forall j | 0 <= j < i ensures ok(s[j]) {
        if j > 0 { assert s[j] == s[1..][j - 1]; }
      }
    }
  }

  /**
   * Counts are exact: (name, year) has an entry exactly when some launch
   * is enriched with that rocket name and launched in that UTC year, and
   * the entry is the number of such launches.
   */
  lemma ByYearExact(rockets: map<string, Fetch<Rocket>>, ls: seq<Launch>, name: string, year: int)
    requires forall i :: 0 <= i < |ls| ==> RocketResolves(rockets, ls[i])
    ensures LaunchesByYear(rockets, Found(ls)).Success?
    ensures var m := LaunchesByYear(rockets, Found(ls)).value;
      var n := |LaunchesWithYearKey(rockets, ls, name, year)|;
      (name in m && year in m[name] <==> n > 0) && (name in m && year in m[name] ==> m[name][year] == n)
  {
    YearKeysSucceed(rockets, ls);
    var ks := YearKeys(rockets, ls).value;
    GroupCountExact(ks, name, year);
    MultiplicityIsPositionCount(ks, (name, year));
    YearKeyPositions(rockets, ls, ks, name, year);
    assert LaunchesByYear(rockets, Found(ls)) == Success(GroupCount(ks));
  }

  /** The positions holding (name, year) in the key sequence are the launches keyed so. */
  lemma YearKeyPositions(rockets: map<string, Fetch<Rocket>>, ls: seq<Launch>, ks: seq<(string, int)>,
                         name: string, year: int)
    requires forall i :: 0 <= i < |ls| ==> RocketResolves(rockets, ls[i])
    requires |ks| == |ls| && forall i :: 0 <= i < |ls| ==> ks[i] == YearKeyOf(rockets, ls[i])
    ensures Positions(ks, (name, year)) == LaunchesWithYearKey(rockets, ls, name, year)
  {
    var byPosition, byLaunch := Positions(ks, (name, year)), LaunchesWithYearKey(rockets, ls, name, year);
    forall i: nat | i < |ls| ensures i in byPosition <==> i in byLaunch {
      assert ks[i] == YearKeyOf(rockets, ls[i]);
    }
  }

  /**
   * The outer keys are the enriched rocket names, not rocket ids: a name is
   * present exactly when some launch is enriched with it.
   */
  lemma ByYearOuterKeys(rockets: map<string, Fetch<Rocket>>, ls: seq<Launch>, name: string)
    requires forall i :: 0 <= i < |ls| ==> RocketResolves(rockets, ls[i])
    ensures LaunchesByYear(rockets, Found(ls)).Success?
    ensures name in LaunchesByYear(rockets, Found(ls)).value <==>
      exists i :: 0 <= i < |ls| && YearKeyOf(rockets, ls[i]).0 == name
  {
    YearKeysSucceed(rockets, ls);
    var ks := YearKeys(rockets, ls).value;
    GroupCountOuterKeys(ks, name);
    if exists i :: 0 <= i < |ls| && YearKeyOf(rockets, ls[i]).0 == name {
      var i :| 0 <= i < |ls| && YearKeyOf(rockets, ls[i]).0 == name;
      assert ks[i].0 == name;
    }
  }

  /** Every listed launch is counted once: the leaf counts add up to the number of launches. */
  lemma ByYearTotal(rockets: map<string, Fetch<Rocket>>, ls: seq<Launch>)
    requires forall i :: 0 <= i < |ls| ==> RocketResolves(rockets, ls[i])
    ensures LaunchesByYear(rockets, Found(ls)).Success?
    ensures Total(LaunchesByYear(rockets, Found(ls)).value) == |ls|
  {
    YearKeysSucceed(rockets, ls);
    GroupCountTotal(YearKeys(rockets, ls).value);
  }

  /**
   * The enriched launches may be collected in any order: every arrangement
   * of the listed launches groups to the same counts.
   */
  lemma ByYearArrivalOrder(rockets: map<string, Fetch<Rocket>>, ls: seq<Launch>, arrived: seq<Launch>)
    requires forall i :: 0 <= i < |ls| ==> RocketResolves(rockets, ls[i])
    requires multiset(arrived) == multiset(ls)
    ensures LaunchesByYear(rockets, Found(arrived)) == LaunchesByYear(rockets, Found(ls))
  {
    forall j | 0 <= j < |arrived| ensures RocketResolves(rockets, arrived[j]) {
      assert arrived[j] in multiset(ls);
    }
    YearKeysSucceed(rockets, ls);
    YearKeysSucceed(rockets, arrived);
    var ks, ka := YearKeys(rockets, ls).value, YearKeys(rockets, arrived).value;
    KeysOfPermutation(ls, arrived, ks, ka);
    GroupCountPermutation(ks, ka);
  }

  /** Lookup footprint of the by-year view: launch i makes call i, a rocket lookup of its own rocket id. */
  lemma {:induction false} RocketLookupsShape(ls: seq<Launch>)
    ensures |RocketLookups(ls)| == |ls|
    ensures forall i :: 0 <= i < |ls| ==> RocketLookups(ls)[i] == RocketLookup(ls[i].rocketId)
  {
    if ls != [] {
      RocketLookupsShape(ls[..|ls| - 1]);
    }
  }

  // ----- What the by-site view promises -----

  /** A failed lookup after a run of fully resolved launches decides the outcome. */
  lemma {:induction false} SiteKeysFirstFailure(rockets: map<string, Fetch<Rocket>>, pads: map<string, Fetch<LaunchPad>>,
                                                ls: seq<Launch>, i: nat)
    requires i < |ls|
    requires forall j :: 0 <= j < i ==> SiteResolves(rockets, pads, ls[j])
    requires !SiteResolves(rockets, pads, ls[i])
    ensures SiteKeys(rockets, pads, ls) == Failure(SiteFailure(rockets, pads, ls[i]))
  {
    if i > 0 {
      assert SiteResolves(rockets, pads, ls[0]);
      SiteKeysFirstFailure(rockets, pads, ls[1..], i - 1);
    }
  }

  /** SiteKeys succeeds exactly when every lookup does, and then gives each launch's keys in order. */
  lemma {:induction false} SiteKeysSucceed(rockets: map<string, Fetch<Rocket>>, pads: map<string, Fetch<LaunchPad>>,
                                           ls: seq<Launch>)
    ensures SiteKeys(rockets, pads, ls).Success? <==> forall i :: 0 <= i < |ls| ==> SiteResolves(rockets, pads, ls[i])
    ensures SiteKeys(rockets, pads, ls).Success? ==>
      var ks := SiteKeys(rockets, pads, ls).value;
      |ks| == |ls| && forall i :: 0 <= i < |ls| ==> ks[i] == SiteKeyOf(rockets, pads, ls[i])
  {
    if ls != [] {
      SiteKeysSucceed(rockets, pads, ls[1..]);
      if SiteResolves(rockets, pads, ls[0]) && SiteKeys(rockets, pads, ls[1..]).Success? {
        var ks := SiteKeys(rockets, pads, ls).value;
        forall i | 0 <= i < |ls| ensures ks[i] == SiteKeyOf(rockets, pads, ls[i]) {
          if i > 0 {
            assert ls[1..][i - 1] == ls[i];
          }
        }
      } else if !SiteResolves(rockets, pads, ls[0]) {
      } else {
        var i :| 0 <= i < |ls[1..]| && !SiteResolves(rockets, pads, ls[1..][i]);
        assert !SiteResolves(rockets, pads, ls[i + 1]);
      }
    }
  }

  /** Listing one more launch in front puts its keys in front of the others'. */
  lemma SiteKeysCons(rockets: map<string, Fetch<Rocket>>, pads: map<string, Fetch<LaunchPad>>,
                     l: Launch, ls: seq<Launch>)
    requires SiteResolves(rockets, pads, l) && SiteKeys(rockets, pads, ls).Success?
    ensures SiteKeys(rockets, pads, [l] + ls) == Success([SiteKeyOf(rockets, pads, l)] + SiteKeys(rockets, pads, ls).value)
  {
    assert ([l] + ls)[1..] == ls;
  }

  /**
   * All or nothing: the by-site result is produced exactly when the listing
   * and every pad and rocket lookup succeed.
   */
  lemma BySiteSucceedsIff(rockets: map<string, Fetch<Rocket>>, pads: map<string, Fetch<LaunchPad>>,
                          listing: Fetch<seq<Launch>>)
    ensures LaunchesBySite(rockets, pads, listing).Success? <==>
      listing.Found? && forall i :: 0 <= i < |listing.record| ==> SiteResolves(rockets, pads, listing.record[i])
  {
    if listing.Found? {
      SiteKeysSucceed(rockets, pads, listing.record);
    }
  }

  /**
   * A failed by-site request reports one cause: the listing's, or that of
   * the first launch with a failed lookup (its pad lookup's if that failed).
   */
  lemma BySiteFailureCause(rockets: map<string, Fetch<Rocket>>, pads: map<string, Fetch<LaunchPad>>,
                           listing: Fetch<seq<Launch>>)
    requires LaunchesBySite(rockets, pads, listing).Failure?
    ensures listing.Failed? ==> LaunchesBySite(rockets, pads, listing).error == listing.cause
    ensures listing.Found? ==>
      exists i ::
        && 0 <= i < |listing.record|
        && (forall j :: 0 <= j < i ==> SiteResolves(rockets, pads, listing.record[j]))
        && !SiteResolves(rockets, pads, listing.record[i])
        && LaunchesBySite(rockets, pads, listing).error == SiteFailure(rockets, pads, listing.record[i])
  {
    if listing.Found? {
      var ls := listing.record;
      SiteKeysSucceed(rockets, pads, ls);
      var i := FirstFailing(ls, l => SiteResolves(rockets, pads, l));
      SiteKeysFirstFailure(rockets, pads, ls, i);
    }
  }

  /**
   * Counts are exact: (name, site) has an entry exactly when some launch is
   * enriched with that rocket name and that pad name, and the entry is the
   * number of such launches.
   */
  lemma BySiteExact(rockets: map<string, Fetch<Rocket>>, pads: map<string, Fetch<LaunchPad>>, ls: seq<Launch>,
                    name: string, site: string)
    requires forall i :: 0 <= i < |ls| ==> SiteResolves(rockets, pads, ls[i])
    ensures LaunchesBySite(rockets, pads, Found(ls)).Success?
    ensures var m := LaunchesBySite(rockets, pads, Found(ls)).value;
      var n := |LaunchesWithSiteKey(rockets, pads, ls, name, site)|;
      (name in m && site in m[name] <==> n > 0) && (name in m && site in m[name] ==> m[name][site] == n)
  {
    SiteKeysSucceed(rockets, pads, ls);
    var ks := SiteKeys(rockets, pads, ls).value;
    GroupCountExact(ks, name, site);
    MultiplicityIsPositionCount(ks, (name, site));
    SiteKeyPositions(rockets, pads, ls, ks, name, site);
    assert LaunchesBySite(rockets, pads, Found(ls)) == Success(GroupCount(ks));
  }

  /** The positions holding (name, site) in the key sequence are the launches keyed so. */
  lemma SiteKeyPositions(rockets: map<string, Fetch<Rocket>>, pads: map<string, Fetch<LaunchPad>>, ls: seq<Launch>,
                         ks: seq<(string, string)>, name: string, site: string)
    requires forall i :: 0 <= i < |ls| ==> SiteResolves(rockets, pads, ls[i])
    requires |ks| == |ls| && forall i :: 0 <= i < |ls| ==> ks[i] == SiteKeyOf(rockets, pads, ls[i])
    ensures Positions(ks, (name, site)) == LaunchesWithSiteKey(rockets, pads, ls, name, site)
  {
    var byPosition, byLaunch := Positions(ks, (name, site)), LaunchesWithSiteKey(rockets, pads, ls, name, site);
    forall i: nat | i < |ls| ensures i in byPosition <==> i in byLaunch {
      assert ks[i] == SiteKeyOf(rockets, pads, ls[i]);
    }
  }

  /** The outer keys of the by-site view are the enriched rocket names. */
  lemma BySiteOuterKeys(rockets: map<string, Fetch<Rocket>>, pads: map<string, Fetch<LaunchPad>>, ls: seq<Launch>,
                        name: string)
    requires forall i :: 0 <= i < |ls| ==> SiteResolves(rockets, pads, ls[i])
    ensures LaunchesBySite(rockets, pads, Found(ls)).Success?
    ensures name in LaunchesBySite(rockets, pads, Found(ls)).value <==>
      exists i :: 0 <= i < |ls| && SiteKeyOf(rockets, pads, ls[i]).0 == name
  {
    SiteKeysSucceed(rockets, pads, ls);
    var ks := SiteKeys(rockets, pads, ls).value;
    GroupCountOuterKeys(ks, name);
    if exists i :: 0 <= i < |ls| && SiteKeyOf(rockets, pads, ls[i]).0 == name {
      var i :| 0 <= i < |ls| && SiteKeyOf(rockets, pads, ls[i]).0 == name;
      assert ks[i].0 == name;
    }
  }

  /** Every listed launch is counted once in the by-site view. */
  lemma BySiteTotal(rockets: map<string, Fetch<Rocket>>, pads: map<string, Fetch<LaunchPad>>, ls: seq<Launch>)
    requires forall i :: 0 <= i < |ls| ==> SiteResolves(rockets, pads, ls[i])
    ensures LaunchesBySite(rockets, pads, Found(ls)).Success?
    ensures Total(LaunchesBySite(rockets, pads, Found(ls)).value) == |ls|
  {
    SiteKeysSucceed(rockets, pads, ls);
    GroupCountTotal(SiteKeys(rockets, pads, ls).value);
  }

  /**
   * The enriched launches may be collected in any order: every arrangement
   * of the listed launches groups to the same counts.
   */
  lemma BySiteArrivalOrder(rockets: map<string, Fetch<Rocket>>, pads: map<string, Fetch<LaunchPad>>,
                           ls: seq<Launch>, arrived: seq<Launch>)
    requires forall i :: 0 <= i < |ls| ==> SiteResolves(rockets, pads, ls[i])
    requires multiset(arrived) == multiset(ls)
    ensures LaunchesBySite(rockets, pads, Found(arrived)) == LaunchesBySite(rockets, pads, Found(ls))
  {
    forall j | 0 <= j < |arrived| ensures SiteResolves(rockets, pads, arrived[j]) {
      assert arrived[j] in multiset(ls);
    }
    SiteKeysSucceed(rockets, pads, ls);
    SiteKeysSucceed(rockets, pads, arrived);
    var ks, ka := SiteKeys(rockets, pads, ls).value, SiteKeys(rockets, pads, arrived).value;
    KeysOfPermutation(ls, arrived, ks, ka);
    GroupCountPermutation(ks, ka);
  }

  /** Lookup footprint of the by-site view: launch i makes calls 2i and 2i+1, its pad and its rocket lookup. */
  lemma {:induction false} SiteLookupsShape(ls: seq<Launch>)
    ensures |SiteLookups(ls)| == 2 * |ls|
    ensures forall i :: 0 <= i < |ls| ==>
      SiteLookups(ls)[2 * i] == LaunchPadLookup(ls[i].launchPadId) && SiteLookups(ls)[2 * i + 1] == RocketLookup(ls[i].rocketId)
  {
    if ls != [] {
      SiteLookupsShape(ls[..|ls| - 1]);
    }
  }
}
