/**
 * The service's test cases, with the remote side scripted as data.  A
 * launch the tests date at the current instant is dated at `now` here,
 * so its year is stated as UtcYear(now).
 *
 * Each scenario first works out, in a lemma about the specification
 * functions, what the pipeline must deliver for its launches, and then
 * runs the pipeline on a client scripted with the same data.
 */
module Scenarios {
  import opened Wrappers
  import opened Domain
  import opened SpacexClient
  import opened Service
  import opened Grouping
  import Calendar

  const Jan21st2023: int := 1674280046  // 2023-01-21T05:47:26Z
  const Jan21st2022: int := 1642744046  // 2022-01-21T05:47:26Z

  /** Two named rockets. */
  const NamedRockets: map<string, Fetch<Rocket>> :=
    map["rocket1" := Found(Rocket("rocket1", Some("Falcon"))), "rocket2" := Found(Rocket("rocket2", Some("Apollo")))]
  /** Two named launch pads. */
  const NamedPads: map<string, Fetch<LaunchPad>> :=
    map["pad1" := Found(LaunchPad("pad1", Some("Site 1"))), "pad2" := Found(LaunchPad("pad2", Some("Site 2")))]

  /** Two rockets with names; "rocket2" flies twice, in 2023 and 2022. */
  method LaunchedByYearMultipleResults(now: int)
    returns (r: Result<map<string, map<int, nat>>, Cause>, calls: seq<Call>)
    ensures r == Success(map["Falcon" := map[Calendar.UtcYear(now) := 1], "Apollo" := map[2023 := 1, 2022 := 1]])
    ensures calls == [ListLaunches, RocketLookup("rocket1"), RocketLookup("rocket2"), RocketLookup("rocket2")]
  {
    var launch1 := new Launch("rocket1", "pad1", now);
    var launch2 := new Launch("rocket2", "pad2", Jan21st2023);
    var launch3 := new Launch("rocket2", "pad2", Jan21st2022);
    ThreeLaunchesByYear(launch1, launch2, launch3);
    var client := new Client(Found([launch1, launch2, launch3]), NamedRockets, map[]);
    var service := new TaskService(client);
    r := service.GetRocketsLaunchedByYear();
    calls := client.calls;
  }

  /** One launch of a named rocket: one rocket lookup, counted under the name and the launch year. */
  method LaunchedByYear(now: int)
    returns (r: Result<map<string, map<int, nat>>, Cause>, calls: seq<Call>)
    ensures r == Success(map["falcon" := map[Calendar.UtcYear(now) := 1]])
    ensures calls == [ListLaunches, RocketLookup("rocket1")]
  {
    var launch := new Launch("rocket1", "pad1", now);
    var rockets := map["rocket1" := Found(Rocket("rocket1", Some("falcon")))];
    OneLaunchByYear(Some("falcon"), launch);
    var client := new Client(Found([launch]), rockets, map[]);
    var service := new TaskService(client);
    r := service.GetRocketsLaunchedByYear();
    calls := client.calls;
  }

  /** A rocket without a name is counted under the rocket sentinel. */
  method LaunchedByYearNullRocketName(now: int)
    returns (r: Result<map<string, map<int, nat>>, Cause>, calls: seq<Call>)
    ensures r == Success(map["ROCKET_NAME_NA" := map[Calendar.UtcYear(now) := 1]])
    ensures calls == [ListLaunches, RocketLookup("rocket1")]
  {
    var launch := new Launch("rocket1", "pad1", now);
    var rockets := map["rocket1" := Found(Rocket("rocket1", None))];
    OneLaunchByYear(None, launch);
    var client := new Client(Found([launch]), rockets, map[]);
    var service := new TaskService(client);
    r := service.GetRocketsLaunchedByYear();
    calls := client.calls;
  }

  /** Two sites; the second hosts both launches of "rocket2". */
  method LaunchesPerSiteMultipleResult(now: int)
    returns (r: Result<map<string, map<string, nat>>, Cause>, calls: seq<Call>)
    ensures r == Success(map["Falcon" := map["Site 1" := 1], "Apollo" := map["Site 2" := 2]])
    ensures calls == [ListLaunches, LaunchPadLookup("pad1"), RocketLookup("rocket1"),
                      LaunchPadLookup("pad2"), RocketLookup("rocket2"), LaunchPadLookup("pad2"), RocketLookup("rocket2")]
  {
    var launch1 := new Launch("rocket1", "pad1", now);
    var launch2 := new Launch("rocket2", "pad2", Jan21st2023);
    var launch3 := new Launch("rocket2", "pad2", Jan21st2022);
    ThreeLaunchesBySite(launch1, launch2, launch3);
    var client := new Client(Found([launch1, launch2, launch3]), NamedRockets, NamedPads);
    var service := new TaskService(client);
    r := service.GetLaunchesPerSite();
    calls := client.calls;
  }

  /** One launch from a named pad of a named rocket: one pad and one rocket lookup. */
  method LaunchesPerSite(now: int)
    returns (r: Result<map<string, map<string, nat>>, Cause>, calls: seq<Call>)
    ensures r == Success(map["falcon" := map["Site 1" := 1]])
    ensures calls == [ListLaunches, LaunchPadLookup("pad1"), RocketLookup("rocket1")]
  {
    var launch := new Launch("rocket1", "pad1", now);
    var rockets := map["rocket1" := Found(Rocket("rocket1", Some("falcon")))];
    var pads := map["pad1" := Found(LaunchPad("pad1", Some("Site 1")))];
    OneLaunchBySite(Some("falcon"), Some("Site 1"), launch);
    var client := new Client(Found([launch]), rockets, pads);
    var service := new TaskService(client);
    r := service.GetLaunchesPerSite();
    calls := client.calls;
  }

  /** A pad and a rocket without names are counted under both sentinels. */
  method LaunchesPerSiteNullNames(now: int)
    returns (r: Result<map<string, map<string, nat>>, Cause>, calls: seq<Call>)
    ensures r == Success(map["ROCKET_NAME_NA" := map["LAUNCHPAD_NAME_NA" := 1]])
    ensures calls == [ListLaunches, LaunchPadLookup("pad1"), RocketLookup("rocket1")]
  {
    var launch := new Launch("rocket1", "pad1", now);
    var rockets := map["rocket1" := Found(Rocket("rocket1", None))];
    var pads := map["pad1" := Found(LaunchPad("pad1", None))];
    OneLaunchBySite(None, None, launch);
    var client := new Client(Found([launch]), rockets, pads);
    var service := new TaskService(client);
    r := service.GetLaunchesPerSite();
    calls := client.calls;
  }

  /** One failed rocket lookup fails the whole request, with that lookup's cause. */
  method LaunchedByYearLookupFails(now: int)
    returns (r: Result<map<string, map<int, nat>>, Cause>)
    ensures r == Failure(RemoteUnavailable)
  {
    var launch1 := new Launch("rocket1", "pad1", now);
    var launch2 := new Launch("rocket2", "pad2", Jan21st2023);
    var rockets := map["rocket1" := Found(Rocket("rocket1", Some("Falcon"))), "rocket2" := Failed(RemoteUnavailable)];
    var client := new Client(Found([launch1, launch2]), rockets, map[]);
    var service := new TaskService(client);
    r := service.GetRocketsLaunchedByYear();
    YearKeysFirstFailure(rockets, [launch1, launch2], 1);
  }

  /** A launch pad id the remote side does not know fails the whole by-site request. */
  method LaunchesPerSiteUnknownPad(now: int)
    returns (r: Result<map<string, map<string, nat>>, Cause>)
    ensures r == Failure(NotFound("pad9"))
  {
    var launch := new Launch("rocket1", "pad9", now);
    var client := new Client(Found([launch]), map["rocket1" := Found(Rocket("rocket1", Some("Falcon")))], map[]);
    var service := new TaskService(client);
    r := service.GetLaunchesPerSite();
  }

  // ----- What the specification functions give for the scenarios' launches -----

  lemma ThreeLaunchesByYear(l1: Launch, l2: Launch, l3: Launch)
    requires l1.rocketId == "rocket1" && l2.rocketId == "rocket2" && l3.rocketId == "rocket2"
    requires l2.date == Jan21st2023 && l3.date == Jan21st2022
    ensures LaunchesByYear(NamedRockets, Found([l1, l2, l3]))
         == Success(map["Falcon" := map[Calendar.UtcYear(l1.date) := 1], "Apollo" := map[2023 := 1, 2022 := 1]])
    ensures [ListLaunches] + RocketLookups([l1, l2, l3])
         == [ListLaunches, RocketLookup("rocket1"), RocketLookup("rocket2"), RocketLookup("rocket2")]
  {
    var y := Calendar.UtcYear(l1.date);
    assert YearKeyOf(NamedRockets, l1) == ("Falcon", y);
    assert YearKeyOf(NamedRockets, l2) == ("Apollo", 2023) && YearKeyOf(NamedRockets, l3) == ("Apollo", 2022) by {
      Calendar.UtcYearExamples();
    }
    YearKeysOfThree(NamedRockets, l1, l2, l3);
    CountByYear(y);
    RocketLookupsShape([l1, l2, l3]);
  }

  lemma OneLaunchByYear(name: Option<string>, l: Launch)
    requires l.rocketId == "rocket1"
    ensures var rocket := Rocket("rocket1", name);
      && LaunchesByYear(map["rocket1" := Found(rocket)], Found([l]))
         == Success(map[RocketTypeOf(rocket) := map[Calendar.UtcYear(l.date) := 1]])
      && [ListLaunches] + RocketLookups([l]) == [ListLaunches, RocketLookup("rocket1")]
  {
    var rockets := map["rocket1" := Found(Rocket("rocket1", name))];
    var k := (RocketTypeOf(Rocket("rocket1", name)), Calendar.UtcYear(l.date));
    assert YearKeyOf(rockets, l) == k;
    YearKeysCons(rockets, l, []);
    assert [l] + [] == [l] && [k] + [] == [k];
    GroupCountSnoc([], k.0, k.1);
    assert [] + [k] == [k];
    RocketLookupsShape([l]);
  }

  lemma ThreeLaunchesBySite(l1: Launch, l2: Launch, l3: Launch)
    requires l1.rocketId == "rocket1" && l2.rocketId == "rocket2" && l3.rocketId == "rocket2"
    requires l1.launchPadId == "pad1" && l2.launchPadId == "pad2" && l3.launchPadId == "pad2"
    ensures LaunchesBySite(NamedRockets, NamedPads, Found([l1, l2, l3]))
         == Success(map["Falcon" := map["Site 1" := 1], "Apollo" := map["Site 2" := 2]])
    ensures [ListLaunches] + SiteLookups([l1, l2, l3])
         == [ListLaunches, LaunchPadLookup("pad1"), RocketLookup("rocket1"),
             LaunchPadLookup("pad2"), RocketLookup("rocket2"), LaunchPadLookup("pad2"), RocketLookup("rocket2")]
  {
    assert SiteKeyOf(NamedRockets, NamedPads, l1) == ("Falcon", "Site 1");
    assert SiteKeyOf(NamedRockets, NamedPads, l2) == ("Apollo", "Site 2") == SiteKeyOf(NamedRockets, NamedPads, l3);
    SiteKeysOfThree(NamedRockets, NamedPads, l1, l2, l3);
    CountBySite();
    SiteLookupsShape([l1, l2, l3]);
  }

  lemma OneLaunchBySite(name: Option<string>, site: Option<string>, l: Launch)
    requires l.rocketId == "rocket1" && l.launchPadId == "pad1"
    ensures var rocket, pad := Rocket("rocket1", name), LaunchPad("pad1", site);
      && LaunchesBySite(map["rocket1" := Found(rocket)], map["pad1" := Found(pad)], Found([l]))
         == Success(map[RocketTypeOf(rocket) := map[LaunchPadNameOf(pad) := 1]])
      && [ListLaunches] + SiteLookups([l]) == [ListLaunches, LaunchPadLookup("pad1"), RocketLookup("rocket1")]
  {
    var rockets, pads := map["rocket1" := Found(Rocket("rocket1", name))], map["pad1" := Found(LaunchPad("pad1", site))];
    var k := (RocketTypeOf(Rocket("rocket1", name)), LaunchPadNameOf(LaunchPad("pad1", site)));
    assert SiteKeyOf(rockets, pads, l) == k;
    SiteKeysCons(rockets, pads, l, []);
    assert [l] + [] == [l] && [k] + [] == [k];
    GroupCountSnoc([], k.0, k.1);
    assert [] + [k] == [k];
    SiteLookupsShape([l]);
  }

  lemma YearKeysOfThree(rockets: map<string, Fetch<Rocket>>, l1: Launch, l2: Launch, l3: Launch)
    requires RocketResolves(rockets, l1) && RocketResolves(rockets, l2) && RocketResolves(rockets, l3)
    ensures YearKeys(rockets, [l1, l2, l3]) == Success([YearKeyOf(rockets, l1), YearKeyOf(rockets, l2), YearKeyOf(rockets, l3)])
  {
    var k1, k2, k3 := YearKeyOf(rockets, l1), YearKeyOf(rockets, l2), YearKeyOf(rockets, l3);
    YearKeysCons(rockets, l3, []);
    assert [l3] + [] == [l3] && [k3] + [] == [k3];
    YearKeysCons(rockets, l2, [l3]);
    assert [l2] + [l3] == [l2, l3];
    YearKeysCons(rockets, l1, [l2, l3]);
    assert [l1] + [l2, l3] == [l1, l2, l3] && [k1] + ([k2] + [k3]) == [k1, k2, k3];
  }

  lemma SiteKeysOfThree(rockets: map<string, Fetch<Rocket>>, pads: map<string, Fetch<LaunchPad>>,
                        l1: Launch, l2: Launch, l3: Launch)
    requires SiteResolves(rockets, pads, l1) && SiteResolves(rockets, pads, l2) && SiteResolves(rockets, pads, l3)
    ensures SiteKeys(rockets, pads, [l1, l2, l3])
         == Success([SiteKeyOf(rockets, pads, l1), SiteKeyOf(rockets, pads, l2), SiteKeyOf(rockets, pads, l3)])
  {
    var k1, k2, k3 := SiteKeyOf(rockets, pads, l1), SiteKeyOf(rockets, pads, l2), SiteKeyOf(rockets, pads, l3);
    SiteKeysCons(rockets, pads, l3, []);
    assert [l3] + [] == [l3] && [k3] + [] == [k3];
    SiteKeysCons(rockets, pads, l2, [l3]);
    assert [l2] + [l3] == [l2, l3];
    SiteKeysCons(rockets, pads, l1, [l2, l3]);
    assert [l1] + [l2, l3] == [l1, l2, l3] && [k1] + ([k2] + [k3]) == [k1, k2, k3];
  }

  lemma CountByYear(y: int)
    ensures GroupCount([("Falcon", y), ("Apollo", 2023), ("Apollo", 2022)])
         == map["Falcon" := map[y := 1], "Apollo" := map[2023 := 1, 2022 := 1]]
  {
    var k1, k2, k3 := ("Falcon", y), ("Apollo", 2023), ("Apollo", 2022);
    GroupCountSnoc([], k1.0, k1.1);
    GroupCountSnoc([k1], k2.0, k2.1);
    GroupCountSnoc([k1, k2], k3.0, k3.1);
    assert [] + [k1] == [k1] && [k1] + [k2] == [k1, k2] && [k1, k2] + [k3] == [k1, k2, k3];
    var none: map<string, map<int, nat>> := map[];
    var m1 := map["Falcon" := map[y := 1]];
    assert Increment(none, k1.0, k1.1) == m1;
    var m2 := m1["Apollo" := map[2023 := 1]];
    assert Increment(m1, k2.0, k2.1) == m2;
    assert Increment(m2, k3.0, k3.1) == m2["Apollo" := map[2023 := 1][2022 := 1]];
  }

  lemma CountBySite()
    ensures GroupCount([("Falcon", "Site 1"), ("Apollo", "Site 2"), ("Apollo", "Site 2")])
         == map["Falcon" := map["Site 1" := 1], "Apollo" := map["Site 2" := 2]]
  {
    var k1, k2 := ("Falcon", "Site 1"), ("Apollo", "Site 2");
    GroupCountSnoc([], k1.0, k1.1);
    GroupCountSnoc([k1], k2.0, k2.1);
    GroupCountSnoc([k1, k2], k2.0, k2.1);
    assert [] + [k1] == [k1] && [k1] + [k2] == [k1, k2] && [k1, k2] + [k2] == [k1, k2, k2];
    var none: map<string, map<string, nat>> := map[];
    var m1 := map["Falcon" := map["Site 1" := 1]];
    assert Increment(none, k1.0, k1.1) == m1;
    var m2 := m1["Apollo" := map["Site 2" := 1]];
    assert Increment(m1, k2.0, k2.1) == m2;
    assert m2["Apollo"]["Site 2" := 2] == map["Site 2" := 2];
  }
}
