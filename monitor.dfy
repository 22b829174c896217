/** The monitor (`monitor_psn`): every cycle fetches the status document,
    extracts the outages of the target country, and e-mails an alert when an
    outage appears or a resolution notice when it clears. */
module Monitor {
  import opened Values
  import opened Extractor
  import opened Fetcher

  /** An e-mail the monitor sends: the outage alert with its records, or the
      resolution notice. */
  datatype Notification = OutageAlert(reports: seq<Outage>) | Resolved

  /** One cycle: from the outage flag and the cycle's records, the new flag
      and the e-mail sent, if any. */
  function Step(active: bool, reports: seq<Outage>): (r: (bool, Option<Notification>))
    ensures r.0 == (reports != [])
    ensures r.1 == Some(OutageAlert(reports)) <==> !active && reports != []
    ensures r.1 == Some(Resolved) <==> active && reports == []
    ensures r.1 == None <==> active == (reports != [])
  {
    if reports != [] && !active then (true, Some(OutageAlert(reports)))
    else if reports == [] && active then (false, Some(Resolved))
    else (active, None)
  }

  /** The flag and the e-mails after the given cycles, starting with no
      outage active. */
  function Run(cycles: seq<seq<Outage>>): (bool, seq<Notification>)
    decreases |cycles|
  {
    if cycles == [] then (false, [])
    else
      var before := Run(cycles[..|cycles| - 1]);
      var after := Step(before.0, cycles[|cycles| - 1]);
      (after.0, before.1 + (if after.1.Some? then [after.1.value] else []))
  }

  /** Whether the last of the cycles reported an outage. */
  predicate Down(cycles: seq<seq<Outage>>) {
    cycles != [] && cycles[|cycles| - 1] != []
  }

  /** The number of cycles whose outcome (outage or none) differs from the
      cycle before, the first cycle being compared with "no outage". */
  function Changes(cycles: seq<seq<Outage>>): nat
    decreases |cycles|
  {
    if cycles == [] then 0
    else
      var init := cycles[..|cycles| - 1];
      Changes(init) + (if Down(init) != (cycles[|cycles| - 1] != []) then 1 else 0)
  }

  /** Alerts and resolution notices take turns. */
  predicate Alternates(sent: seq<Notification>) {
    forall i :: 0 < i < |sent| ==> (sent[i - 1].OutageAlert? <==> sent[i].Resolved?)
  }

  /** After every cycle the flag says whether that cycle reported an outage. */
  lemma RunFlag(cycles: seq<seq<Outage>>)
    ensures Run(cycles).0 == Down(cycles)
  {
  }

  /** The e-mails begin with an alert, alerts and resolution notices take
      turns, every alert carries records, and the flag is up exactly when
      the last e-mail was an alert. */
  lemma {:induction false} RunAlternates(cycles: seq<seq<Outage>>)
    decreases |cycles|
    ensures Alternates(Run(cycles).1)
    ensures Run(cycles).1 != [] ==> Run(cycles).1[0].OutageAlert?
    ensures Run(cycles).0 <==> Run(cycles).1 != [] && Run(cycles).1[|Run(cycles).1| - 1].OutageAlert?
    ensures forall i :: 0 <= i < |Run(cycles).1| && Run(cycles).1[i].OutageAlert? ==> Run(cycles).1[i].reports != []
  {
    if cycles != [] {
      var init := cycles[..|cycles| - 1];
      RunAlternates(init);
      var before := Run(init);
      var after := Step(before.0, cycles[|cycles| - 1]);
      if after.1.Some? {
        var sent := before.1 + [after.1.value];
        assert Run(cycles).1 == sent;
        assert forall i :: 0 <= i < |before.1| ==> sent[i] == before.1[i];
      } else {
        assert Run(cycles).1 == before.1 + [];
        assert before.1 + [] == before.1;
      }
    }
  }

  /** One e-mail per change between outage and no outage. */
  lemma {:induction false} RunCountsChanges(cycles: seq<seq<Outage>>)
    decreases |cycles|
    ensures |Run(cycles).1| == Changes(cycles)
  {
    if cycles != [] {
      var init := cycles[..|cycles| - 1];
      RunCountsChanges(init);
      RunFlag(init);
    }
  }

  /** An outage that persists over further cycles is not reported again. */
  lemma RepeatedOutageIsQuiet(cycles: seq<seq<Outage>>, reports: seq<Outage>)
    requires Down(cycles) && reports != []
    ensures Run(cycles + [reports]).1 == Run(cycles).1
  {
    assert (cycles + [reports])[..|cycles|] == cycles;
    RunFlag(cycles);
    assert Run(cycles).1 + [] == Run(cycles).1;
  }

  /** No e-mail while the service stays up. */
  lemma HealthyIsQuiet(cycles: seq<seq<Outage>>)
    requires !Down(cycles)
    ensures Run(cycles + [[]]).1 == Run(cycles).1
  {
    assert (cycles + [[]])[..|cycles|] == cycles;
    RunFlag(cycles);
    assert Run(cycles).1 + [] == Run(cycles).1;
  }

  /** A new outage is reported with its records. */
  lemma NewOutageAlerts(cycles: seq<seq<Outage>>, reports: seq<Outage>)
    requires !Down(cycles) && reports != []
    ensures Run(cycles + [reports]).1 == Run(cycles).1 + [OutageAlert(reports)]
  {
    assert (cycles + [reports])[..|cycles|] == cycles;
    RunFlag(cycles);
  }

  /** A cleared outage is reported resolved. */
  lemma RecoveryResolves(cycles: seq<seq<Outage>>)
    requires Down(cycles)
    ensures Run(cycles + [[]]).1 == Run(cycles).1 + [Resolved]
  {
    assert (cycles + [[]])[..|cycles|] == cycles;
    RunFlag(cycles);
  }

  /** Two outage cycles in a row send one alert, for the first. */
  lemma TwoOutageCyclesAlertOnce(first: seq<Outage>, second: seq<Outage>)
    requires first != [] && second != []
    ensures Run([first, second]).1 == [OutageAlert(first)]
  {
    assert [first] == [] + [first] && [first, second] == [first] + [second];
    NewOutageAlerts([], first);
    RepeatedOutageIsQuiet([first], second);
  }

  /** An outage followed by a clean cycle sends an alert, then a resolution. */
  lemma OutageThenRecovery(first: seq<Outage>)
    requires first != []
    ensures Run([first, []]).1 == [OutageAlert(first), Resolved]
  {
    assert [first] == [] + [first] && [first, []] == [first] + [[]];
    NewOutageAlerts([], first);
    RecoveryResolves([first]);
  }

  /** What `check_psn_status` receives: the fetched body, or Python's None
      when the fetch gave up. */
  function Body(fetched: Option<Json>): (data: Json)
    ensures fetched.None? ==> !Truthy(data)
    ensures fetched.Some? ==> data == fetched.value
  {
    fetched.GetOr(JNull)
  }

  /** The outcome of one cycle's fetch and extraction. */
  function CycleReports(world: World, maxRetries: int, target: string, parse: TimeParser): Result<seq<Outage>> {
    Extract(Body(Poll(world, maxRetries, 0)), target, parse)
  }

  /** A cycle whose fetch gives up reports no outage. */
  lemma FailedFetchReportsNothing(world: World, maxRetries: int, target: string, parse: TimeParser)
    requires forall j :: 0 <= j < maxRetries ==> !Succeeds(world(j))
    ensures CycleReports(world, maxRetries, target, parse) == Ok([])
  {
    PollGivesUp(world, maxRetries, 0);
  }

  /** The alert body lists each record's devices with `', '.join(...)`,
      which raises TypeError on a device name that is not a string; the
      other fields are interpolated into the text whatever their type. */
  predicate Renderable(reports: seq<Outage>) {
    forall k, d :: 0 <= k < |reports| && 0 <= d < |reports[k].affectedDevices| ==>
      reports[k].affectedDevices[d].JStr?
  }

  /** The e-mail of one cycle: the decision of `Step`, except that an alert
      whose body cannot be built raises TypeError before anything is sent
      and before the flag is raised. The resolution notice has a fixed body. */
  function Notify(active: bool, reports: seq<Outage>): (r: Result<(bool, Option<Notification>)>)
    ensures r.Err? <==> !active && reports != [] && !Renderable(reports)
    ensures r.Err? ==> r.failure == TypeError
    ensures r.Ok? ==> r.value == Step(active, reports)
  {
    if !active && reports != [] && !Renderable(reports) then Err(TypeError)
    else Ok(Step(active, reports))
  }

  /** A new outage whose records name a device by something other than a
      string (`"deviceName": null`, say) ends the monitor instead of
      alerting. */
  lemma UnnamedDeviceStopsAlert(o: Outage)
    requires JNull in o.affectedDevices
    ensures Notify(false, [o]) == Err(TypeError)
  {
    var d :| 0 <= d < |o.affectedDevices| && o.affectedDevices[d] == JNull;
    assert [o][0].affectedDevices[d] == JNull;
  }

  /** `monitor_psn` over the cycles `worlds` (one fetch world per cycle),
      watching the configured country or the default: the loop ends early
      when the extraction or the building of an alert raises, since nothing
      catches the exception. `reports` are the records of the completed
      cycles. */
  method Monitor(worlds: seq<World>, maxRetries: int, configured: Option<string>, parse: TimeParser)
    returns (sent: seq<Notification>, crash: Option<Failure>, ghost reports: seq<seq<Outage>>)
    ensures |reports| <= |worlds|
    ensures forall i :: 0 <= i < |reports| ==>
              CycleReports(worlds[i], maxRetries, TargetCountry(configured), parse) == Ok(reports[i])
    ensures crash.None? <==> |reports| == |worlds|
    ensures crash.Some? ==>
              var last := CycleReports(worlds[|reports|], maxRetries, TargetCountry(configured), parse);
              (last.Err? && crash.value == last.failure) ||
              (last.Ok? && Notify(Run(reports).0, last.value) == Err(crash.value))
    ensures sent == Run(reports).1
    ensures forall k :: 0 <= k < |sent| && sent[k].OutageAlert? ==> Renderable(sent[k].reports)
    ensures |sent| == Changes(reports)
    ensures Alternates(sent) && (sent != [] ==> sent[0].OutageAlert?)
  {
    var target := TargetCountry(configured);
    var outageActive := false;
    sent, crash, reports := [], None, [];
    var i := 0;
    while i < |worlds|
      invariant i == |reports| <= |worlds|
      invariant forall k :: 0 <= k < i ==> CycleReports(worlds[k], maxRetries, target, parse) == Ok(reports[k])
      invariant (outageActive, sent) == Run(reports)
      invariant forall k :: 0 <= k < |sent| && sent[k].OutageAlert? ==> Renderable(sent[k].reports)
      invariant crash.None?
    {
      var data, _, _ := Fetch(worlds[i], maxRetries);
      var outageReports := CheckStatus(Body(data), target, parse);
      if outageReports.Err? {
        crash := Some(outageReports.failure);
        break;
      }
      var found := outageReports.value;
      if found != [] && !outageActive {
        if !Renderable(found) {
          crash := Some(TypeError);
          break;
        }
        sent := sent + [OutageAlert(found)];
        outageActive := true;
      } else if found == [] && outageActive {
        sent := sent + [Resolved];
        outageActive := false;
      } else {
        assert sent + [] == sent;
      }
      assert (reports + [found])[..|reports|] == reports;
      reports := reports + [found];
      i := i + 1;
    }
    RunAlternates(reports);
    RunCountsChanges(reports);
  }
}
