/** One reconcile run from end to end: the roster pull, provisioning, the recorded
    statuses, the audiences, and the sweep of every group. */
module WholeRun {
  import opened Basics
  import opened Database
  import opened RosterPull
  import opened RosterLeaders
  import RosterTheorems
  import RosterFixpoint
  import RosterPlain
  import opened GroupSync
  import opened EmailStatus
  import opened Apply
  import opened Sweep
  import opened SweepTheorems
  import opened Audience
  import opened EndToEnd
  import Provision
  import History

  /** Everything a run reads and writes. */
  datatype Stored = Stored(t: Tables, provisioned: bool, statuses: StatusStore)

  /** How a run is called, and all that answers it. `fetch` is the order in which the
      audience queries return their rows. */
  datatype Setup = Setup(
    roster: Option<seq<Member>>, provisioning: Option<(Provision.Provisioner, Provision.Config)>,
    fetch: Tables -> Fetched, world: World, main: Email, listerAvailable: bool, allow: bool, dryRun: bool,
    writes: Writes, now: int)

  datatype Ending =
    | PullRaised(error: PullError)
    | PullUnsafe(lapseRefused: nat)
    | ProvisionRaised
    | Reported(report: SweepReport, pull: Option<PullReport>, provision: Option<Provision.ProvisionReport>)

  /** What a run leaves: the database, how it ended, and the calls it made. */
  datatype RunResult = RunResult(after: Stored, ending: Ending, asked: Provision.Calls, log: Log)

  predicate ProvisionFailed(provision: Option<Provision.ProvisionReport>) {
    provision.Some? && provision.value.HasFailures()
  }

  /** From the provisioned bodies on, with what the stages before reported. */
  function FromStatuses(d: Stored, setup: Setup, asked: Provision.Calls, pull: Option<PullReport>,
      provision: Option<Provision.ProvisionReport>): RunResult
  {
    var statuses := ReadStatuses(d.statuses.rows, None, setup.now);
    var audiences := AudiencesOf(setup.fetch(d.t), setup.main, statuses);
    var r := SweepRun(setup.world, audiences, d.statuses, setup.listerAvailable, ProvisionFailed(provision),
        setup.allow, setup.dryRun, setup.writes, setup.now);
    RunResult(d.(statuses := r.store), Reported(r.report, pull, provision), asked, r.s.log)
  }

  /** From the pulled roster on. */
  function FromProvisioning(d: Stored, setup: Setup, pull: Option<PullReport>): RunResult
    requires Valid(d.t)
  {
    match setup.provisioning
    case None => FromStatuses(d, setup, [], pull, None)
    case Some((prov, config)) =>
      var p := Provision.Provision(prov, d.t.bodies, d.provisioned, config, setup.main, setup.dryRun);
      match p
      case Aborted(asked) => RunResult(d, ProvisionRaised, asked, [])
      case Provisioned(bodies, provisioned, asked, report) =>
        FromStatuses(d.(t := d.t.(bodies := bodies), provisioned := provisioned), setup, asked, pull, Some(report))
  }

  /** `_sweep_locked`. */
  function Swept(d: Stored, setup: Setup): RunResult
    requires Valid(d.t)
  {
    match setup.roster
    case None => FromProvisioning(d, setup, None)
    case Some(members) =>
      match PulledIn(d.t, members, setup.dryRun)
      case Aborted(error) => RunResult(d, PullRaised(error), [], [])
      case Committed(t, report) =>
        if report.lapseRefused > 0 then RunResult(d.(t := t), PullUnsafe(report.lapseRefused), [], [])
        else
          RosterFixpoint.PullKeepsValid(d.t, members, setup.dryRun);
          FromProvisioning(d.(t := t), setup, Some(report))
  }

  // ------------------------------------------------------------------ in place

  /** The last stages, each done in place. */
  method SweepGroups(d: Stored, setup: Setup, asked: Provision.Calls, pull: Option<PullReport>,
      provision: Option<Provision.ProvisionReport>) returns (r: RunResult)
    ensures r == FromStatuses(d, setup, asked, pull, provision)
  {
    var statuses := ReadStatuses(d.statuses.rows, None, setup.now);
    var builder := new Builder(setup.main);
    builder.Build(setup.fetch(d.t), setup.main, statuses);
    if !setup.listerAvailable {
      var report := SweepReport([], false, ProvisionFailed(provision), None);
      return RunResult(d, Reported(report, pull, provision), asked, []);
    }
    var store := new EmailStatus.Store(d.statuses);
    var run := new Sweep.Run(setup.world, statuses);
    var refusals :=
        run.SweepLocked(builder.audiences, statuses, store, setup.allow, setup.dryRun, setup.writes, setup.now);
    hide RunGroups, WriteDown, AudiencesOf, ReadStatuses;
    var report := SweepReport(run.outcomes, true, ProvisionFailed(provision), Some(refusals));
    r := RunResult(d.(statuses := EmailStatus.StatusStore(store.rows, store.bootstrapped)),
        Reported(report, pull, provision), asked, run.log);
  }

  /** `_sweep_locked`, stage by stage, each on objects of its own. */
  method SweepLocked(d: Stored, setup: Setup) returns (r: RunResult)
    requires Valid(d.t)
    ensures r == Swept(d, setup)
  {
    hide PulledIn, Provision.Provision, FromStatuses, Valid;
    var now, pullReport := d, None;
    if setup.roster.Some? {
      var pull := new Pull(d.t);
      var pulled := pull.PullIn(setup.roster.value, setup.dryRun);
      if pulled.Aborted? {
        return RunResult(d, PullRaised(pulled.error), [], []);
      }
      now := d.(t := pull.t);
      if pulled.report.lapseRefused > 0 {
        return RunResult(now, PullUnsafe(pulled.report.lapseRefused), [], []);
      }
      pullReport := Some(pulled.report);
      RosterFixpoint.PullKeepsValid(d.t, setup.roster.value, setup.dryRun);
    }
    if setup.provisioning.None? {
      r := SweepGroups(now, setup, [], pullReport, None);
      return;
    }
    var (prov, config) := setup.provisioning.value;
    ValidBodies(now.t);
    var provisioning := new Provision.Provisioning(now.t.bodies, now.provisioned);
    var report := provisioning.Run(prov, config, setup.main, setup.dryRun);
    if report.None? {
      return RunResult(now, ProvisionRaised, provisioning.log, []);
    }
    now := now.(t := now.t.(bodies := provisioning.bodies), provisioned := provisioning.bootstrapped);
    r := SweepGroups(now, setup, provisioning.log, pullReport, report);
  }

  // -------------------------------------------------------------------- endings

  /** A run touches no group and no recorded status unless it reports. */
  lemma NoReportNoCalls(d: Stored, setup: Setup)
    requires Valid(d.t)
    ensures var r := Swept(d, setup);
            !r.ending.Reported? ==>
                r.log == [] && r.after.statuses == d.statuses && r.after.provisioned == d.provisioned
  {
    hide Valid, PulledIn, Provision.Provision, SweepRun, AudiencesOf;
  }

  lemma LapseRefusedMeans(t: Tables, members: seq<Member>, dryRun: bool)
    requires Valid(t) && PulledIn(t, members, dryRun).Committed?
    ensures PulledIn(t, members, dryRun).report.lapseRefused > 0 <==> FuseTripped(t, RosterIds(members))
  {
    hide Valid, Looped, Absent, RosterIds, Reconciled, LapseAbsent;
  }

  /** A run stops before Google, before provisioning too, exactly when its pull commits
      and the good-standing members missing from the roster are more than five and more
      than a tenth of all in good standing, rounded up; it then has left every absent
      member's row as it was. */
  lemma UnsafePullStops(d: Stored, setup: Setup, members: seq<Member>)
    requires Valid(d.t) && setup.roster == Some(members)
    ensures var r, absent := Swept(d, setup), RosterTheorems.Missing(d.t, members);
            && (r.ending.PullUnsafe? <==>
                  && PulledIn(d.t, members, setup.dryRun).Committed?
                  && |absent| > 5 && 10 * (|absent| - 1) >= |RosterTheorems.GoodStandingIn(d.t)|)
            && (r.ending.PullUnsafe? ==>
                  && r.ending.lapseRefused == |absent| && r.asked == [] && r.log == []
                  && r.after.statuses == d.statuses && r.after.provisioned == d.provisioned
                  && forall i :: i in d.t.members && d.t.members[i].stId !in RosterIds(members) ==>
                       i in r.after.t.members && r.after.t.members[i] == d.t.members[i])
  {
    hide Valid, PulledIn, Provision.Provision, SweepRun, AudiencesOf, ReadStatuses, Absent, RosterIds;
    RosterTheorems.FuseTripsExactly(d.t, members);
    if PulledIn(d.t, members, setup.dryRun).Committed? {
      LapseRefusedMeans(d.t, members, setup.dryRun);
      if FuseTripped(d.t, RosterIds(members)) {
        RosterTheorems.FuseRefuses(d.t, members, setup.dryRun);
      }
    }
  }

  // ------------------------------------------------ the tables a run sweeps from

  /** A run's writes to the tables, as a history. */
  function StepsOf(d: Stored, setup: Setup): seq<History.Step> {
    (if setup.roster.Some? then [History.PullStep(setup.roster.value, setup.dryRun)] else [])
    + (if setup.provisioning.Some?
       then [History.ProvisionStep(setup.provisioning.value.0, d.provisioned, setup.provisioning.value.1,
           setup.main, setup.dryRun)]
       else [])
  }

  /** The tables between the pull and provisioning. */
  function Pulled(d: Stored, setup: Setup): (t: Tables)
    requires Valid(d.t)
    ensures Valid(t)
  {
    match setup.roster
    case None => d.t
    case Some(members) =>
      var r := PulledIn(d.t, members, setup.dryRun);
      if r.Committed? then
        RosterFixpoint.PullKeepsValid(d.t, members, setup.dryRun);
        r.t
      else d.t
  }

  function PullReported(d: Stored, setup: Setup): Option<PullReport>
    requires Valid(d.t)
  {
    match setup.roster
    case None => None
    case Some(members) =>
      var r := PulledIn(d.t, members, setup.dryRun);
      if r.Committed? then Some(r.report) else None
  }

  lemma TwoSteps(t: Tables, a: History.Step, b: History.Step)
    requires Valid(t)
    ensures Valid(History.After(t, a))
    ensures History.Run(t, []) == t && History.Run(t, [a]) == History.After(t, a)
    ensures History.Run(t, [a] + [b]) == History.After(History.After(t, a), b)
  {
    hide Valid, History.After;
    History.StepKeepsValid(t, a);
    History.StepKeepsValid(History.After(t, a), b);
    assert [a][1..] == [] && [b][1..] == [] && ([a] + [b])[1..] == [b];
    assert History.Run(History.After(t, a), [b]) == History.Run(History.After(History.After(t, a), b), []);
  }

  /** The tables a reporting run sweeps from, and what it sweeps with. */
  lemma ReportedRun(d: Stored, setup: Setup)
    requires Valid(d.t) && Swept(d, setup).ending.Reported?
    ensures var r := Swept(d, setup);
            && Valid(r.after.t) && r.after.t == History.Run(d.t, StepsOf(d, setup))
            && r.after.t.members == Pulled(d, setup).members
            && (setup.roster.Some? ==>
                   !FuseTripped(d.t, RosterIds(setup.roster.value))
                   && PulledIn(d.t, setup.roster.value, setup.dryRun).Committed?)
            && r.ending.pull == PullReported(d, setup)
            && r == FromStatuses(r.after.(statuses := d.statuses), setup, r.asked, r.ending.pull, r.ending.provision)
  {
    var r := Swept(d, setup);
    var mid := d.(t := Pulled(d, setup));
    if setup.roster.Some? {
      PullStage(d, setup);
    }
    ProvisionStage(mid, setup, PullReported(d, setup));
    StagesAreHistory(d, setup);
  }

  lemma PullStage(d: Stored, setup: Setup)
    requires Valid(d.t) && setup.roster.Some? && Swept(d, setup).ending.Reported?
    ensures PulledIn(d.t, setup.roster.value, setup.dryRun).Committed?
        && !FuseTripped(d.t, RosterIds(setup.roster.value))
    ensures Swept(d, setup) == FromProvisioning(d.(t := Pulled(d, setup)), setup, PullReported(d, setup))
  {
    hide Valid, PulledIn, FromProvisioning, FuseTripped, RosterIds;
    LapseRefusedMeans(d.t, setup.roster.value, setup.dryRun);
  }

  /** The tables once provisioned. */
  function ProvisionedTables(d: Stored, setup: Setup): Tables
    requires Valid(d.t)
  {
    match setup.provisioning
    case None => d.t
    case Some((prov, config)) =>
      History.After(d.t, History.ProvisionStep(prov, d.provisioned, config, setup.main, setup.dryRun))
  }

  lemma ProvisionStage(d: Stored, setup: Setup, pull: Option<PullReport>)
    requires Valid(d.t) && FromProvisioning(d, setup, pull).ending.Reported?
    ensures var r := FromProvisioning(d, setup, pull);
            && r.after.t == ProvisionedTables(d, setup) && r.after.t.members == d.t.members && r.ending.pull == pull
            && r == FromStatuses(r.after.(statuses := d.statuses), setup, r.asked, pull, r.ending.provision)
  {
    hide Valid, Provision.Provision, SweepRun, AudiencesOf, ReadStatuses;
  }

  lemma StagesAreHistory(d: Stored, setup: Setup)
    requires Valid(d.t)
    ensures Valid(ProvisionedTables(d.(t := Pulled(d, setup)), setup))
    ensures ProvisionedTables(d.(t := Pulled(d, setup)), setup) == History.Run(d.t, StepsOf(d, setup))
  {
    hide Valid, PulledIn, Provision.Provision;
    var pull := History.PullStep(if setup.roster.Some? then setup.roster.value else [], setup.dryRun);
    assert setup.roster.Some? ==> History.After(d.t, pull) == Pulled(d, setup);
    if setup.provisioning.Some? {
      var (prov, config) := setup.provisioning.value;
      var provision := History.ProvisionStep(prov, d.provisioned, config, setup.main, setup.dryRun);
      History.StepKeepsValid(Pulled(d, setup), provision);
      hide History.After, Pulled;
      TwoSteps(d.t, pull, provision);
      TwoSteps(d.t, provision, provision);
      assert [] + [provision] == [provision];
    } else {
      hide History.After, Pulled;
      TwoSteps(d.t, pull, pull);
      assert [pull] + [] == [pull];
    }
  }

  // --------------------------------------------------------------- main results

  /** A run keeps every constraint of the tables, however it ends. */
  lemma SweptKeepsValid(d: Stored, setup: Setup)
    requires Valid(d.t)
    ensures Valid(Swept(d, setup).after.t)
  {
    hide Valid, Provision.Provision, PulledIn, SweepRun, AudiencesOf, ReadStatuses, StepsOf, FuseTripped;
    if Swept(d, setup).ending.Reported? {
      ReportedRun(d, setup);
    } else {
      if setup.roster.Some? && PulledIn(d.t, setup.roster.value, setup.dryRun).Committed? {
        RosterFixpoint.PullKeepsValid(d.t, setup.roster.value, setup.dryRun);
      }
    }
  }

  lemma PullLeavesNoneAbsent(t: Tables, members: seq<Member>, dryRun: bool)
    requires Valid(t) && PulledIn(t, members, dryRun).Committed? && !FuseTripped(t, RosterIds(members))
    ensures Absent(PulledIn(t, members, dryRun).t.members, RosterIds(members)) == {}
  {
    hide Valid, Looped, Absent, RosterIds, Reconciled, LapseAbsent;
    RosterTheorems.LapseEmpties(Reconciled(Looped(t, members, dryRun)), RosterIds(members));
  }

  /** A record of the roster with the row's st_id, and it is in good standing - or the
      pull skipped that st_id, and the row stands as it was. */
  ghost predicate InRoster(r: RunResult, members: seq<Member>, row: MemberRow) {
    exists m :: m in members && m.stId == row.stId
                && (m.standing == GoodStanding || (r.ending.Reported? && r.ending.pull.Some?
                                                   && m.stId in r.ending.pull.value.skippedStIds))
  }

  /** Member `i` justifies an offer: wanted in the group as that address, the row of
      no one banned before the run, and in this very roster if there was one, as a member
      in good standing unless skipped. */
  ghost predicate OfferedFor(d: Stored, setup: Setup, group: Email, i: Uuid, a: string)
    requires Valid(d.t)
  {
    var t, statuses := Swept(d, setup).after.t, ReadStatuses(d.statuses.rows, None, setup.now);
    && WantedUnbanned(d.t, StepsOf(d, setup), setup.main, statuses, group, i, a)
    && (setup.roster.Some? ==> i in t.members && InRoster(Swept(d, setup), setup.roster.value, t.members[i]))
  }

  /** From the roster to Google: whatever Google answers and the panel writes, a run
      offers an address only for a member in good standing whom the tables, as just
      pulled and provisioned, put in that group, who is in the roster it was given and
      whom no ban made before it has reached; and it removes no wanted member's. */
  lemma OffersFollowTheRoster(d: Stored, setup: Setup)
    requires Valid(d.t) && FetchedFrom(setup.fetch(Swept(d, setup).after.t), Swept(d, setup).after.t)
    ensures var r, statuses := Swept(d, setup), ReadStatuses(d.statuses.rows, None, setup.now);
            && (forall k :: 0 <= k < |r.log| && r.log[k].Offered? ==>
                  exists i :: OfferedFor(d, setup, r.log[k].group, i, r.log[k].address))
            && (forall k, i :: 0 <= k < |r.log| && r.log[k].Removed? ==>
                  !WantedAs(r.after.t, setup.main, statuses, r.log[k].group, i, Norm(r.log[k].address)))
  {
    hide Swept, Valid, FetchedFrom, AudiencesOf, RunGroups, ReadStatuses, StepsOf, Absent, RosterIds, PulledIn,
        FromStatuses, Pulled, FuseTripped;
    var r, statuses := Swept(d, setup), ReadStatuses(d.statuses.rows, None, setup.now);
    if !r.ending.Reported? {
      NoReportNoCalls(d, setup);
    } else {
      ReportedRun(d, setup);
      var t := r.after.t;
      LogIsTheGroups(d, setup);
      if setup.listerAvailable {
        BannedAreNeverOffered(d.t, StepsOf(d, setup), setup.fetch(t), setup.main, d.statuses, setup.world,
            setup.allow, setup.now);
        RunFollowsRecords(t, setup.fetch(t), setup.main, d.statuses, setup.world, setup.allow, setup.now);
      }
      forall k | 0 <= k < |r.log| && r.log[k].Offered?
          ensures exists i :: OfferedFor(d, setup, r.log[k].group, i, r.log[k].address) {
        var i :| WantedUnbanned(d.t, StepsOf(d, setup), setup.main, statuses, r.log[k].group, i, r.log[k].address);
        if setup.roster.Some? {
          WantedAreRostered(d, setup, statuses, r.log[k].group, i, r.log[k].address);
        }
        assert OfferedFor(d, setup, r.log[k].group, i, r.log[k].address);
      }
    }
  }

  lemma LogIsTheGroups(d: Stored, setup: Setup)
    requires Valid(d.t) && Swept(d, setup).ending.Reported?
    ensures var r, statuses := Swept(d, setup), ReadStatuses(d.statuses.rows, None, setup.now);
            r.log == if setup.listerAvailable
                     then RunGroups(setup.world, AudiencesOf(setup.fetch(r.after.t), setup.main, statuses),
                         statuses, setup.allow).log
                     else []
  {
    ReportedRun(d, setup);
    hide Swept, Valid, AudiencesOf, RunGroups, ReadStatuses, WriteDown;
  }

  lemma WantedAreRostered(d: Stored, setup: Setup, statuses: EmailStatuses, group: Email, i: Uuid, a: string)
    requires Valid(d.t) && setup.roster.Some? && Swept(d, setup).ending.Reported?
    requires WantedAs(Swept(d, setup).after.t, setup.main, statuses, group, i, a)
    ensures var r := Swept(d, setup);
            i in r.after.t.members && InRoster(r, setup.roster.value, r.after.t.members[i])
  {
    hide Swept, Valid, PulledIn, RosterIds, MirroredAs, FuseTripped, StepsOf, FromStatuses, RosterTheorems.Carries;
    var members, t := setup.roster.value, Swept(d, setup).after.t;
    ReportedRun(d, setup);
    PullLeavesNoneAbsent(d.t, members, setup.dryRun);
    assert i in t.members && t.members[i].standing.GoodStanding?;
    assert i !in Absent(t.members, RosterIds(members));
    RosterPlain.RosteredRowsSay(d.t, members, setup.dryRun, i);
    var m :| m in members && m.stId == t.members[i].stId
        && (|| RosterTheorems.Carries(t.members[i], m)
            || m.stId in PulledIn(d.t, members, setup.dryRun).report.skippedStIds);
    CarriesStanding(t.members[i], m);
  }

  lemma CarriesStanding(row: MemberRow, m: Member)
    ensures RosterTheorems.Carries(row, m) ==> row.standing == m.standing
  {
  }

  lemma GreenProvision(d: Stored, setup: Setup, pull: Option<PullReport>)
    requires Valid(d.t) && !setup.dryRun && setup.provisioning.Some?
    requires var r := FromProvisioning(d, setup, pull); r.ending.Reported? && !r.ending.report.HasFailures()
    ensures var t := FromProvisioning(d, setup, pull).after.t;
            forall b :: b in t.bodies ==> Provision.IsLinked(t.bodies[b])
  {
    hide Provision.Provision, MembersUnique, MembershipsRefer, AudiencesOf, ReadStatuses, RunGroups, WriteDown;
    var (prov, config) := setup.provisioning.value;
    Provision.SuccessLinksAll(prov, d.t.bodies, d.provisioned, config, setup.main);
  }

  /** A real run that reports no failure has left nothing undone: every body is linked
      if it provisions, and every change planned in every group is settled. */
  lemma GreenRunIsDone(d: Stored, setup: Setup)
    requires Valid(d.t) && !setup.dryRun && setup.listerAvailable
    requires FetchedFrom(setup.fetch(Swept(d, setup).after.t), Swept(d, setup).after.t)
    requires var r := Swept(d, setup); r.ending.Reported? && !r.ending.report.HasFailures()
    ensures var r := Swept(d, setup);
            && (setup.provisioning.Some? ==> forall b ::
                   b in r.after.t.bodies ==> Provision.IsLinked(r.after.t.bodies[b]))
            && (forall k :: 0 <= k < |r.ending.report.groups| ==>
                  var o := r.ending.report.groups[k];
                  o.failed == 0 && o.refused == 0 && o.Settled() == o.plannedAdds + o.plannedRemoves)
  {
    hide Valid, FetchedFrom, AudiencesOf, ReadStatuses, PulledIn, RunGroups, WriteDown, StepsOf, Pulled,
        FromProvisioning, FuseTripped;
    var r, statuses := Swept(d, setup), ReadStatuses(d.statuses.rows, None, setup.now);
    ReportedRun(d, setup);
    if setup.provisioning.Some? {
      if setup.roster.Some? { PullStage(d, setup); }
      NoPullStage(d, setup);
      GreenProvision(d.(t := Pulled(d, setup)), setup, PullReported(d, setup));
    }
    hide Swept;
    AudiencesAreNormal(r.after.t, setup.fetch(r.after.t), setup.main, statuses);
    GreenRunSettles(setup.world, AudiencesOf(setup.fetch(r.after.t), setup.main, statuses), d.statuses,
        ProvisionFailed(r.ending.provision), setup.allow, setup.writes, setup.now);
  }

  lemma NoPullStage(d: Stored, setup: Setup)
    requires Valid(d.t)
    ensures setup.roster.None? ==> Swept(d, setup) == FromProvisioning(d.(t := Pulled(d, setup)), setup, None)
  {
    hide Valid, FromProvisioning;
  }

  /** A run says whether it could list the groups; if not, it makes no membership call,
      reports no group and no refusal, and leaves the recorded statuses as they were. */
  lemma UnlistedRunStops(d: Stored, setup: Setup)
    requires Valid(d.t) && Swept(d, setup).ending.Reported?
    ensures var r := Swept(d, setup);
            && (r.ending.report.listerAvailable <==> setup.listerAvailable)
            && (!setup.listerAvailable ==>
                  && r.log == [] && r.after.statuses == d.statuses
                  && r.ending.report.groups == [] && r.ending.report.refusals == None)
  {
    hide Valid, Swept, AudiencesOf, RunGroups, ReadStatuses, WriteDown;
    ReportedRun(d, setup);
  }

  /** A rehearsal links no body, arms nothing and records no answer of Google's, however
      it ends. */
  lemma RehearsalRecordsNothing(d: Stored, setup: Setup)
    requires Valid(d.t) && setup.dryRun
    ensures var r := Swept(d, setup);
            && r.after.statuses == d.statuses && r.after.provisioned == d.provisioned
            && forall b :: b in d.t.bodies ==> b in r.after.t.bodies && r.after.t.bodies[b] == d.t.bodies[b]
  {
    hide Valid, PulledIn, Provision.Provision, AudiencesOf, ReadStatuses, RunGroups, Remembered, RecordRefusals;
    if setup.roster.Some? && PulledIn(d.t, setup.roster.value, true).Committed? {
      History.PulledInBodies(d.t, setup.roster.value, true);
      RosterFixpoint.PullKeepsValid(d.t, setup.roster.value, true);
      RehearsedProvision(d.(t := PulledIn(d.t, setup.roster.value, true).t), setup);
    } else {
      RehearsedProvision(d, setup);
    }
  }

  lemma RehearsedProvision(d: Stored, setup: Setup)
    requires Valid(d.t) && setup.dryRun
    ensures forall pull :: FromProvisioning(d, setup, pull).after == d
  {
    hide Valid, Provision.Provision, AudiencesOf, ReadStatuses, RunGroups, Remembered, RecordRefusals;
    if setup.provisioning.Some? {
      var (prov, config) := setup.provisioning.value;
      ValidForLinks(d.t);
      Provision.LinksNeverRepointed(prov, d.t.bodies, d.provisioned, config, setup.main, true);
    }
  }

  lemma ValidForLinks(t: Tables)
    requires Valid(t)
    ensures BodiesUnique(t.bodies) && LinksWhole(t.bodies) && LinksUnique(t.bodies)
  {
  }
}
