/** A run that left nothing undone is final: the next one of the same roster leaves
    everything it stores as it was and asks Google for no change. */
module WholeFixpoint {
  import opened Basics
  import opened Database
  import opened RosterPull
  import opened RosterLeaders
  import RosterTheorems
  import opened RosterFixpoint
  import opened GroupSync
  import opened EmailStatus
  import opened Apply
  import opened Sweep
  import opened SweepTheorems
  import opened Audience
  import opened FixedAudiences
  import opened WholeConvergence
  import RetryDrain
  import opened WholeRun
  import GreenRun
  import Provision

  // --------------------------------------------------------- roster and bodies

  /** Linking bodies to groups leaves the roster's work settled. */
  lemma SettledOnceLinked(t: Tables, members: seq<Member>, ids: seq<Uuid>, bodies: map<Uuid, BodyRow>)
    requires Settled(t, members, ids) && Valid(t.(bodies := bodies)) && bodies.Keys == t.bodies.Keys
    requires forall b :: b in bodies ==> LeadershipOf(bodies[b]) == LeadershipOf(t.bodies[b])
    ensures Settled(t.(bodies := bodies), members, ids)
  {
    hide Valid, Absent, RowOf;
    forall k | 0 <= k < |members| ensures Stands(t.(bodies := bodies), members[k], ids[k]) {
      StandsOnceLinked(t, members[k], ids[k], bodies);
    }
  }

  lemma StandsOnceLinked(t: Tables, m: Member, id: Uuid, bodies: map<Uuid, BodyRow>)
    requires Stands(t, m, id) && bodies.Keys == t.bodies.Keys
    requires forall b :: b in bodies ==> LeadershipOf(bodies[b]) == LeadershipOf(t.bodies[b])
    ensures Stands(t.(bodies := bodies), m, id)
  {
    hide RowOf, LeadershipOf;
    forall l | l in m.leads ensures Named(bodies, l) {
      assert Named(t.bodies, l);
    }
  }

  /** A real run of a roster that provisions, and reported no failure and no skip. */
  ghost predicate Clean(d: Stored, setup: Setup, members: seq<Member>, prov: Provision.Provisioner,
      config: Provision.Config)
    requires Valid(d.t)
  {
    var r := Swept(d, setup);
    && setup.roster == Some(members) && WellFormed(members) && setup.provisioning == Some((prov, config))
    && !setup.dryRun && setup.listerAvailable
    && r.ending.Reported? && !r.ending.report.HasFailures()
    && r.ending.pull.Some? && r.ending.pull.value.skippedStIds == []
  }

  function Provisioned(d: Stored, setup: Setup, prov: Provision.Provisioner, config: Provision.Config)
    : Provision.Provisioned
    requires Valid(d.t)
  {
    ValidBodies(Pulled(d, setup));
    Provision.Provision(prov, Pulled(d, setup).bodies, d.provisioned, config, setup.main, false)
  }

  /** Its stages. */
  lemma CleanStages(d: Stored, setup: Setup, members: seq<Member>, prov: Provision.Provisioner,
      config: Provision.Config)
    requires Valid(d.t) && Clean(d, setup, members, prov, config)
    ensures var r, mid, p := Swept(d, setup), Pulled(d, setup), Provisioned(d, setup, prov, config);
            && Valid(r.after.t) && p.Provisioned? && !p.report.HasFailures()
            && r.after.t == mid.(bodies := p.bodies) && r.after.provisioned == p.bootstrapped
            && PulledIn(d.t, members, false).Committed? && PulledIn(d.t, members, false).t == mid
            && PulledIn(d.t, members, false).report.skippedStIds == [] && !FuseTripped(d.t, RosterIds(members))
            && r == FromStatuses(r.after.(statuses := d.statuses), setup, r.asked, r.ending.pull, r.ending.provision)
  {
    hide Valid, PulledIn, Provision.Provision, FromStatuses, FuseTripped, StepsOf;
    ReportedRun(d, setup);
    PullStage(d, setup);
    ProvisionParts(d.(t := Pulled(d, setup)), setup, PullReported(d, setup));
  }

  lemma ProvisionParts(d: Stored, setup: Setup, pull: Option<PullReport>)
    requires Valid(d.t) && setup.provisioning.Some? && !setup.dryRun
    requires var r := FromProvisioning(d, setup, pull); r.ending.Reported? && !r.ending.report.HasFailures()
    ensures BodiesUnique(d.t.bodies)
    ensures var r, (prov, config) := FromProvisioning(d, setup, pull), setup.provisioning.value;
            var p := Provision.Provision(prov, d.t.bodies, d.provisioned, config, setup.main, false);
            && p.Provisioned? && !p.report.HasFailures()
            && r.after.t == d.t.(bodies := p.bodies) && r.after.provisioned == p.bootstrapped
  {
    hide Provision.Provision, MembersUnique, LinksUnique, MembershipsRefer, ReadStatuses, AudiencesOf, RunGroups,
        WriteDown;
  }

  /** The tables it leaves are settled: the same roster pulls to the same tables. */
  lemma PullAgain(d: Stored, setup: Setup, members: seq<Member>, prov: Provision.Provisioner,
      config: Provision.Config)
    requires Valid(d.t) && Clean(d, setup, members, prov, config)
    ensures Valid(Swept(d, setup).after.t)
    ensures var t := Swept(d, setup).after.t;
            var again := PulledIn(t, members, false);
            again.Committed? && again.t == t && again.report.lapseRefused == 0
  {
    hide Valid, Swept, PulledIn, Settled, FromStatuses, FuseTripped, Provision.Provision, Clean;
    var mid, p := Pulled(d, setup), Provisioned(d, setup, prov, config);
    CleanStages(d, setup, members, prov, config);
    CleanIsWell(d, setup, members, prov, config);
    PullSettles(d.t, members, false);
    ValidLinks(mid);
    Provision.LinksNeverRepointed(prov, mid.bodies, d.provisioned, config, setup.main, false);
    SettledOnceLinked(mid, members, Looped(d.t, members, false).present, p.bodies);
    SettledIsFixed(mid.(bodies := p.bodies), members, Looped(d.t, members, false).present, false);
  }

  lemma CleanIsWell(d: Stored, setup: Setup, members: seq<Member>, prov: Provision.Provisioner,
      config: Provision.Config)
    requires Valid(d.t) && Clean(d, setup, members, prov, config)
    ensures WellFormed(members)
  {
  }

  lemma ValidLinks(t: Tables)
    requires Valid(t)
    ensures BodiesUnique(t.bodies) && LinksWhole(t.bodies) && LinksUnique(t.bodies)
  {
  }

  // ------------------------------------------------------------------ the groups

  /** The run met a Google that answers definitively and holds the groups' lists; no
      removal fuse tripped, every write landed and the retry slots sufficed; and every
      member it mirrors has one address. */
  ghost predicate Definite(d: Stored, setup: Setup, c: Scene)
    requires Valid(d.t)
  {
    var t, statuses := Swept(d, setup).after.t, ReadStatuses(d.statuses.rows, None, setup.now);
    && Steady(c) && QuietFuses(c) && setup.world == WorldAt(c) && setup.allow == c.allow && setup.writes == EVERY
    && FetchedFrom(setup.fetch(t), t) && OneAddressEach(t)
    && c.audiences == AudiencesOf(setup.fetch(t), setup.main, statuses)
    && forall g, k :: Missing(c, g, k) ==> k !in RunGroups(WorldAt(c), c.audiences, statuses, c.allow).lapsed
  }

  /** The run state of the groups' sweep. */
  function SweepOf(d: Stored, setup: Setup, c: Scene): RunState {
    RunGroups(WorldAt(c), c.audiences, ReadStatuses(d.statuses.rows, None, setup.now), c.allow)
  }

  /** Writing down a run that did nothing changes nothing. */
  lemma NothingWritten(s: RunState, statuses: EmailStatuses, store: StatusStore, writes: Writes, now: int)
    requires NothingDone(s)
    ensures var (after, report) := WriteDown(s, statuses, store, false, writes, now);
            after == store && !report.HasFailures()
  {
    assert NewlyAccepted(s.accepted, statuses) == {};
    assert Remembered(store.rows, {}, writes.accepts, now) == store.rows;
    hide Remembered;
  }

  /** What a definite run wrote, and that its refusal fuse was quiet. */
  lemma DefiniteSweep(d: Stored, setup: Setup, c: Scene, members: seq<Member>, prov: Provision.Provisioner,
      config: Provision.Config)
    requires Valid(d.t) && Clean(d, setup, members, prov, config) && Definite(d, setup, c)
    ensures var s, statuses := SweepOf(d, setup, c), ReadStatuses(d.statuses.rows, None, setup.now);
            && Swept(d, setup).after.statuses == WriteDown(s, statuses, d.statuses, false, EVERY, setup.now).0
            && !RefusalFuse(d.statuses.bootstrapped, News(s.refusals, statuses.Lapsed()))
  {
    CleanStages(d, setup, members, prov, config);
    hide Swept, Valid, PulledIn, Provision.Provision, RunGroups, ReadStatuses, AudiencesOf, EmailStatus.Committed,
        Remembered, Steady, QuietFuses, FetchedFrom, OneAddressEach, News, RefusalFuse, FuseTripped, WellFormed;
    var s, statuses := SweepOf(d, setup, c), ReadStatuses(d.statuses.rows, None, setup.now);
    GreenRun.GreenCommit(d.statuses, s.refusals, statuses.Lapsed(), EVERY.refusals, setup.now);
  }

  /** The next run of the same roster, fetching rows in the same order. */
  ghost predicate Follows(d: Stored, setup: Setup, c: Scene, later: Setup, again: Provision.Provisioner,
      config: Provision.Config)
  {
    && later.roster == setup.roster && later.provisioning == Some((again, config)) && later.fetch == setup.fetch
    && later.main == setup.main && later.allow == setup.allow && later.listerAvailable && !later.dryRun
    && later.world == WorldAt(NextScene(c, SweepOf(d, setup, c)))
    && OneReading(d.statuses.rows, setup.now, later.now)
    && again.has([], setup.main) == Some(true)
    && again.ensure([Provision.Asked(setup.main)], setup.main, config.mainGroupName).Some?
  }

  /** The groups' part of the next run, from the same tables. */
  lemma SweepAgain(d: Stored, setup: Setup, c: Scene, members: seq<Member>, prov: Provision.Provisioner,
      config: Provision.Config, later: Setup, again: Provision.Provisioner, asked: Provision.Calls,
      pull: Option<PullReport>, provision: Option<Provision.ProvisionReport>)
    requires Valid(d.t) && Clean(d, setup, members, prov, config) && Definite(d, setup, c)
    requires Follows(d, setup, c, later, again, config) && !ProvisionFailed(provision)
    ensures var after := Swept(d, setup).after;
            var r := FromStatuses(after, later, asked, pull, provision);
            && r.after == after && r.ending.Reported? && !r.ending.report.HasFailures() && OnlyListings(r.log)
  {
    var after := Swept(d, setup).after;
    var before, statuses :=
        ReadStatuses(d.statuses.rows, None, setup.now), ReadStatuses(after.statuses.rows, None, later.now);
    var next := RunGroups(later.world, c.audiences, statuses, later.allow);
    DefiniteSweep(d, setup, c, members, prov, config);
    CleanStages(d, setup, members, prov, config);
    hide Swept, Valid, FromStatuses, PulledIn, Provision.Provision, RunGroups, ReadStatuses, AudiencesOf, WriteDown,
        FetchedFrom, OneAddressEach, News, RefusalFuse, FuseTripped, WellFormed, Steady, QuietFuses, OneReading,
        Missing, Clean;
    NextRunIsIdle(c, d.statuses, setup.now, later.now);
    AudiencesStay(after.t, setup.fetch(after.t), setup.main, before, statuses);
    NothingWritten(next, statuses, after.statuses, later.writes, later.now);
    IdleReport(after, later, c.audiences, next, asked, pull, provision);
  }

  /** The report of a sweep that did nothing. */
  lemma IdleReport(d: Stored, setup: Setup, audiences: Audiences, s: RunState, asked: Provision.Calls,
      pull: Option<PullReport>, provision: Option<Provision.ProvisionReport>)
    requires setup.listerAvailable && !setup.dryRun && !ProvisionFailed(provision) && NothingDone(s)
    requires var statuses := ReadStatuses(d.statuses.rows, None, setup.now);
             && audiences == AudiencesOf(setup.fetch(d.t), setup.main, statuses)
             && s == RunGroups(setup.world, audiences, statuses, setup.allow)
    ensures var r := FromStatuses(d, setup, asked, pull, provision);
            && r.after == d && r.ending.Reported? && !r.ending.report.HasFailures() && r.log == s.log
  {
    var statuses := ReadStatuses(d.statuses.rows, None, setup.now);
    hide ReadStatuses, AudiencesOf, RunGroups, WriteDown;
    NothingWritten(s, statuses, d.statuses, setup.writes, setup.now);
  }

  /** A run that reported no failure is final. At such a Google the next run of the same
      roster stores exactly what was stored - tables, marker and statuses - lists the
      groups, makes no membership call, and reports no failure. */
  lemma CleanRunIsFinal(d: Stored, setup: Setup, c: Scene, members: seq<Member>, prov: Provision.Provisioner,
      config: Provision.Config, later: Setup, again: Provision.Provisioner)
    requires Valid(d.t) && Clean(d, setup, members, prov, config) && Definite(d, setup, c)
    requires Follows(d, setup, c, later, again, config)
    ensures Valid(Swept(d, setup).after.t)
    ensures var after := Swept(d, setup).after;
            var r := Swept(after, later);
            && r.after == after && r.ending.Reported? && !r.ending.report.HasFailures() && OnlyListings(r.log)
  {
    var after, mid := Swept(d, setup).after, Pulled(d, setup);
    PullAgain(d, setup, members, prov, config);
    CleanStages(d, setup, members, prov, config);
    ValidLinks(mid);
    ValidBodies(after.t);
    assert later.roster == Some(members);
    hide Swept, Valid, FromStatuses, PulledIn, Provision.Provision, FuseTripped, WellFormed, Definite, Pulled;
    Provision.SuccessIsFinal(prov, mid.bodies, d.provisioned, config, setup.main, again, false);
    var p := Provision.Provision(again, after.t.bodies, after.provisioned, config, setup.main, false);
    var pull := PulledIn(after.t, members, false).report;
    SweepAgain(d, setup, c, members, prov, config, later, again, p.log, Some(pull), Some(p.report));
    StagesFollow(after, later, members, again, config);
  }

  /** A run whose pull and provisioning leave the tables alone is its sweep. */
  lemma StagesFollow(d: Stored, setup: Setup, members: seq<Member>, prov: Provision.Provisioner,
      config: Provision.Config)
    requires Valid(d.t) && setup.roster == Some(members) && setup.provisioning == Some((prov, config)) && !setup.dryRun
    requires var pulled := PulledIn(d.t, members, false);
             pulled.Committed? && pulled.t == d.t && pulled.report.lapseRefused == 0
    requires BodiesUnique(d.t.bodies)
    requires var p := Provision.Provision(prov, d.t.bodies, d.provisioned, config, setup.main, false);
             p.Provisioned? && p.bodies == d.t.bodies && p.bootstrapped == d.provisioned
    ensures var p := Provision.Provision(prov, d.t.bodies, d.provisioned, config, setup.main, false);
            Swept(d, setup) ==
                FromStatuses(d, setup, p.log, Some(PulledIn(d.t, members, false).report), Some(p.report))
  {
    hide Valid, PulledIn, Provision.Provision, FromStatuses;
    assert d.(t := d.t.(bodies := d.t.bodies), provisioned := d.provisioned) == d;
  }

  // ------------------------------------------------------------ the drain's runs

  /** A run of a drain over the audiences of tables in which every member has one address
      is a whole run over those tables without pull or provisioning: whatever it finds on
      record, it reads the same audiences. */
  lemma DrainRunIsSwept(d: RetryDrain.Standing, env: RetryDrain.Setting, stored: Stored, setup: Setup,
      any: EmailStatuses)
    requires Valid(stored.t) && FetchedFrom(setup.fetch(stored.t), stored.t) && OneAddressEach(stored.t)
    requires env.audiences == AudiencesOf(setup.fetch(stored.t), setup.main, any) && stored.statuses == d.store
    requires setup.roster.None? && setup.provisioning.None? && setup.listerAvailable && !setup.dryRun
    requires setup.writes == EVERY && setup.allow == env.allow && setup.world == WorldAt(RetryDrain.SceneOf(env, d))
    ensures var r := Swept(stored, setup);
            && r.after == stored.(statuses := RetryDrain.RunOnce(env, d, setup.now).store)
            && r.log == RetryDrain.EndOfRun(env, d, setup.now).log
  {
    hide Valid, ReadStatuses, AudiencesOf, RunGroups, WriteDown, FetchedFrom, OneAddressEach;
    AudiencesStay(stored.t, setup.fetch(stored.t), setup.main, any, ReadStatuses(d.store.rows, None, setup.now));
  }
}
