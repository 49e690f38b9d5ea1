/** Whole histories of the membership tables: pulls, panel writes and provisioning
    in any order, each committed before the next begins. */
module History {
  import opened Basics
  import opened Database
  import opened RosterPull
  import opened RosterKeeps
  import RosterFixpoint
  import opened Panel
  import opened Provision

  // --------------------------------------------------------------- histories

  /** One committed change. A provisioning run carries Google's answers with it. */
  datatype Step =
    | PullStep(members: seq<Member>, dryRun: bool)
    | AddStep(body: Uuid, member: Uuid, addedBy: Uuid, now: int)
    | RemoveStep(body: Uuid, member: Uuid)
    | ProvisionStep(prov: Provisioner, bootstrapped: bool, config: Config, main: Email, rehearsal: bool)

  function After(t: Tables, step: Step): Tables
    requires Valid(t)
  {
    match step
    case PullStep(members, dryRun) =>
      var r := PulledIn(t, members, dryRun);
      if r.Committed? then r.t else t
    case AddStep(body, member, addedBy, now) => Added(t, body, member, addedBy, now).0
    case RemoveStep(body, member) => RemovedFrom(t, body, member).0
    case ProvisionStep(prov, bootstrapped, config, main, rehearsal) =>
      var r := Provision.Provision(prov, t.bodies, bootstrapped, config, main, rehearsal);
      if r.Provisioned? then t.(bodies := r.bodies) else t
  }

  lemma StepKeepsValid(t: Tables, step: Step)
    requires Valid(t)
    ensures Valid(After(t, step))
  {
    match step
    case PullStep(members, dryRun) =>
      if PulledIn(t, members, dryRun).Committed? { RosterFixpoint.PullKeepsValid(t, members, dryRun); }
    case AddStep(body, member, addedBy, now) => AddedKeepsValid(t, body, member, addedBy, now);
    case RemoveStep(body, member) => RemovedKeepsValid(t, body, member);
    case ProvisionStep(prov, bootstrapped, config, main, rehearsal) =>
      ProvisionKeepsValid(t, prov, bootstrapped, config, main, rehearsal);
  }

  lemma ProvisionKeepsValid(t: Tables, prov: Provisioner, bootstrapped: bool, config: Config, main: Email,
      rehearsal: bool)
    requires Valid(t)
    ensures var r := Provision.Provision(prov, t.bodies, bootstrapped, config, main, rehearsal);
            r.Provisioned? ==> Valid(t.(bodies := r.bodies))
  {
    hide Provision.Provision, MembersUnique, BodiesUnique, LinksUnique, LinksWhole;
    LinksNeverRepointed(prov, t.bodies, bootstrapped, config, main, rehearsal);
  }

  /** A history, first step first. */
  function Run(t: Tables, steps: seq<Step>): (r: Tables)
    requires Valid(t)
    ensures Valid(r)
    decreases |steps|
  {
    if steps == [] then t
    else
      StepKeepsValid(t, steps[0]);
      Run(After(t, steps[0]), steps[1..])
  }

  /** The row that stands for `id` after one step. */
  function HeirAfter(t: Tables, step: Step, id: Uuid): Uuid
    requires Valid(t)
  {
    if step.PullStep? && PulledIn(t, step.members, step.dryRun).Committed?
    then HeirOf(Looped(t, step.members, step.dryRun).heirs, id)
    else id
  }

  function HeirOver(t: Tables, steps: seq<Step>, id: Uuid): Uuid
    requires Valid(t)
    decreases |steps|
  {
    if steps == [] then id
    else
      StepKeepsValid(t, steps[0]);
      HeirOver(After(t, steps[0]), steps[1..], HeirAfter(t, steps[0], id))
  }

  ghost predicate BannedVia(t: Tables, step: Step, i: Uuid, j: Uuid)
    requires Valid(t)
  {
    i in t.bans && HeirAfter(t, step, i) == j
  }

  ghost predicate BannedOver(t: Tables, steps: seq<Step>, i: Uuid, j: Uuid)
    requires Valid(t)
  {
    i in t.bans && HeirOver(t, steps, i) == j
  }

  lemma PulledInBans(t: Tables, members: seq<Member>, dryRun: bool)
    requires Valid(t) && PulledIn(t, members, dryRun).Committed?
    ensures PulledIn(t, members, dryRun).t.bans == Looped(t, members, dryRun).t.bans
  {
    hide MembersUnique, BodiesUnique, MembershipsRefer, Looped, Absent;
  }

  lemma PullStepKeepsBans(t: Tables, step: Step)
    requires Valid(t) && step.PullStep? && PulledIn(t, step.members, step.dryRun).Committed?
    ensures forall i :: i in t.bans ==> HeirAfter(t, step, i) in After(t, step).bans
    ensures forall j :: j in After(t, step).bans ==> exists i :: BannedVia(t, step, i, j)
  {
    hide Valid, Looped, PulledIn, KeepsMembers, KeepsMemberships, KeepsBodies;
    LoopKeeps(t, step.members, step.dryRun);
    var s := Looped(t, step.members, step.dryRun);
    PulledInBans(t, step.members, step.dryRun);
    assert After(t, step).bans == s.t.bans;
    forall j | j in s.t.bans ensures exists i :: BannedVia(t, step, i, j) {
      var i :| BanFrom(t.bans, s.heirs, i, j, s.t.bans[j]);
      assert BannedVia(t, step, i, j);
    }
  }

  lemma StepKeepsBans(t: Tables, step: Step)
    requires Valid(t)
    ensures forall i :: i in t.bans ==> HeirAfter(t, step, i) in After(t, step).bans
    ensures forall j :: j in After(t, step).bans ==> exists i :: BannedVia(t, step, i, j)
  {
    hide Valid, PulledIn, Provision.Provision;
    if step.PullStep? && PulledIn(t, step.members, step.dryRun).Committed? {
      PullStepKeepsBans(t, step);
    } else {
      assert forall j :: j in t.bans ==> BannedVia(t, step, j, j);
    }
  }

  /** No history of pulls and panel writes lifts a ban or invents one: the banned
      rows at its end are exactly the heirs of the rows banned at its start. */
  lemma {:induction false} BansOutlastHistory(t: Tables, steps: seq<Step>)
    requires Valid(t)
    ensures forall i :: i in t.bans ==> HeirOver(t, steps, i) in Run(t, steps).bans
    ensures forall j :: j in Run(t, steps).bans ==> exists i :: BannedOver(t, steps, i, j)
    decreases |steps|
  {
    hide Valid, After, HeirAfter;
    if steps != [] {
      StepKeepsBans(t, steps[0]);
      StepKeepsValid(t, steps[0]);
      var next := After(t, steps[0]);
      BansOutlastHistory(next, steps[1..]);
      assert Run(t, steps) == Run(next, steps[1..]);
      assert forall i :: HeirOver(t, steps, i) == HeirOver(next, steps[1..], HeirAfter(t, steps[0], i));
      forall j | j in Run(t, steps).bans ensures exists i :: BannedOver(t, steps, i, j) {
        var h :| BannedOver(next, steps[1..], h, j);
        var i :| BannedVia(t, steps[0], i, h);
        assert BannedOver(t, steps, i, j);
      }
    } else {
      assert forall j :: j in t.bans ==> BannedOver(t, steps, j, j);
    }
  }

  // ---------------------------------------------------------------- links last

  lemma PulledInBodies(t: Tables, members: seq<Member>, dryRun: bool)
    requires Valid(t) && PulledIn(t, members, dryRun).Committed?
    ensures KeepsBodies(t.bodies, PulledIn(t, members, dryRun).t.bodies)
  {
    LoopKeeps(t, members, dryRun);
    hide Valid, Looped, Absent, KeepsMembers, KeepsBans, KeepsMemberships;
  }

  ghost predicate KeepsLinked(bodies: map<Uuid, BodyRow>, r: map<Uuid, BodyRow>) {
    forall b :: b in bodies && IsLinked(bodies[b]) ==> b in r && r[b] == bodies[b]
  }

  lemma PanelKeepsBodies(t: Tables, body: Uuid, member: Uuid, addedBy: Uuid, now: int)
    ensures Added(t, body, member, addedBy, now).0.bodies == t.bodies
    ensures RemovedFrom(t, body, member).0.bodies == t.bodies
  {
  }

  lemma ProvisionKeepsLinked(t: Tables, prov: Provisioner, bootstrapped: bool, config: Config, main: Email,
      rehearsal: bool)
    requires Valid(t)
    ensures var r := Provision.Provision(prov, t.bodies, bootstrapped, config, main, rehearsal);
            r.Provisioned? ==> KeepsLinked(t.bodies, r.bodies)
  {
    LinksNeverRepointed(prov, t.bodies, bootstrapped, config, main, rehearsal);
    hide Provision.Provision, MembersUnique, MembershipsRefer;
  }

  lemma StepKeepsLinks(t: Tables, step: Step)
    requires Valid(t)
    ensures KeepsLinked(t.bodies, After(t, step).bodies)
  {
    hide Provision.Provision, Added, RemovedFrom, Valid, PulledIn;
    match step
    case PullStep(members, dryRun) =>
      if PulledIn(t, members, dryRun).Committed? { PulledInBodies(t, members, dryRun); }
    case AddStep(body, member, addedBy, now) => PanelKeepsBodies(t, body, member, addedBy, now);
    case RemoveStep(body, member) => PanelKeepsBodies(t, body, member, 0, 0);
    case ProvisionStep(prov, bootstrapped, config, main, rehearsal) =>
      ProvisionKeepsLinked(t, prov, bootstrapped, config, main, rehearsal);
  }

  /** No history of pulls, panel writes and provisioning runs ever repoints a linked
      body: once linked, its row never changes again. */
  lemma {:induction false} LinksOutlastHistory(t: Tables, steps: seq<Step>, b: Uuid)
    requires Valid(t) && b in t.bodies && IsLinked(t.bodies[b])
    ensures b in Run(t, steps).bodies && Run(t, steps).bodies[b] == t.bodies[b]
    decreases |steps|
  {
    hide Valid, After;
    if steps != [] {
      StepKeepsLinks(t, steps[0]);
      StepKeepsValid(t, steps[0]);
      LinksOutlastHistory(After(t, steps[0]), steps[1..], b);
      assert Run(t, steps) == Run(After(t, steps[0]), steps[1..]);
    }
  }
}
