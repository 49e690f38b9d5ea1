/** Provisioning: every unlinked body's two groups and the main group are created
    or adopted at Google and linked, under a creation cap that arms itself. */
module Provision {
  import opened Basics
  import opened Database
  import opened Naming

  const SECURE_SETTINGS: map<string, string> := map[
    "whoCanJoin" := "INVITED_CAN_JOIN", "whoCanViewMembership" := "ALL_OWNERS_CAN_VIEW",
    "whoCanViewGroup" := "ALL_OWNERS_CAN_VIEW", "whoCanInvite" := "ALL_OWNERS_CAN_INVITE",
    "whoCanAdd" := "ALL_OWNERS_CAN_ADD", "whoCanPostMessage" := "ALL_OWNERS_CAN_POST",
    "whoCanLeaveGroup" := "NONE_CAN_LEAVE", "whoCanContactOwner" := "ALL_OWNERS_CAN_CONTACT",
    "allowExternalMembers" := "false", "allowWebPosting" := "false",
    "showInGroupDirectory" := "false", "includeInGlobalAddressList" := "false",
    "membersCanPostAsTheGroup" := "false", "messageModerationLevel" := "MODERATE_ALL_MESSAGES",
    "spamModerationLevel" := "REJECT"]

  const SECURITY_LABELS: map<string, string> := map[
    "cloudidentity.googleapis.com/groups.discussion_forum" := "",
    "cloudidentity.googleapis.com/groups.security" := ""]

  datatype Config = Config(domain: string, mainGroupName: string, cap: nat)

  datatype Seen = Seen(settings: map<string, string>, labels: map<string, string>)

  datatype Call = Asked(email: Email) | Ensured(email: Email, name: string)

  type Calls = seq<Call>

  /** Google's answers. `None` is an HTTP error: `exists` lets it end the run, a
      failed `ensure` is counted and passed over. */
  datatype Provisioner = Provisioner(
    has: (Calls, Email) -> Option<bool>,
    ensure: (Calls, Email, string) -> Option<Seen>)

  datatype ProvisionReport = ProvisionReport(
    created: nat, adopted: nat, alreadyLinked: nat, diverged: nat, refusedOverCap: nat, failed: nat)
  {
    predicate HasFailures() {
      failed > 0 || refusedOverCap > 0
    }
  }

  /** A group to ensure, for a body or, with no `body`, the main group. */
  datatype PlannedGroup = PlannedGroup(email: Email, name: string, body: Option<Uuid>, kind: GroupKind)

  // ----------------------------------------------------------------- the plan

  predicate IsLinked(body: BodyRow) {
    body.leaderGroup.Some? && body.memberGroup.Some?
  }

  predicate ByTypeThenName(bodies: map<Uuid, BodyRow>, a: Uuid, b: Uuid) {
    && a in bodies && b in bodies
    && if bodies[a].bodyType == bodies[b].bodyType then LexLeq(bodies[a].name, bodies[b].name)
       else LexLeq(bodies[a].bodyType, bodies[b].bodyType)
  }

  lemma ByTypeThenNameTotal(bodies: map<Uuid, BodyRow>)
    requires BodiesUnique(bodies)
    ensures TotalOn((a, b) => ByTypeThenName(bodies, a, b), bodies.Keys)
  {
    LexIsTotal({});
    forall x: string, y: string ensures LexLeq(x, y) || LexLeq(y, x) { LexTotal(x, y); }
    forall x, y | LexLeq(x, y) && LexLeq(y, x) ensures x == y { LexAntisymmetric(x, y); }
    forall x, y, z | LexLeq(x, y) && LexLeq(y, z) ensures LexLeq(x, z) { LexTransitive(x, y, z); }
    hide LexLeq;
  }

  /** `all_bodies`: ORDER BY body_type, name. */
  function AllBodies(bodies: map<Uuid, BodyRow>): (r: seq<Uuid>)
    requires BodiesUnique(bodies)
    ensures NoDup(r) && forall b :: b in r <==> b in bodies
  {
    ByTypeThenNameTotal(bodies);
    var r := Sorted((a, b) => ByTypeThenName(bodies, a, b), bodies.Keys);
    assert forall b :: b in r <==> b in ToSet(r);
    r
  }

  function PlanKind(id: Uuid, body: BodyRow, kind: GroupKind, config: Config): Option<PlannedGroup> {
    var email, name :=
        GroupEmail(body.name, body.bodyType, kind, config.domain), GroupLabel(body.name, body.bodyType, kind);
    if email.Some? && name.Some? then Some(PlannedGroup(email.value, name.value, Some(id), kind)) else None
  }

  /** `_plan_body`: leaders then editors; `None` when a name overflows a cap. */
  function PlanBody(id: Uuid, body: BodyRow, config: Config): (r: Option<seq<PlannedGroup>>)
    ensures r.Some? ==> |r.value| == 2 && r.value[0].body == r.value[1].body == Some(id)
                        && r.value[0].kind == Leaders && r.value[1].kind == Editors
  {
    var l, e := PlanKind(id, body, Leaders, config), PlanKind(id, body, Editors, config);
    if l.Some? && e.Some? then Some([l.value, e.value]) else None
  }

  datatype Pending = Pending(groups: seq<PlannedGroup>, nameFailures: nat)

  function PlanNext(bodies: map<Uuid, BodyRow>, id: Uuid, config: Config, p: Pending): Pending
    requires id in bodies
  {
    if IsLinked(bodies[id]) then p
    else match PlanBody(id, bodies[id], config)
      case Some(groups) => p.(groups := p.groups + groups)
      case None => p.(nameFailures := p.nameFailures + 1)
  }

  function PlanEach(bodies: map<Uuid, BodyRow>, ids: seq<Uuid>, config: Config, p: Pending): Pending
    requires forall id :: id in ids ==> id in bodies
  {
    if ids == [] then p
    else PlanNext(bodies, ids[|ids| - 1], config, PlanEach(bodies, ids[..|ids| - 1], config, p))
  }

  /** `_plan_pending`: the main group first, then every unlinked body's pair. */
  function PlanPending(bodies: map<Uuid, BodyRow>, config: Config, main: Email): Pending
    requires BodiesUnique(bodies)
  {
    PlanEach(bodies, AllBodies(bodies), config, Pending([PlannedGroup(main, config.mainGroupName, None, Leaders)], 0))
  }

  function AlreadyLinked(bodies: map<Uuid, BodyRow>): nat {
    |set b | b in bodies && IsLinked(bodies[b])|
  }

  predicate TripwireRefuses(bootstrapped: bool, creations: nat, cap: nat) {
    bootstrapped && creations > cap
  }

  /** `_diverged`. */
  predicate Diverged(seen: Seen) {
    !((forall k :: k in SECURE_SETTINGS ==> k in seen.settings && seen.settings[k] == SECURE_SETTINGS[k])
      && seen.labels == SECURITY_LABELS)
  }

  // -------------------------------------------------------------- asking Google

  /** Which pending groups do not exist yet; `None` when an answer failed. */
  datatype Sizing = Sizing(log: Calls, missing: seq<PlannedGroup>, aborted: bool)

  function SizeUp(prov: Provisioner, groups: seq<PlannedGroup>, s: Sizing): Sizing
    decreases |groups|
  {
    if groups == [] || s.aborted then s
    else
      var answer := prov.has(s.log, groups[0].email);
      var asked := s.(log := s.log + [Asked(groups[0].email)]);
      SizeUp(prov, groups[1..],
        match answer
        case None => asked.(aborted := true)
        case Some(found) => if found then asked else asked.(missing := s.missing + [groups[0]]))
  }

  type Links = map<Uuid, map<GroupKind, Email>>

  datatype Ensuring = Ensuring(
    log: Calls, created: nat, adopted: nat, diverged: nat, failed: nat, order: seq<Uuid>, links: Links)

  function AddLink(e: Ensuring, id: Uuid, kind: GroupKind, email: Email): Ensuring {
    if id in e.links then e.(links := e.links[id := e.links[id][kind := email]])
    else e.(order := e.order + [id], links := e.links[id := map[kind := email]])
  }

  function EnsureOne(prov: Provisioner, group: PlannedGroup, creating: set<Email>, e: Ensuring): Ensuring {
    var seen := prov.ensure(e.log, group.email, group.name);
    var asked := e.(log := e.log + [Ensured(group.email, group.name)]);
    match seen
    case None => asked.(failed := e.failed + 1)
    case Some(found) =>
      var counted :=
        if group.email in creating then asked.(created := e.created + 1)
        else asked.(adopted := e.adopted + 1, diverged := if Diverged(found) then e.diverged + 1 else e.diverged);
      if group.body.Some? then AddLink(counted, group.body.value, group.kind, group.email) else counted
  }

  function EnsureEach(prov: Provisioner, groups: seq<PlannedGroup>, creating: set<Email>, e: Ensuring): Ensuring {
    if groups == [] then e
    else EnsureOne(prov, groups[|groups| - 1], creating, EnsureEach(prov, groups[..|groups| - 1], creating, e))
  }

  // ------------------------------------------------------------------- linking

  datatype LinkOutcome = Linked | NoSuchBody | LinkTaken | HalfLink

  /** Another body holds the address in the same column. */
  predicate Taken(bodies: map<Uuid, BodyRow>, id: Uuid, leader: Option<Email>, member: Option<Email>) {
    exists b :: b in bodies && b != id &&
      ((leader.Some? && bodies[b].leaderGroup == leader) || (member.Some? && bodies[b].memberGroup == member))
  }

  /** `set_body_link`: refused by the UNIQUE columns or by `linked_pair`. */
  function SetBodyLink(bodies: map<Uuid, BodyRow>, id: Uuid, leader: Option<Email>,
      member: Option<Email>): (map<Uuid, BodyRow>, LinkOutcome) {
    if id !in bodies then (bodies, NoSuchBody)
    else if leader.Some? != member.Some? then (bodies, HalfLink)
    else if Taken(bodies, id, leader, member) then (bodies, LinkTaken)
    else (bodies[id := bodies[id].(leaderGroup := leader, memberGroup := member)], Linked)
  }

  datatype Linking = Linking(bodies: map<Uuid, BodyRow>, failed: nat)

  function LinkOne(links: Links, id: Uuid, dryRun: bool, l: Linking): Linking
    requires id in links
  {
    if Leaders !in links[id] || Editors !in links[id] then l.(failed := l.failed + 1)
    else if dryRun then l
    else
      var (bodies, outcome) := SetBodyLink(l.bodies, id, Some(links[id][Leaders]), Some(links[id][Editors]));
      Linking(bodies, if outcome.LinkTaken? then l.failed + 1 else l.failed)
  }

  function LinkEach(links: Links, order: seq<Uuid>, dryRun: bool, l: Linking): Linking
    requires forall id :: id in order ==> id in links
  {
    if order == [] then l
    else LinkOne(links, order[|order| - 1], dryRun, LinkEach(links, order[..|order| - 1], dryRun, l))
  }

  // ------------------------------------------------------------------- the run

  /** What provisioning leaves: the bodies, the marker, the calls and the report.
      `Aborted` is an existence question Google would not answer. */
  datatype Provisioned =
    | Aborted(log: Calls)
    | Provisioned(bodies: map<Uuid, BodyRow>, bootstrapped: bool, log: Calls, report: ProvisionReport)

  function Emails(groups: seq<PlannedGroup>): set<Email> {
    set g | g in groups :: g.email
  }

  function StartEnsuring(log: Calls, failed: nat): Ensuring {
    Ensuring(log, 0, 0, 0, failed, [], map[])
  }

  lemma {:induction false} OrderIsLinks(prov: Provisioner, groups: seq<PlannedGroup>, creating: set<Email>, e: Ensuring)
    requires NoDup(e.order) && forall id :: id in e.order <==> id in e.links
    ensures var r := EnsureEach(prov, groups, creating, e);
        NoDup(r.order) && forall id :: id in r.order <==> id in r.links
  {
    if groups != [] {
      var n := |groups| - 1;
      OrderIsLinks(prov, groups[..n], creating, e);
      hide EnsureOne;
      OrderIsLinksOnce(prov, groups[n], creating, EnsureEach(prov, groups[..n], creating, e));
    }
  }

  lemma OrderIsLinksOnce(prov: Provisioner, group: PlannedGroup, creating: set<Email>, e: Ensuring)
    requires NoDup(e.order) && forall id :: id in e.order <==> id in e.links
    ensures var r := EnsureOne(prov, group, creating, e);
        NoDup(r.order) && forall id :: id in r.order <==> id in r.links
  {
    hide Diverged;
  }

  function Provision(prov: Provisioner, bodies: map<Uuid, BodyRow>, bootstrapped: bool, config: Config, main: Email,
      dryRun: bool): Provisioned
    requires BodiesUnique(bodies)
  {
    var pending := PlanPending(bodies, config, main);
    var sized := SizeUp(prov, pending.groups, Sizing([], [], false));
    if sized.aborted then Aborted(sized.log)
    else if TripwireRefuses(bootstrapped, |sized.missing|, config.cap) then
      Provisioned(bodies, bootstrapped, sized.log,
                  ProvisionReport(0, 0, AlreadyLinked(bodies), 0, |sized.missing|, pending.nameFailures))
    else
      var e := EnsureEach(prov, pending.groups, Emails(sized.missing), StartEnsuring(sized.log, pending.nameFailures));
      OrderIsLinks(prov, pending.groups, Emails(sized.missing), StartEnsuring(sized.log, pending.nameFailures));
      var l := LinkEach(e.links, e.order, dryRun, Linking(bodies, e.failed));
      Provisioned(l.bodies, bootstrapped || (e.created > 0 && !dryRun), e.log,
                  ProvisionReport(e.created, e.adopted, AlreadyLinked(bodies), e.diverged, 0, l.failed))
  }

  // ------------------------------------------------------------------ in place

  /** The link table and the marker, as provisioning updates them. */
  class Provisioning {
    var bodies: map<Uuid, BodyRow>
    var bootstrapped: bool
    var log: Calls

    constructor (bodies: map<Uuid, BodyRow>, bootstrapped: bool)
      ensures this.bodies == bodies && this.bootstrapped == bootstrapped && log == []
    {
      this.bodies, this.bootstrapped, log := bodies, bootstrapped, [];
    }

    /** `_plan_pending`. */
    method Plan(config: Config, main: Email) returns (pending: Pending)
      requires BodiesUnique(bodies)
      ensures pending == PlanPending(bodies, config, main)
    {
      hide PlanBody, AllBodies, BodiesUnique, IsLinked;
      var ids := AllBodies(bodies);
      pending := Pending([PlannedGroup(main, config.mainGroupName, None, Leaders)], 0);
      ghost var start := pending;
      for k := 0 to |ids|
        invariant pending == PlanEach(bodies, ids[..k], config, start)
      {
        assert ids[..k + 1][..k] == ids[..k];
        if !IsLinked(bodies[ids[k]]) {
          var planned := PlanBody(ids[k], bodies[ids[k]], config);
          match planned
          case Some(groups) => pending := pending.(groups := pending.groups + groups);
          case None => pending := pending.(nameFailures := pending.nameFailures + 1);
        }
      }
      assert ids[..|ids|] == ids;
    }

    /** `_link_bodies`: a clash or a missing side is one failure, never a repoint. */
    method LinkBodies(links: Links, order: seq<Uuid>, failed: nat, dryRun: bool) returns (r: nat)
      requires forall id :: id in order ==> id in links
      modifies `bodies
      ensures Linking(bodies, r) == LinkEach(links, order, dryRun, Linking(old(bodies), failed))
    {
      r := failed;
      for k := 0 to |order|
        invariant Linking(bodies, r) == LinkEach(links, order[..k], dryRun, Linking(old(bodies), failed))
      {
        assert order[..k + 1][..k] == order[..k];
        var id := order[k];
        if Leaders !in links[id] || Editors !in links[id] {
          r := r + 1;
        } else if !dryRun {
          var (linked, outcome) := SetBodyLink(bodies, id, Some(links[id][Leaders]), Some(links[id][Editors]));
          bodies := linked;
          if outcome.LinkTaken? {
            r := r + 1;
          }
        }
      }
      assert order[..|order|] == order;
    }

    /** Asks, for each pending group, whether it exists. */
    method Size(prov: Provisioner, groups: seq<PlannedGroup>) returns (missing: seq<PlannedGroup>, aborted: bool)
      modifies `log
      ensures Sizing(log, missing, aborted) == SizeUp(prov, groups, Sizing(old(log), [], false))
    {
      missing, aborted := [], false;
      var rest := groups;
      while rest != []
        invariant !aborted
        invariant SizeUp(prov, rest, Sizing(log, missing, false)) == SizeUp(prov, groups, Sizing(old(log), [], false))
        decreases |rest|
      {
        var answer := prov.has(log, rest[0].email);
        log := log + [Asked(rest[0].email)];
        if answer.None? {
          aborted := true;
          return;
        }
        if !answer.value {
          missing := missing + [rest[0]];
        }
        rest := rest[1..];
      }
    }

    /** Ensures each pending group in turn, failures counted and passed over. */
    method Ensure(prov: Provisioner, groups: seq<PlannedGroup>, creating: set<Email>, failed: nat) returns (e: Ensuring)
      modifies `log
      ensures e == EnsureEach(prov, groups, creating, StartEnsuring(old(log), failed)) && log == e.log
    {
      e := StartEnsuring(log, failed);
      for k := 0 to |groups|
        invariant e == EnsureEach(prov, groups[..k], creating, StartEnsuring(old(log), failed))
        invariant log == e.log
      {
        assert groups[..k + 1][..k] == groups[..k];
        e := EnsureOne(prov, groups[k], creating, e);
        log := e.log;
      }
      assert groups[..|groups|] == groups;
    }

    /** `_provision`. */
    method Run(prov: Provisioner, config: Config, main: Email, dryRun: bool) returns (report: Option<ProvisionReport>)
      requires BodiesUnique(bodies) && log == []
      modifies this
      ensures var r := Provision(prov, old(bodies), old(bootstrapped), config, main, dryRun);
              && log == r.log
              && (r.Aborted? ==> report == None && bodies == old(bodies) && bootstrapped == old(bootstrapped))
              && (r.Provisioned? ==> report == Some(r.report) && bodies == r.bodies && bootstrapped == r.bootstrapped)
    {
      hide PlanPending, SizeUp, EnsureEach, LinkEach, Emails, BodiesUnique, AlreadyLinked;
      var alreadyLinked := AlreadyLinked(bodies);
      var pending := Plan(config, main);
      var missing, aborted := Size(prov, pending.groups);
      if aborted {
        return None;
      }
      if TripwireRefuses(bootstrapped, |missing|, config.cap) {
        return Some(ProvisionReport(0, 0, alreadyLinked, 0, |missing|, pending.nameFailures));
      }
      OrderIsLinks(prov, pending.groups, Emails(missing), StartEnsuring(log, pending.nameFailures));
      var e := Ensure(prov, pending.groups, Emails(missing), pending.nameFailures);
      var failed := LinkBodies(e.links, e.order, e.failed, dryRun);
      if !bootstrapped && e.created > 0 && !dryRun {
        bootstrapped := true;
      }
      report := Some(ProvisionReport(e.created, e.adopted, alreadyLinked, e.diverged, 0, failed));
    }
  }

  // ------------------------------------------------------------- what a plan is

  ghost predicate Planned(groups: seq<PlannedGroup>, id: Uuid, kind: GroupKind) {
    exists g :: g in groups && g.body == Some(id) && g.kind == kind
  }

  /** The pending groups: the main one, and pairs of unlinked bodies. */
  ghost predicate PlansUnlinked(bodies: map<Uuid, BodyRow>, ids: seq<Uuid>, p: Pending) {
    && (forall g ::
           g in p.groups && g.body.Some? ==>
           g.body.value in ids && g.body.value in bodies && !IsLinked(bodies[g.body.value]))
    && (p.nameFailures == 0 ==> forall id :: id in ids && id in bodies && !IsLinked(bodies[id]) ==>
          Planned(p.groups, id, Leaders) && Planned(p.groups, id, Editors))
  }

  lemma {:induction false} PlanEachUnlinked(bodies: map<Uuid, BodyRow>, ids: seq<Uuid>, config: Config, p: Pending)
    requires (forall id :: id in ids ==> id in bodies) && p.nameFailures == 0
        && forall g :: g in p.groups ==> g.body.None?
    ensures PlansUnlinked(bodies, ids, PlanEach(bodies, ids, config, p))
  {
    if ids != [] {
      var n, last := |ids| - 1, ids[|ids| - 1];
      PlanEachUnlinked(bodies, ids[..n], config, p);
      assert ids == ids[..n] + [last];
      PlanNextUnlinked(bodies, ids[..n], last, config, PlanEach(bodies, ids[..n], config, p));
    }
  }

  lemma PlanNextUnlinked(bodies: map<Uuid, BodyRow>, ids: seq<Uuid>, last: Uuid, config: Config, p: Pending)
    requires last in bodies && PlansUnlinked(bodies, ids, p)
    ensures PlansUnlinked(bodies, ids + [last], PlanNext(bodies, last, config, p))
  {
    var r := PlanNext(bodies, last, config, p);
    if r.nameFailures == 0 {
      forall id | id in ids + [last] && id in bodies && !IsLinked(bodies[id])
        ensures Planned(r.groups, id, Leaders) && Planned(r.groups, id, Editors)
      {
        if id in ids {
          PlannedMore(p.groups, r.groups, id, Leaders);
          PlannedMore(p.groups, r.groups, id, Editors);
        } else {
          var groups := PlanBody(last, bodies[last], config).value;
          assert groups[0] in r.groups && groups[1] in r.groups;
        }
      }
    }
  }

  lemma PlannedMore(groups: seq<PlannedGroup>, more: seq<PlannedGroup>, id: Uuid, kind: GroupKind)
    requires Planned(groups, id, kind) && groups <= more
    ensures Planned(more, id, kind)
  {
    var g :| g in groups && g.body == Some(id) && g.kind == kind;
    assert g in more;
  }

  lemma PendingUnlinked(bodies: map<Uuid, BodyRow>, config: Config, main: Email)
    requires BodiesUnique(bodies)
    ensures PlansUnlinked(bodies, AllBodies(bodies), PlanPending(bodies, config, main))
  {
    PlanEachUnlinked(bodies, AllBodies(bodies), config,
        Pending([PlannedGroup(main, config.mainGroupName, None, Leaders)], 0));
  }

  // ------------------------------------------------------------------- the cap

  lemma {:induction false} SizedUp(prov: Provisioner, groups: seq<PlannedGroup>, s: Sizing)
    ensures var r := SizeUp(prov, groups, s);
            && |s.missing| <= |r.missing| && s.log <= r.log
            && (forall i :: |s.log| <= i < |r.log| ==> r.log[i].Asked?)
    decreases |groups|
  {
    if groups != [] && !s.aborted {
      var answer := prov.has(s.log, groups[0].email);
      var asked := s.(log := s.log + [Asked(groups[0].email)]);
      var next := match answer
        case None => asked.(aborted := true)
        case Some(found) => if found then asked else asked.(missing := s.missing + [groups[0]]);
      SizedUp(prov, groups[1..], next);
    }
  }

  lemma {:induction false} EmailsSize(groups: seq<PlannedGroup>)
    ensures |Emails(groups)| <= |groups|
  {
    if groups == [] {
      assert Emails(groups) == {};
    } else {
      var n := |groups| - 1;
      EmailsSize(groups[..n]);
      assert groups == groups[..n] + [groups[n]];
      assert Emails(groups) == Emails(groups[..n]) + {groups[n].email};
    }
  }

  function Questions(groups: seq<PlannedGroup>): Calls {
    seq(|groups|, k requires 0 <= k < |groups| => Asked(groups[k].email))
  }

  function Ensures(groups: seq<PlannedGroup>): Calls {
    seq(|groups|, k requires 0 <= k < |groups| => Ensured(groups[k].email, groups[k].name))
  }

  /** What Google said when asked about the k-th pending group. */
  function Answer(prov: Provisioner, groups: seq<PlannedGroup>, k: nat): Option<bool>
    requires k < |groups|
  {
    prov.has(Questions(groups[..k]), groups[k].email)
  }

  /** Google ensured the k-th pending group, once it had been asked about them all. */
  predicate EnsuredAt(prov: Provisioner, groups: seq<PlannedGroup>, k: nat)
    requires k < |groups|
  {
    prov.ensure(Questions(groups) + Ensures(groups[..k]), groups[k].email, groups[k].name).Some?
  }

  /** Google has said, about some pending group, that nothing exists at this address. */
  ghost predicate SaidMissing(prov: Provisioner, groups: seq<PlannedGroup>, email: Email) {
    exists j: nat :: j < |groups| && groups[j].email == email && Answer(prov, groups, j) == Some(false)
  }

  /** The pending groups Google said were missing. */
  function Missing(prov: Provisioner, groups: seq<PlannedGroup>): set<nat> {
    set k: nat | k < |groups| && Answer(prov, groups, k) == Some(false)
  }

  /** The pending groups a run counts as created: those it ensured at an address Google
      had said, about this group or another, was missing. */
  ghost function Minted(prov: Provisioner, groups: seq<PlannedGroup>): set<nat> {
    set k: nat | k < |groups| && SaidMissing(prov, groups, groups[k].email) && EnsuredAt(prov, groups, k)
  }

  /** Those Google had said were there, contradicting what it said of another group
      planned under the same address. */
  ghost function Contradicted(prov: Provisioner, groups: seq<PlannedGroup>): set<nat> {
    set k: nat | k < |groups| && Answer(prov, groups, k) != Some(false) && SaidMissing(prov, groups, groups[k].email)
  }

  /** Google answered alike about groups planned under one address - as it must
      when no two are, or when nothing changes while it is asked. */
  ghost predicate Consistent(prov: Provisioner, groups: seq<PlannedGroup>) {
    forall j: nat, k: nat ::
        j < k < |groups| && groups[j].email == groups[k].email ==>
        Answer(prov, groups, j) == Answer(prov, groups, k)
  }

  /** The missing ones of the first `n`, as sizing collects them. */
  function MissingAmong(prov: Provisioner, groups: seq<PlannedGroup>, n: nat): seq<PlannedGroup>
    requires n <= |groups|
  {
    if n == 0 then []
    else
      MissingAmong(prov, groups, n - 1) + (if Answer(prov, groups, n - 1) == Some(false) then [groups[n - 1]] else [])
  }

  lemma {:induction false} SizedMissing(prov: Provisioner, groups: seq<PlannedGroup>, n: nat)
    requires n <= |groups|
    ensures var r := SizeUp(prov, groups[n..], Sizing(Questions(groups[..n]), MissingAmong(prov, groups, n), false));
            && (!r.aborted <==> forall k: nat :: n <= k < |groups| ==> Answer(prov, groups, k).Some?)
            && (!r.aborted ==> r.missing == MissingAmong(prov, groups, |groups|) && r.log == Questions(groups))
    decreases |groups| - n
  {
    if n < |groups| {
      assert groups[n..][0] == groups[n] && groups[n..][1..] == groups[n + 1..];
      assert Questions(groups[..n + 1]) == Questions(groups[..n]) + [Asked(groups[n].email)];
      hide Questions;
      if Answer(prov, groups, n).Some? {
        assert MissingAmong(prov, groups, n + 1) ==
            MissingAmong(prov, groups, n) + (if Answer(prov, groups, n) == Some(false) then [groups[n]] else []);
        assert MissingAmong(prov, groups, n) + [] == MissingAmong(prov, groups, n);
        SizedMissing(prov, groups, n + 1);
      } else {
        AbortedStays(prov, groups[n + 1..], Sizing(Questions(groups[..n + 1]), MissingAmong(prov, groups, n), true));
      }
    } else {
      assert groups[..n] == groups;
    }
  }

  lemma AbortedStays(prov: Provisioner, groups: seq<PlannedGroup>, s: Sizing)
    requires s.aborted
    ensures SizeUp(prov, groups, s) == s
  {
  }

  lemma {:induction false} MissingEmails(prov: Provisioner, groups: seq<PlannedGroup>, n: nat)
    requires n <= |groups|
    ensures forall k: nat ::
        k < n && Answer(prov, groups, k) == Some(false) ==> groups[k] in MissingAmong(prov, groups, n)
    ensures forall g :: g in MissingAmong(prov, groups, n) ==> exists k: nat ::
        k < n && groups[k] == g && Answer(prov, groups, k) == Some(false)
  {
    hide Answer;
    if n > 0 { MissingEmails(prov, groups, n - 1); }
  }

  lemma {:induction false} MissingSize(prov: Provisioner, groups: seq<PlannedGroup>, n: nat)
    requires n <= |groups|
    ensures |MissingAmong(prov, groups, n)| == |set k: nat | k < n && Answer(prov, groups, k) == Some(false)|
  {
    hide Answer;
    var missing := set k: nat | k < n && Answer(prov, groups, k) == Some(false);
    if n == 0 {
      assert missing == {};
    } else {
      MissingSize(prov, groups, n - 1);
      var before := set k: nat | k < n - 1 && Answer(prov, groups, k) == Some(false);
      assert missing == before + (if Answer(prov, groups, n - 1) == Some(false) then {n - 1} else {});
    }
  }

  /** What sizing comes to, told by Google's answers. */
  lemma SizedUpExactly(prov: Provisioner, groups: seq<PlannedGroup>)
    ensures var r := SizeUp(prov, groups, Sizing([], [], false));
            && (!r.aborted <==> forall k: nat :: k < |groups| ==> Answer(prov, groups, k).Some?)
            && (!r.aborted ==>
                  && r.log == Questions(groups) && |r.missing| == |Missing(prov, groups)|
                  && (forall email :: email in Emails(r.missing) <==> SaidMissing(prov, groups, email)))
  {
    SizedMissing(prov, groups, 0);
    MissingEmails(prov, groups, |groups|);
    MissingSize(prov, groups, |groups|);
    assert groups[0..] == groups && Questions(groups[..0]) == [];
    hide Answer, SizeUp, Questions;
    var missing := MissingAmong(prov, groups, |groups|);
    hide MissingAmong;
    forall email ensures email in Emails(missing) <==> SaidMissing(prov, groups, email) {
      if email in Emails(missing) {
        var g :| g in missing && g.email == email;
        var j: nat :| j < |groups| && groups[j] == g && Answer(prov, groups, j) == Some(false);
      }
    }
  }

  lemma EnsuredOnce(prov: Provisioner, groups: seq<PlannedGroup>, k: nat, creating: set<Email>, e: Ensuring)
    requires k < |groups| && e.log == Questions(groups) + Ensures(groups[..k])
    ensures var r := EnsureOne(prov, groups[k], creating, e);
            && r.log == e.log + [Ensured(groups[k].email, groups[k].name)]
            && r.created == e.created + (if groups[k].email in creating && EnsuredAt(prov, groups, k) then 1 else 0)
            && r.failed == e.failed + (if EnsuredAt(prov, groups, k) then 0 else 1)
  {
    hide Questions, Ensures, Diverged;
  }

  ghost function MintedTo(prov: Provisioner, groups: seq<PlannedGroup>, n: nat, creating: set<Email>): set<nat>
    requires n <= |groups|
  {
    set k: nat | k < n && groups[k].email in creating && EnsuredAt(prov, groups, k)
  }

  lemma MintedNext(prov: Provisioner, groups: seq<PlannedGroup>, n: nat, creating: set<Email>)
    requires n < |groups|
    ensures |MintedTo(prov, groups, n + 1, creating)| ==
        |MintedTo(prov, groups, n, creating)|
        + (if groups[n].email in creating && EnsuredAt(prov, groups, n) then 1 else 0)
  {
    hide EnsuredAt;
    var one: set<nat> := if groups[n].email in creating && EnsuredAt(prov, groups, n) then {n} else {};
    assert MintedTo(prov, groups, n + 1, creating) == MintedTo(prov, groups, n, creating) + one;
  }

  /** The first `n` groups, ensured in turn. */
  lemma {:induction false} EnsuredSoFar(prov: Provisioner, groups: seq<PlannedGroup>, n: nat, creating: set<Email>,
      e: Ensuring)
    requires n <= |groups| && e.log == Questions(groups)
    ensures var r := EnsureEach(prov, groups[..n], creating, e);
            && r.log == Questions(groups) + Ensures(groups[..n])
            && r.created == e.created + |MintedTo(prov, groups, n, creating)| && r.failed >= e.failed
            && (r.failed == e.failed <==> forall k: nat :: k < n ==> EnsuredAt(prov, groups, k))
  {
    hide Questions, EnsureOne, EnsuredAt, MintedTo, Ensures;
    if n == 0 {
      NoneMinted(prov, groups, creating);
      EnsuresNext(groups, 0);
      assert e.log + [] == e.log;
    } else {
      EnsuredSoFar(prov, groups, n - 1, creating, e);
      assert groups[..n][..n - 1] == groups[..n - 1] && groups[..n][n - 1] == groups[n - 1];
      EnsuresNext(groups, n);
      EnsuredOnce(prov, groups, n - 1, creating, EnsureEach(prov, groups[..n - 1], creating, e));
      MintedNext(prov, groups, n - 1, creating);
    }
  }

  lemma NoneMinted(prov: Provisioner, groups: seq<PlannedGroup>, creating: set<Email>)
    ensures MintedTo(prov, groups, 0, creating) == {}
  {
  }

  lemma EnsuresNext(groups: seq<PlannedGroup>, n: nat)
    requires n <= |groups|
    ensures Ensures(groups[..0]) == []
    ensures n > 0 ==>
        Ensures(groups[..n]) == Ensures(groups[..n - 1]) + [Ensured(groups[n - 1].email, groups[n - 1].name)]
  {
  }

  /** What a run reports as created, armed or not. */
  lemma CreatedExactly(prov: Provisioner, bodies: map<Uuid, BodyRow>, bootstrapped: bool, config: Config, main: Email,
      dryRun: bool)
    requires BodiesUnique(bodies)
    ensures var r, groups :=
        Provision(prov, bodies, bootstrapped, config, main, dryRun), PlanPending(bodies, config, main).groups;
            r.Provisioned? ==>
              r.report.created ==
                if TripwireRefuses(bootstrapped, |Missing(prov, groups)|, config.cap) then 0
                else |Minted(prov, groups)|
  {
    hide PlanPending, SizeUp, EnsureEach, LinkEach, Emails, AlreadyLinked, BodiesUnique, SaidMissing, EnsuredAt, Answer,
        Questions, Ensures;
    var pending := PlanPending(bodies, config, main);
    var groups := pending.groups;
    var sized := SizeUp(prov, groups, Sizing([], [], false));
    SizedUpExactly(prov, groups);
    if !sized.aborted {
      var creating := Emails(sized.missing);
      EnsuredSoFar(prov, groups, |groups|, creating, StartEnsuring(sized.log, pending.nameFailures));
      assert groups[..|groups|] == groups;
      assert MintedTo(prov, groups, |groups|, creating) == Minted(prov, groups);
    }
  }

  /** A run counts no more than the missing groups and those contradicted; and exactly
      these if Google ensures each. */
  lemma MintedMeans(prov: Provisioner, groups: seq<PlannedGroup>)
    ensures Minted(prov, groups) <= Missing(prov, groups) + Contradicted(prov, groups)
    ensures Missing(prov, groups) !! Contradicted(prov, groups)
    ensures |Minted(prov, groups)| <= |Missing(prov, groups)| + |Contradicted(prov, groups)|
    ensures (forall k: nat :: k < |groups| ==> EnsuredAt(prov, groups, k)) ==>
        |Minted(prov, groups)| == |Missing(prov, groups)| + |Contradicted(prov, groups)|
    ensures Consistent(prov, groups) ==> Contradicted(prov, groups) == {}
  {
    hide Answer, EnsuredAt;
    var minted, missing, more := Minted(prov, groups), Missing(prov, groups), Contradicted(prov, groups);
    SubsetSize(minted, missing + more);
    assert |missing + more| == |missing| + |more|;
    if forall k: nat :: k < |groups| ==> EnsuredAt(prov, groups, k) {
      assert minted == missing + more;
    }
    if Consistent(prov, groups) {
      forall j: nat, k: nat | j < |groups| && k < |groups| && groups[j].email == groups[k].email
        ensures Answer(prov, groups, j) == Answer(prov, groups, k)
      {
        assert j < k || k < j || j == k;
      }
      assert forall k: nat :: k !in more;
    }
  }

  /** What the cap promises of a run: past it no `ensure` call is made and nothing
      changes; within it the addresses to create are no more; and the count reported
      passes it exactly when those missing are within it but those ensured at an address
      Google called missing are not - which takes an answer that contradicts another. */
  ghost predicate Capped(prov: Provisioner, bodies: map<Uuid, BodyRow>, config: Config, main: Email, r: Provisioned)
    requires BodiesUnique(bodies) && r.Provisioned?
  {
    var groups := PlanPending(bodies, config, main).groups;
    var sized := SizeUp(prov, groups, Sizing([], [], false));
    var missing := |Missing(prov, groups)|;
    && |sized.missing| == missing
    && (missing > config.cap ==>
          && r.report.created == 0 && r.report.refusedOverCap == missing && r.report.HasFailures()
          && r.bodies == bodies && forall i :: 0 <= i < |r.log| ==> r.log[i].Asked?)
    && (missing <= config.cap ==> |Emails(sized.missing)| <= config.cap)
    && (r.report.created > config.cap <==> missing <= config.cap && |Minted(prov, groups)| > config.cap)
    && (r.report.created > config.cap ==> Contradicted(prov, groups) != {})
    && (Consistent(prov, groups) ==> r.report.created <= config.cap)
  }

  /** An armed run creates at most the cap's number of groups, or asks for none. */
  lemma CreationCap(prov: Provisioner, bodies: map<Uuid, BodyRow>, config: Config, main: Email, dryRun: bool)
    requires BodiesUnique(bodies)
    ensures var r := Provision(prov, bodies, true, config, main, dryRun);
            r.Provisioned? ==> Capped(prov, bodies, config, main, r)
  {
    hide PlanPending, SizeUp, EnsureEach, LinkEach, Emails, AlreadyLinked, BodiesUnique, Consistent, Missing, Minted,
        Contradicted, SaidMissing, EnsuredAt, Answer, Questions;
    var groups := PlanPending(bodies, config, main).groups;
    SizedUp(prov, groups, Sizing([], [], false));
    SizedUpExactly(prov, groups);
    EmailsSize(SizeUp(prov, groups, Sizing([], [], false)).missing);
    CreatedExactly(prov, bodies, true, config, main, dryRun);
    MintedMeans(prov, groups);
  }

  /** At a Google that ensures every pending group an armed run reports more than the
      cap exactly when the missing groups are within it, but not with those added that
      Google both called missing and said were there. */
  lemma CapPassedExactly(prov: Provisioner, bodies: map<Uuid, BodyRow>, config: Config, main: Email, dryRun: bool)
    requires BodiesUnique(bodies)
    requires var groups := PlanPending(bodies, config, main).groups;
             forall k: nat :: k < |groups| ==> EnsuredAt(prov, groups, k)
    ensures var r, groups :=
        Provision(prov, bodies, true, config, main, dryRun), PlanPending(bodies, config, main).groups;
            var missing := |Missing(prov, groups)|;
            r.Provisioned? ==>
              (r.report.created > config.cap <==>
                missing <= config.cap < missing + |Contradicted(prov, groups)|)
  {
    hide Provision, PlanPending, EnsuredAt, Missing, Minted, Contradicted, SizeUp, Emails;
    CreationCap(prov, bodies, config, main, dryRun);
    MintedMeans(prov, PlanPending(bodies, config, main).groups);
  }

  lemma MarkerAfterRun(prov: Provisioner, bodies: map<Uuid, BodyRow>, bootstrapped: bool, config: Config,
      main: Email, dryRun: bool)
    requires BodiesUnique(bodies)
    ensures var r := Provision(prov, bodies, bootstrapped, config, main, dryRun);
            r.Provisioned? ==> (r.bootstrapped <==> bootstrapped || (r.report.created > 0 && !dryRun))
  {
    hide PlanPending, SizeUp, EnsureEach, LinkEach, Emails, AlreadyLinked;
  }

  // ------------------------------------------------------------------ the links

  /** Bodies keep their names, and change their links only if they had none: then
      to a whole pair. */
  ghost predicate OnlyLinks(before: map<Uuid, BodyRow>, after: map<Uuid, BodyRow>, unlinked: set<Uuid>) {
    && before.Keys == after.Keys
    && forall b :: b in before ==>
         && LeadershipOf(after[b]) == LeadershipOf(before[b])
         && (after[b] == before[b] || (b in unlinked && IsLinked(after[b])))
  }

  lemma {:induction false} LinkEachOnly(links: Links, order: seq<Uuid>, dryRun: bool, bodies: map<Uuid, BodyRow>,
      failed: nat)
    requires (forall id :: id in order ==> id in links) && LinksWhole(bodies) && LinksUnique(bodies)
    ensures var l := LinkEach(links, order, dryRun, Linking(bodies, failed));
            && OnlyLinks(bodies, l.bodies, ToSet(order)) && LinksWhole(l.bodies) && LinksUnique(l.bodies)
            && l.failed >= failed && (dryRun ==> l.bodies == bodies)
  {
    if order != [] {
      var n := |order| - 1;
      LinkEachOnly(links, order[..n], dryRun, bodies, failed);
      assert order == order[..n] + [order[n]];
      var before := LinkEach(links, order[..n], dryRun, Linking(bodies, failed));
      assert ToSet(order) == ToSet(order[..n]) + {order[n]};
      LinkOneOnly(links, order[n], dryRun, before);
      hide LinksWhole, LinksUnique, LinkOne;
      OnlyLinksThen(bodies, before.bodies, LinkOne(links, order[n], dryRun, before).bodies, ToSet(order[..n]),
          order[n]);
    }
  }

  lemma LinkOneOnly(links: Links, id: Uuid, dryRun: bool, l: Linking)
    requires id in links && LinksWhole(l.bodies) && LinksUnique(l.bodies)
    ensures var r := LinkOne(links, id, dryRun, l);
            && OnlyLinks(l.bodies, r.bodies, {id}) && LinksWhole(r.bodies) && LinksUnique(r.bodies)
            && r.failed >= l.failed && (dryRun ==> r.bodies == l.bodies)
  {
  }

  lemma OnlyLinksThen(a: map<Uuid, BodyRow>, b: map<Uuid, BodyRow>, c: map<Uuid, BodyRow>, ids: set<Uuid>, id: Uuid)
    requires OnlyLinks(a, b, ids) && OnlyLinks(b, c, {id})
    ensures OnlyLinks(a, c, ids + {id})
  {
  }

  /** What ensuring one more group does to the links. */
  lemma EnsureOneLinks(prov: Provisioner, group: PlannedGroup, creating: set<Email>, e: Ensuring)
    ensures var r := EnsureOne(prov, group, creating, e);
            && (forall id :: id in r.links && id !in e.links ==> group.body == Some(id))
            && r.failed >= e.failed
            && (forall id :: id in e.links ==> id in r.links && e.links[id].Keys <= r.links[id].Keys)
            && (r.failed == e.failed && group.body.Some? ==>
                  group.body.value in r.links && group.kind in r.links[group.body.value])
  {
  }

  lemma {:induction false} LinksFromPending(prov: Provisioner, groups: seq<PlannedGroup>, creating: set<Email>,
      e: Ensuring)
    ensures var r := EnsureEach(prov, groups, creating, e);
            && (forall id :: id in r.links && id !in e.links ==> exists g :: g in groups && g.body == Some(id))
            && r.failed >= e.failed
            && (forall id :: id in e.links ==> id in r.links && e.links[id].Keys <= r.links[id].Keys)
            && (r.failed == e.failed ==> forall g :: g in groups && g.body.Some? ==>
                  g.body.value in r.links && g.kind in r.links[g.body.value])
  {
    if groups != [] {
      var n := |groups| - 1;
      var before, r := EnsureEach(prov, groups[..n], creating, e), EnsureEach(prov, groups, creating, e);
      LinksFromPending(prov, groups[..n], creating, e);
      EnsureOneLinks(prov, groups[n], creating, before);
      assert forall g :: g in groups <==> g in groups[..n] || g == groups[n]
          by { assert groups == groups[..n] + [groups[n]]; }
      assert r == EnsureOne(prov, groups[n], creating, before);
      hide EnsureOne, EnsureEach;
      forall id | id in r.links && id !in e.links ensures exists g :: g in groups && g.body == Some(id) {
        if id in before.links {
          var g :| g in groups[..n] && g.body == Some(id);
          assert g in groups;
        } else {
          assert groups[n] in groups;
        }
      }
    }
  }

  /** No run repoints or half-links a body: a linked body keeps both addresses, an
      unlinked one is left alone or given both, no address backs two bodies in one
      column, and a rehearsal changes nothing. */
  lemma LinksNeverRepointed(prov: Provisioner, bodies: map<Uuid, BodyRow>, bootstrapped: bool, config: Config,
      main: Email, dryRun: bool)
    requires BodiesUnique(bodies) && LinksWhole(bodies) && LinksUnique(bodies)
    ensures var r := Provision(prov, bodies, bootstrapped, config, main, dryRun);
            r.Provisioned? ==>
              && BodiesUnique(r.bodies) && LinksWhole(r.bodies) && LinksUnique(r.bodies) && r.bodies.Keys == bodies.Keys
              && (forall b :: b in bodies ==> LeadershipOf(r.bodies[b]) == LeadershipOf(bodies[b]))
              && (forall b :: b in bodies && IsLinked(bodies[b]) ==> r.bodies[b] == bodies[b])
              && (forall b :: b in bodies && !IsLinked(bodies[b]) ==> r.bodies[b] == bodies[b] || IsLinked(r.bodies[b]))
              && (dryRun ==> r.bodies == bodies && r.bootstrapped == bootstrapped)
  {
    var pending := PlanPending(bodies, config, main);
    var sized := SizeUp(prov, pending.groups, Sizing([], [], false));
    var start := StartEnsuring(sized.log, pending.nameFailures);
    var e := EnsureEach(prov, pending.groups, Emails(sized.missing), start);
    PendingUnlinked(bodies, config, main);
    LinksFromPending(prov, pending.groups, Emails(sized.missing), start);
    OrderIsLinks(prov, pending.groups, Emails(sized.missing), start);
    LinkEachOnly(e.links, e.order, dryRun, bodies, e.failed);
    var r := Provision(prov, bodies, bootstrapped, config, main, dryRun);
    hide PlanPending, SizeUp, EnsureEach, LinkEach, Emails, AlreadyLinked, AllBodies;
    forall b | b in e.order ensures b in bodies && !IsLinked(bodies[b]) {
      var g :| g in pending.groups && g.body == Some(b);
    }
    hide LinksUnique, LinksWhole, PlansUnlinked, Provision;
    assert r.Provisioned? ==> r.bodies == bodies || OnlyLinks(bodies, r.bodies, ToSet(e.order))
        by { ProvisionedBodies(prov, bodies, bootstrapped, config, main, dryRun); }
    ProvisionedBodies(prov, bodies, bootstrapped, config, main, dryRun);
  }

  lemma ProvisionedBodies(prov: Provisioner, bodies: map<Uuid, BodyRow>, bootstrapped: bool, config: Config,
      main: Email, dryRun: bool)
    requires BodiesUnique(bodies)
    ensures var r, pending :=
        Provision(prov, bodies, bootstrapped, config, main, dryRun), PlanPending(bodies, config, main);
            var sized := SizeUp(prov, pending.groups, Sizing([], [], false));
            var start := StartEnsuring(sized.log, pending.nameFailures);
            var e := EnsureEach(prov, pending.groups, Emails(sized.missing), start);
            && (forall id :: id in e.order <==> id in e.links)
            && (r.Provisioned? ==>
                  if r.report.refusedOverCap > 0 then r.bodies == bodies && r.bootstrapped == bootstrapped
                  else r.bodies == LinkEach(e.links, e.order, dryRun, Linking(bodies, e.failed)).bodies
                       && r.report.failed == LinkEach(e.links, e.order, dryRun, Linking(bodies, e.failed)).failed
                       && (dryRun ==> r.bootstrapped == bootstrapped))
  {
    hide PlanPending, SizeUp, EnsureEach, LinkEach, Emails, AlreadyLinked, BodiesUnique;
    var pending := PlanPending(bodies, config, main);
    var sized := SizeUp(prov, pending.groups, Sizing([], [], false));
    OrderIsLinks(prov, pending.groups, Emails(sized.missing), StartEnsuring(sized.log, pending.nameFailures));
  }

  // ------------------------------------------------------------- nothing left

  lemma {:induction false} LinkedUnlessFailed(links: Links, order: seq<Uuid>, bodies: map<Uuid, BodyRow>, failed: nat)
    requires (forall id :: id in order ==> id in links && id in bodies)
    ensures var l := LinkEach(links, order, false, Linking(bodies, failed));
            && l.bodies.Keys == bodies.Keys && l.failed >= failed
            && (forall b :: b in bodies && IsLinked(bodies[b]) ==> IsLinked(l.bodies[b]))
            && (l.failed == failed ==> forall id :: id in order ==> IsLinked(l.bodies[id]))
  {
    if order != [] {
      var n := |order| - 1;
      LinkedUnlessFailed(links, order[..n], bodies, failed);
      assert order == order[..n] + [order[n]];
    }
  }

  /** After a real run without failures every body is linked. */
  lemma SuccessLinksAll(prov: Provisioner, bodies: map<Uuid, BodyRow>, bootstrapped: bool, config: Config, main: Email)
    requires BodiesUnique(bodies) && LinksWhole(bodies) && LinksUnique(bodies)
    ensures var r := Provision(prov, bodies, bootstrapped, config, main, false);
            r.Provisioned? && !r.report.HasFailures() ==> forall b :: b in r.bodies ==> IsLinked(r.bodies[b])
  {
    hide Provision, PlanPending, SizeUp, EnsureEach, Emails, AlreadyLinked, LinksUnique, LinksWhole, BodiesUnique,
        LinkEach, IsLinked;
    var pending := PlanPending(bodies, config, main);
    var sized := SizeUp(prov, pending.groups, Sizing([], [], false));
    var start := StartEnsuring(sized.log, pending.nameFailures);
    var e := EnsureEach(prov, pending.groups, Emails(sized.missing), start);
    var r := Provision(prov, bodies, bootstrapped, config, main, false);
    PendingUnlinked(bodies, config, main);
    LinksFromPending(prov, pending.groups, Emails(sized.missing), start);
    OrderIsLinks(prov, pending.groups, Emails(sized.missing), start);
    ProvisionedBodies(prov, bodies, bootstrapped, config, main, false);
    forall id | id in e.order ensures id in bodies {
      assert id in e.links;
      assert id !in start.links;
      var g :| g in pending.groups && g.body == Some(id);
    }
    LinkedUnlessFailed(e.links, e.order, bodies, e.failed);
    if r.Provisioned? && !r.report.HasFailures() {
      forall b | b in bodies && !IsLinked(bodies[b]) ensures b in e.order {
        assert b in AllBodies(bodies) && Planned(pending.groups, b, Leaders);
        var g :| g in pending.groups && g.body == Some(b) && g.kind == Leaders;
      }
    }
  }

  lemma {:induction false} PlanLinked(bodies: map<Uuid, BodyRow>, ids: seq<Uuid>, config: Config, p: Pending)
    requires (forall id :: id in ids ==> id in bodies) && forall b :: b in bodies ==> IsLinked(bodies[b])
    ensures PlanEach(bodies, ids, config, p) == p
  {
    if ids != [] {
      PlanLinked(bodies, ids[..|ids| - 1], config, p);
    }
  }

  /** A fully successful run is final: while Google still has the main group, the
      next run creates nothing, links nothing, and stays green if Google answers. */
  lemma SuccessIsFinal(prov: Provisioner, bodies: map<Uuid, BodyRow>, bootstrapped: bool, config: Config, main: Email,
                       later: Provisioner, dryRun: bool)
    requires BodiesUnique(bodies) && LinksWhole(bodies) && LinksUnique(bodies)
    requires var r := Provision(prov, bodies, bootstrapped, config, main, false);
             r.Provisioned? && !r.report.HasFailures()
    requires later.has([], main) == Some(true)
    ensures BodiesUnique(Provision(prov, bodies, bootstrapped, config, main, false).bodies)
    ensures var r := Provision(prov, bodies, bootstrapped, config, main, false);
            var next := Provision(later, r.bodies, r.bootstrapped, config, main, dryRun);
            && next.Provisioned? && next.report.created == 0 && next.report.refusedOverCap == 0
            && next.bodies == r.bodies && next.bootstrapped == r.bootstrapped
            && (later.ensure([Asked(main)], main, config.mainGroupName).Some? ==> !next.report.HasFailures())
  {
    SuccessLinksAll(prov, bodies, bootstrapped, config, main);
    LinksNeverRepointed(prov, bodies, bootstrapped, config, main, false);
    var r := Provision(prov, bodies, bootstrapped, config, main, false);
    var mainGroup := PlannedGroup(main, config.mainGroupName, None, Leaders);
    PlanLinked(r.bodies, AllBodies(r.bodies), config, Pending([mainGroup], 0));
    assert PlanPending(r.bodies, config, main) == Pending([mainGroup], 0);
    NothingToDo(later, r.bodies, r.bootstrapped, config, main, dryRun);
  }

  lemma NothingToDo(later: Provisioner, bodies: map<Uuid, BodyRow>, bootstrapped: bool, config: Config, main: Email,
      dryRun: bool)
    requires BodiesUnique(bodies) && later.has([], main) == Some(true)
    requires PlanPending(bodies, config, main) == Pending([PlannedGroup(main, config.mainGroupName, None, Leaders)], 0)
    ensures var next := Provision(later, bodies, bootstrapped, config, main, dryRun);
            && next.Provisioned? && next.report.created == 0 && next.report.refusedOverCap == 0
            && next.bodies == bodies && next.bootstrapped == bootstrapped
            && (later.ensure([Asked(main)], main, config.mainGroupName).Some? ==> !next.report.HasFailures())
  {
    hide PlanPending;
    var g := PlannedGroup(main, config.mainGroupName, None, Leaders);
    var s := Sizing([Asked(main)], [], false);
    assert [g][1..] == [] && SizeUp(later, [], s) == s;
    assert SizeUp(later, [g], Sizing([], [], false)) == s;
    assert Emails([]) == {};
    var start := StartEnsuring([Asked(main)], 0);
    assert [g][..0] == [] && EnsureEach(later, [], {}, start) == start;
    assert EnsureEach(later, [g], {}, start) == EnsureOne(later, g, {}, start);
  }
}
