/** What the failures a provisioning run reports stand for, one by one: the bodies it
    could not name, the groups Google would not ensure, and the bodies it ensured a group
    for and still left unlinked. */
module ProvisionFailures {
  import opened Basics
  import opened Database
  import opened Naming
  import opened Provision
  import opened ProvisionSuccess

  // ------------------------------------------------------------------- unnamed

  /** Both groups of a body have an address and a label that fit. */
  predicate CanBeNamed(body: BodyRow, domain: string) {
    && GroupEmail(body.name, body.bodyType, Leaders, domain).Some?
    && GroupEmail(body.name, body.bodyType, Editors, domain).Some?
    && GroupLabel(body.name, body.bodyType, Leaders).Some? && GroupLabel(body.name, body.bodyType, Editors).Some?
  }

  predicate Unnamed(body: BodyRow, domain: string) {
    !(body.leaderGroup.Some? && body.memberGroup.Some?) && !CanBeNamed(body, domain)
  }

  function UnnamedIn(bodies: map<Uuid, BodyRow>, domain: string): set<Uuid> {
    set b | b in bodies && Unnamed(bodies[b], domain)
  }

  lemma UnnamedNext(bodies: map<Uuid, BodyRow>, id: Uuid, config: Config, p: Pending)
    requires id in bodies
    ensures PlanNext(bodies, id, config, p).nameFailures ==
            p.nameFailures + (if Unnamed(bodies[id], config.domain) then 1 else 0)
  {
    hide GroupEmail, GroupLabel;
  }

  /** One more id, counted if it is among `those`. */
  lemma OneMore(ids: seq<Uuid>, last: Uuid, those: set<Uuid>)
    requires last !in ids
    ensures |ToSet(ids + [last]) * those| == |ToSet(ids) * those| + (if last in those then 1 else 0)
  {
    assert ToSet(ids + [last]) * those == ToSet(ids) * those + (if last in those then {last} else {});
  }

  lemma {:induction false} UnnamedSoFar(bodies: map<Uuid, BodyRow>, ids: seq<Uuid>, config: Config, p: Pending)
    requires NoDup(ids) && forall id :: id in ids ==> id in bodies
    ensures PlanEach(bodies, ids, config, p).nameFailures ==
            p.nameFailures + |ToSet(ids) * UnnamedIn(bodies, config.domain)|
  {
    hide PlanNext, Unnamed;
    var unnamed := UnnamedIn(bodies, config.domain);
    if ids == [] {
      assert ToSet(ids) * unnamed == {};
    } else {
      var n, last := |ids| - 1, ids[|ids| - 1];
      assert ids == ids[..n] + [last] && last !in ids[..n] && forall id :: id in ids[..n] ==> id in ids;
      assert last in bodies && (last in unnamed <==> Unnamed(bodies[last], config.domain));
      hide UnnamedIn, ToSet;
      UnnamedSoFar(bodies, ids[..n], config, p);
      UnnamedNext(bodies, last, config, PlanEach(bodies, ids[..n], config, p));
      OneMore(ids[..n], last, unnamed);
    }
  }

  lemma PendingUnnamed(bodies: map<Uuid, BodyRow>, config: Config, main: Email)
    requires BodiesUnique(bodies)
    ensures PlanPending(bodies, config, main).nameFailures == |UnnamedIn(bodies, config.domain)|
  {
    hide Unnamed, PlanEach, BodiesUnique;
    var ids := AllBodies(bodies);
    var start := Pending([PlannedGroup(main, config.mainGroupName, None, Leaders)], 0);
    UnnamedSoFar(bodies, ids, config, start);
    assert ToSet(ids) * UnnamedIn(bodies, config.domain) == UnnamedIn(bodies, config.domain);
  }

  // ------------------------------------------------------------------ unensured

  /** The pending groups Google would not ensure, among the first `n`. */
  ghost function UnensuredTo(prov: Provisioner, groups: seq<PlannedGroup>, n: nat): set<nat>
    requires n <= |groups|
  {
    set k: nat | k < n && !EnsuredAt(prov, groups, k)
  }

  ghost function Unensured(prov: Provisioner, groups: seq<PlannedGroup>): set<nat> {
    UnensuredTo(prov, groups, |groups|)
  }

  /** Google ensured a body's group of one kind, among the first `n`. */
  ghost predicate SideTo(prov: Provisioner, groups: seq<PlannedGroup>, n: nat, id: Uuid, kind: GroupKind)
    requires n <= |groups|
  {
    exists k: nat :: k < n && groups[k].body == Some(id) && groups[k].kind == kind && EnsuredAt(prov, groups, k)
  }

  ghost predicate Side(prov: Provisioner, groups: seq<PlannedGroup>, id: Uuid, kind: GroupKind) {
    SideTo(prov, groups, |groups|, id, kind)
  }

  /** A body's links say which of its sides were ensured. */
  ghost predicate LinkSays(prov: Provisioner, groups: seq<PlannedGroup>, n: nat, links: Links, id: Uuid)
    requires n <= |groups|
  {
    var leaders, editors := SideTo(prov, groups, n, id, Leaders), SideTo(prov, groups, n, id, Editors);
    && (id in links <==> leaders || editors)
    && (id in links ==> (Leaders in links[id] <==> leaders) && (Editors in links[id] <==> editors))
  }

  ghost predicate LinksSay(prov: Provisioner, groups: seq<PlannedGroup>, n: nat, links: Links)
    requires n <= |groups|
  {
    forall id: Uuid :: LinkSays(prov, groups, n, links, id)
  }

  lemma UnensuredNext(prov: Provisioner, groups: seq<PlannedGroup>, n: nat)
    requires n < |groups|
    ensures |UnensuredTo(prov, groups, n + 1)| ==
            |UnensuredTo(prov, groups, n)| + (if EnsuredAt(prov, groups, n) then 0 else 1)
  {
    hide EnsuredAt;
    var one: set<nat> := if EnsuredAt(prov, groups, n) then {} else {n};
    assert UnensuredTo(prov, groups, n + 1) == UnensuredTo(prov, groups, n) + one;
  }

  lemma SideNext(prov: Provisioner, groups: seq<PlannedGroup>, n: nat, id: Uuid, kind: GroupKind)
    requires n < |groups|
    ensures SideTo(prov, groups, n + 1, id, kind) <==>
            SideTo(prov, groups, n, id, kind)
            || (groups[n].body == Some(id) && groups[n].kind == kind && EnsuredAt(prov, groups, n))
  {
    hide EnsuredAt;
  }

  lemma EnsuredLink(prov: Provisioner, groups: seq<PlannedGroup>, n: nat, creating: set<Email>, e: Ensuring)
    requires n < |groups| && e.log == Questions(groups) + Ensures(groups[..n])
    ensures var group, links := groups[n], e.links;
            EnsureOne(prov, group, creating, e).links ==
              if !EnsuredAt(prov, groups, n) || group.body.None? then links
              else links[group.body.value :=
                     (if group.body.value in links then links[group.body.value] else map[])[group.kind := group.email]]
  {
    hide Questions, Ensures, Diverged;
    assert map[groups[n].kind := groups[n].email] == map[][groups[n].kind := groups[n].email];
  }

  lemma LinksNext(prov: Provisioner, groups: seq<PlannedGroup>, n: nat, creating: set<Email>, e: Ensuring)
    requires n < |groups| && e.log == Questions(groups) + Ensures(groups[..n]) && LinksSay(prov, groups, n, e.links)
    ensures LinksSay(prov, groups, n + 1, EnsureOne(prov, groups[n], creating, e).links)
  {
    hide LinkSays, Questions, Ensures, EnsureOne, EnsuredAt;
    var links, next := EnsureOne(prov, groups[n], creating, e).links, n + 1;
    forall id: Uuid ensures LinkSays(prov, groups, next, links, id) {
      LinkNext(prov, groups, n, creating, e, id);
    }
  }

  lemma LinkNext(prov: Provisioner, groups: seq<PlannedGroup>, n: nat, creating: set<Email>, e: Ensuring, id: Uuid)
    requires n < |groups| && e.log == Questions(groups) + Ensures(groups[..n]) && LinkSays(prov, groups, n, e.links, id)
    ensures LinkSays(prov, groups, n + 1, EnsureOne(prov, groups[n], creating, e).links, id)
  {
    EnsuredLink(prov, groups, n, creating, e);
    SideNext(prov, groups, n, id, Leaders);
    SideNext(prov, groups, n, id, Editors);
    hide Questions, Ensures, EnsureOne, SideTo, EnsuredAt;
  }

  lemma {:induction false} EnsuredAndNot(prov: Provisioner, groups: seq<PlannedGroup>, n: nat, creating: set<Email>,
      e: Ensuring)
    requires n <= |groups| && e.log == Questions(groups) && e.links == map[]
    ensures var r := EnsureEach(prov, groups[..n], creating, e);
            r.failed == e.failed + |UnensuredTo(prov, groups, n)| && LinksSay(prov, groups, n, r.links)
  {
    hide Questions, EnsureOne, EnsuredAt, Ensures;
    if n == 0 {
      assert UnensuredTo(prov, groups, 0) == {};
    } else {
      hide UnensuredTo, LinksSay;
      EnsuredAndNot(prov, groups, n - 1, creating, e);
      EnsuredSoFar(prov, groups, n - 1, creating, e);
      assert groups[..n][..n - 1] == groups[..n - 1] && groups[..n][n - 1] == groups[n - 1];
      var before := EnsureEach(prov, groups[..n - 1], creating, e);
      EnsuredOnce(prov, groups, n - 1, creating, before);
      UnensuredNext(prov, groups, n - 1);
      LinksNext(prov, groups, n - 1, creating, before);
    }
  }

  // ------------------------------------------------------------------- unlinked

  function Halves(links: Links): set<Uuid> {
    set id | id in links && !(Leaders in links[id] && Editors in links[id])
  }

  /** A rehearsal fails only for the bodies with one side. */
  lemma {:induction false} HalvesFail(links: Links, order: seq<Uuid>, bodies: map<Uuid, BodyRow>, failed: nat)
    requires NoDup(order) && forall id :: id in order ==> id in links
    ensures var r := LinkEach(links, order, true, Linking(bodies, failed));
            r.bodies == bodies && r.failed == failed + |ToSet(order) * Halves(links)|
  {
    if order == [] {
      assert ToSet(order) * Halves(links) == {};
    } else {
      var n, last := |order| - 1, order[|order| - 1];
      assert order == order[..n] + [last] && last !in order[..n] && forall id :: id in order[..n] ==> id in order;
      assert last in order;
      hide ToSet;
      HalvesFail(links, order[..n], bodies, failed);
      OneMore(order[..n], last, Halves(links));
    }
  }

  lemma LinkOneExactly(links: Links, id: Uuid, l: Linking)
    requires id in links && id in l.bodies && !IsLinked(l.bodies[id])
    ensures var r := LinkOne(links, id, false, l);
            && r.bodies.Keys == l.bodies.Keys && (forall b :: b in l.bodies && b != id ==> r.bodies[b] == l.bodies[b])
            && r.failed == l.failed + (if IsLinked(r.bodies[id]) then 0 else 1)
  {
    hide Taken;
  }

  /** The link writes of `order` so far: other rows stand, and each of its bodies still
      unlinked is a failure. */
  ghost predicate LinkedSoFar(bodies: map<Uuid, BodyRow>, order: seq<Uuid>, failed: nat, l: Linking) {
    && l.bodies.Keys == bodies.Keys && (forall b :: b in bodies && b !in order ==> l.bodies[b] == bodies[b])
    && l.failed == failed + |ToSet(order) * Unlinked(l.bodies)|
  }

  lemma LinkedNext(links: Links, order: seq<Uuid>, last: Uuid, bodies: map<Uuid, BodyRow>, failed: nat, l: Linking)
    requires LinkedSoFar(bodies, order, failed, l)
    requires last !in order && last in links && last in bodies && !IsLinked(bodies[last])
    ensures LinkedSoFar(bodies, order + [last], failed, LinkOne(links, last, false, l))
  {
    hide LinkOne, IsLinked;
    var r := LinkOne(links, last, false, l);
    LinkOneExactly(links, last, l);
    OneMore(order, last, Unlinked(r.bodies));
    assert ToSet(order) * Unlinked(r.bodies) == ToSet(order) * Unlinked(l.bodies);
  }

  /** A real run fails for the bodies it leaves unlinked. */
  lemma {:induction false} UnlinkedFail(links: Links, order: seq<Uuid>, bodies: map<Uuid, BodyRow>, failed: nat)
    requires NoDup(order) && forall id :: id in order ==> id in links && id in bodies && !IsLinked(bodies[id])
    ensures LinkedSoFar(bodies, order, failed, LinkEach(links, order, false, Linking(bodies, failed)))
  {
    hide LinkOne, IsLinked;
    if order == [] {
      assert ToSet(order) * Unlinked(bodies) == {};
    } else {
      hide LinkedSoFar;
      var n, last := |order| - 1, order[|order| - 1];
      assert order == order[..n] + [last] && last !in order[..n] && forall id :: id in order[..n] ==> id in order;
      assert last in order;
      UnlinkedFail(links, order[..n], bodies, failed);
      LinkedNext(links, order[..n], last, bodies, failed, LinkEach(links, order[..n], false, Linking(bodies, failed)));
    }
  }

  // ---------------------------------------------------------------- main result

  /** The bodies with an ensured group that a run leaves unlinked: in a rehearsal, which
      links nothing, those with but one of the two. */
  ghost function LeftUnlinked(prov: Provisioner, groups: seq<PlannedGroup>, after: map<Uuid, BodyRow>,
      dryRun: bool): set<Uuid> {
    set b | b in after && (Side(prov, groups, b, Leaders) || Side(prov, groups, b, Editors))
            && (if dryRun then !(Side(prov, groups, b, Leaders) && Side(prov, groups, b, Editors))
                else !(after[b].leaderGroup.Some? && after[b].memberGroup.Some?))
  }

  /** A run reports one failure for each body it could not name; and, unless it is refused
      over its cap, one for each group Google would not ensure and one for each body with
      an ensured group that is left unlinked. */
  lemma FailuresExactly(prov: Provisioner, bodies: map<Uuid, BodyRow>, bootstrapped: bool, config: Config, main: Email,
      dryRun: bool)
    requires BodiesUnique(bodies)
    ensures var r, groups :=
        Provision.Provision(prov, bodies, bootstrapped, config, main, dryRun), PlanPending(bodies, config, main).groups;
            r.Provisioned? ==>
              r.report.failed == |UnnamedIn(bodies, config.domain)|
                + if bootstrapped && |Missing(prov, groups)| > config.cap then 0
                  else |Unensured(prov, groups)| + |LeftUnlinked(prov, groups, r.bodies, dryRun)|
  {
    hide PlanPending, SizeUp, EnsureEach, LinkEach, Emails, AlreadyLinked, BodiesUnique, SaidMissing, EnsuredAt, Answer,
        Questions, Missing, UnnamedIn, Unensured, LeftUnlinked;
    var pending := PlanPending(bodies, config, main);
    var sized := SizeUp(prov, pending.groups, Sizing([], [], false));
    SizedUpExactly(prov, pending.groups);
    PendingUnnamed(bodies, config, main);
    if !sized.aborted && !TripwireRefuses(bootstrapped, |sized.missing|, config.cap) {
      EnsuringFailures(prov, bodies, config, main, sized, dryRun);
    }
  }

  lemma EnsuringFailures(prov: Provisioner, bodies: map<Uuid, BodyRow>, config: Config, main: Email, sized: Sizing,
      dryRun: bool)
    requires BodiesUnique(bodies) && sized.log == Questions(PlanPending(bodies, config, main).groups)
    ensures var pending := PlanPending(bodies, config, main);
            var start := StartEnsuring(sized.log, pending.nameFailures);
            var e := EnsureEach(prov, pending.groups, Emails(sized.missing), start);
            && (forall id :: id in e.order ==> id in e.links)
            && var l := LinkEach(e.links, e.order, dryRun, Linking(bodies, e.failed));
               l.failed == pending.nameFailures + |Unensured(prov, pending.groups)|
                             + |LeftUnlinked(prov, pending.groups, l.bodies, dryRun)|
  {
    hide PlanPending, EnsureEach, Emails, EnsuredAt, Questions, UnensuredTo, AllBodies, SideTo, BodiesUnique,
        LinkEach, LeftUnlinked, LinksSay, PlansUnlinked;
    var pending := PlanPending(bodies, config, main);
    var groups, creating := pending.groups, Emails(sized.missing);
    var start := StartEnsuring(sized.log, pending.nameFailures);
    var e := EnsureEach(prov, groups, creating, start);
    assert groups[..|groups|] == groups;
    EnsuredAndNot(prov, groups, |groups|, creating, start);
    OrderIsLinks(prov, groups, creating, start);
    PendingUnlinked(bodies, config, main);
    OrderUnlinked(prov, bodies, groups, e.links, pending);
    LinkFailures(prov, bodies, groups, e, dryRun);
  }

  /** The links hold the bodies of `order`, all of them unlinked, with the sides ensured. */
  ghost predicate ReadyToLink(prov: Provisioner, bodies: map<Uuid, BodyRow>, groups: seq<PlannedGroup>, e: Ensuring) {
    && LinksSay(prov, groups, |groups|, e.links) && NoDup(e.order)
    && (forall id :: id in e.order <==> id in e.links)
    && (forall id :: id in e.links ==> id in bodies && !IsLinked(bodies[id]))
  }

  lemma LinkFailures(prov: Provisioner, bodies: map<Uuid, BodyRow>, groups: seq<PlannedGroup>, e: Ensuring,
      dryRun: bool)
    requires ReadyToLink(prov, bodies, groups, e)
    ensures var l := LinkEach(e.links, e.order, dryRun, Linking(bodies, e.failed));
            l.failed == e.failed + |LeftUnlinked(prov, groups, l.bodies, dryRun)|
  {
    hide LinkEach, LinksSay, LeftUnlinked;
    var l := LinkEach(e.links, e.order, dryRun, Linking(bodies, e.failed));
    if dryRun {
      HalvesFail(e.links, e.order, bodies, e.failed);
      HalvesAreLeft(prov, bodies, groups, e);
    } else {
      UnlinkedFail(e.links, e.order, bodies, e.failed);
      UnlinkedAreLeft(prov, bodies, groups, e, l.bodies);
    }
  }

  lemma HalvesAreLeft(prov: Provisioner, bodies: map<Uuid, BodyRow>, groups: seq<PlannedGroup>, e: Ensuring)
    requires ReadyToLink(prov, bodies, groups, e)
    ensures LeftUnlinked(prov, groups, bodies, true) == ToSet(e.order) * Halves(e.links)
  {
    hide SideTo;
    forall b: Uuid ensures LinkSays(prov, groups, |groups|, e.links, b) { }
    hide LinksSay;
    forall b ensures b in LeftUnlinked(prov, groups, bodies, true) <==> b in ToSet(e.order) * Halves(e.links) {
      assert LinkSays(prov, groups, |groups|, e.links, b);
    }
  }

  lemma UnlinkedAreLeft(prov: Provisioner, bodies: map<Uuid, BodyRow>, groups: seq<PlannedGroup>, e: Ensuring,
      after: map<Uuid, BodyRow>)
    requires ReadyToLink(prov, bodies, groups, e) && after.Keys == bodies.Keys
    ensures LeftUnlinked(prov, groups, after, false) == ToSet(e.order) * Unlinked(after)
  {
    hide SideTo;
    forall b: Uuid ensures LinkSays(prov, groups, |groups|, e.links, b) { }
    hide LinksSay;
    forall b ensures b in LeftUnlinked(prov, groups, after, false) <==> b in ToSet(e.order) * Unlinked(after) {
      assert LinkSays(prov, groups, |groups|, e.links, b);
    }
  }

  /** The bodies with a side ensured are unlinked ones. */
  lemma OrderUnlinked(prov: Provisioner, bodies: map<Uuid, BodyRow>, groups: seq<PlannedGroup>, links: Links,
      pending: Pending)
    requires BodiesUnique(bodies) && pending.groups == groups && PlansUnlinked(bodies, AllBodies(bodies), pending)
    requires LinksSay(prov, groups, |groups|, links)
    ensures forall id :: id in links ==> id in bodies && !IsLinked(bodies[id])
  {
    assert forall id: Uuid :: LinkSays(prov, groups, |groups|, links, id);
    hide EnsuredAt, AllBodies, BodiesUnique, IsLinked, LinksSay;
    forall id | id in links ensures id in bodies && !IsLinked(bodies[id]) {
      assert LinkSays(prov, groups, |groups|, links, id);
      var k: nat :| k < |groups| && groups[k].body == Some(id);
      assert groups[k] in groups;
    }
  }
}
