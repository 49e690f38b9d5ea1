/** Exactly when a provisioning run succeeds. */
module ProvisionSuccess {
  import opened Basics
  import opened Database
  import opened Naming
  import opened Provision

  /** Google ensured every pending group. */
  ghost predicate AllEnsured(prov: Provisioner, groups: seq<PlannedGroup>) {
    forall k: nat :: k < |groups| ==> EnsuredAt(prov, groups, k)
  }

  /** A body Google's caps leave a name and an address for, both times. */
  predicate Nameable(id: Uuid, body: BodyRow, config: Config) {
    PlanBody(id, body, config).Some?
  }

  /** The address a body has in one column, or would be given. */
  function AddressOf(body: BodyRow, kind: GroupKind, config: Config): Option<Email> {
    if IsLinked(body) then (if kind.Leaders? then body.leaderGroup else body.memberGroup)
    else GroupEmail(body.name, body.bodyType, kind, config.domain)
  }

  /** No body to be linked would share an address, in its column, with another. */
  ghost predicate Apart(bodies: map<Uuid, BodyRow>, config: Config) {
    forall a, b, kind :: a in bodies && b in bodies && a != b && !IsLinked(bodies[a]) ==>
      AddressOf(bodies[a], kind, config) != AddressOf(bodies[b], kind, config)
  }

  // ------------------------------------------------------------- what is planned

  /** Each group planned for a body has that body's address. */
  ghost predicate PlansAddresses(bodies: map<Uuid, BodyRow>, config: Config, groups: seq<PlannedGroup>) {
    forall g :: g in groups && g.body.Some? ==>
      && g.body.value in bodies && !IsLinked(bodies[g.body.value])
      && AddressOf(bodies[g.body.value], g.kind, config) == Some(g.email)
  }

  lemma PlanNextAddresses(bodies: map<Uuid, BodyRow>, id: Uuid, config: Config, p: Pending)
    requires id in bodies && PlansAddresses(bodies, config, p.groups)
    ensures PlansAddresses(bodies, config, PlanNext(bodies, id, config, p).groups)
    ensures PlanNext(bodies, id, config, p).nameFailures ==
            p.nameFailures + (if IsLinked(bodies[id]) || Nameable(id, bodies[id], config) then 0 else 1)
  {
    hide GroupEmail, GroupLabel;
    if !IsLinked(bodies[id]) && PlanBody(id, bodies[id], config).Some? {
      var pair := PlanBody(id, bodies[id], config).value;
      forall g | g in pair ensures g.body == Some(id) && AddressOf(bodies[id], g.kind, config) == Some(g.email) {
        assert g == pair[0] || g == pair[1];
      }
    }
  }

  lemma {:induction false} PlanEachAddresses(bodies: map<Uuid, BodyRow>, ids: seq<Uuid>, config: Config, p: Pending)
    requires (forall id :: id in ids ==> id in bodies) && PlansAddresses(bodies, config, p.groups)
        && p.nameFailures == 0
    ensures var r := PlanEach(bodies, ids, config, p);
            && PlansAddresses(bodies, config, r.groups)
            && (r.nameFailures == 0 <==> forall id ::
                   id in ids ==> IsLinked(bodies[id]) || Nameable(id, bodies[id], config))
  {
    hide PlanNext, PlansAddresses, Nameable;
    if ids != [] {
      var n := |ids| - 1;
      PlanEachAddresses(bodies, ids[..n], config, p);
      assert forall id :: id in ids <==> id in ids[..n] || id == ids[n] by { assert ids == ids[..n] + [ids[n]]; }
      PlanNextAddresses(bodies, ids[n], config, PlanEach(bodies, ids[..n], config, p));
    }
  }

  // ------------------------------------------------------------- what is ensured

  /** Every link is some planned address. */
  ghost predicate LinksAddresses(bodies: map<Uuid, BodyRow>, config: Config, links: Links) {
    forall id, kind :: id in links && kind in links[id] ==>
      id in bodies && AddressOf(bodies[id], kind, config) == Some(links[id][kind])
  }

  lemma EnsureOneAddress(prov: Provisioner, group: PlannedGroup, creating: set<Email>, e: Ensuring,
      bodies: map<Uuid, BodyRow>, config: Config)
    requires LinksAddresses(bodies, config, e.links) && PlansAddresses(bodies, config, [group])
    ensures LinksAddresses(bodies, config, EnsureOne(prov, group, creating, e).links)
  {
    hide AddressOf, Diverged, IsLinked;
    assert group in [group];
  }

  lemma {:induction false} EnsureEachAddresses(prov: Provisioner, groups: seq<PlannedGroup>, creating: set<Email>,
      e: Ensuring, bodies: map<Uuid, BodyRow>, config: Config)
    requires LinksAddresses(bodies, config, e.links) && PlansAddresses(bodies, config, groups)
    ensures LinksAddresses(bodies, config, EnsureEach(prov, groups, creating, e).links)
  {
    hide EnsureOne, LinksAddresses, AddressOf;
    if groups != [] {
      var n := |groups| - 1;
      assert groups[n] in groups && forall g :: g in groups[..n] ==> g in groups;
      EnsureEachAddresses(prov, groups[..n], creating, e, bodies, config);
      EnsureOneAddress(prov, groups[n], creating, EnsureEach(prov, groups[..n], creating, e), bodies, config);
    }
  }

  // -------------------------------------------------------------- what is linked

  /** The bodies once those in `ids` are linked. */
  function Goal(bodies: map<Uuid, BodyRow>, config: Config, ids: set<Uuid>): map<Uuid, BodyRow> {
    map b | b in bodies ::
      if b in ids then bodies[b].(leaderGroup := AddressOf(bodies[b], Leaders, config), memberGroup :=
          AddressOf(bodies[b], Editors, config))
      else bodies[b]
  }

  /** None of `ids`, so linked, holds another's address. */
  ghost predicate NoClash(goal: map<Uuid, BodyRow>, ids: set<Uuid>) {
    forall a, b :: a in ids && a in goal && b in goal && a != b ==>
      goal[a].leaderGroup != goal[b].leaderGroup && goal[a].memberGroup != goal[b].memberGroup
  }

  /** Every body in `ids` is unlinked and both its addresses are among the links. */
  ghost predicate ToLink(bodies: map<Uuid, BodyRow>, config: Config, links: Links, ids: set<Uuid>) {
    forall id :: id in ids ==>
      && id in bodies && bodies[id].leaderGroup.None? && bodies[id].memberGroup.None?
      && id in links && Leaders in links[id] && Editors in links[id]
      && AddressOf(bodies[id], Leaders, config) == Some(links[id][Leaders])
      && AddressOf(bodies[id], Editors, config) == Some(links[id][Editors])
  }

  lemma GoalNext(bodies: map<Uuid, BodyRow>, config: Config, links: Links, ids: set<Uuid>, id: Uuid)
    requires ToLink(bodies, config, links, ids + {id}) && id !in ids
    ensures var (after, outcome) :=
        SetBodyLink(Goal(bodies, config, ids), id, Some(links[id][Leaders]), Some(links[id][Editors]));
            && (outcome.LinkTaken? <==>
                   Taken(Goal(bodies, config, ids), id, Some(links[id][Leaders]), Some(links[id][Editors])))
            && (!outcome.LinkTaken? ==> after == Goal(bodies, config, ids + {id}))
  {
    hide AddressOf;
    assert id in ids + {id};
  }

  lemma ClashNext(bodies: map<Uuid, BodyRow>, config: Config, links: Links, ids: set<Uuid>, id: Uuid)
    requires ToLink(bodies, config, links, ids + {id}) && id !in ids
    ensures NoClash(Goal(bodies, config, ids + {id}), ids + {id}) <==>
            NoClash(Goal(bodies, config, ids), ids)
                && !Taken(Goal(bodies, config, ids), id, Some(links[id][Leaders]), Some(links[id][Editors]))
  {
    hide AddressOf;
    var before, after := Goal(bodies, config, ids), Goal(bodies, config, ids + {id});
    assert id in ids + {id} && after[id].leaderGroup == Some(links[id][Leaders])
        && after[id].memberGroup == Some(links[id][Editors]);
    assert before[id] == bodies[id];
    assert forall b :: b in bodies && b != id ==> after[b] == before[b];
    if NoClash(after, ids + {id}) {
      forall a, b | a in ids && a in before && b in before && a != b
        ensures before[a].leaderGroup != before[b].leaderGroup && before[a].memberGroup != before[b].memberGroup
      {
        assert a in ids + {id} && before[a].leaderGroup.Some? && before[a].memberGroup.Some?;
      }
    }
    if NoClash(before, ids) && !Taken(before, id, Some(links[id][Leaders]), Some(links[id][Editors])) {
      forall a, b | a in ids + {id} && a in after && b in after && a != b
        ensures after[a].leaderGroup != after[b].leaderGroup && after[a].memberGroup != after[b].memberGroup
      {
      }
    }
  }

  /** The link writes fail nowhere exactly when no address clashes. */
  lemma {:induction false} LinkEachExactly(links: Links, order: seq<Uuid>, bodies: map<Uuid, BodyRow>,
      config: Config, failed: nat)
    requires ToLink(bodies, config, links, ToSet(order)) && NoDup(order) && forall id :: id in order ==> id in links
    ensures var l := LinkEach(links, order, false, Linking(bodies, failed));
            && l.failed >= failed
            && (l.failed == failed <==> NoClash(Goal(bodies, config, ToSet(order)), ToSet(order)))
            && (l.failed == failed ==> l.bodies == Goal(bodies, config, ToSet(order)))
  {
    hide Goal, NoClash, SetBodyLink, Taken, AddressOf;
    if order == [] {
      NothingLinked(bodies, config);
      assert ToSet(order) == {};
    } else {
      var n := |order| - 1;
      var id, ids := order[n], ToSet(order[..n]);
      assert order == order[..n] + [id];
      assert ToSet(order) == ids + {id} && id !in ids && forall x :: x in ids ==> x in ids + {id};
      assert forall x :: x in order[..n] ==> x in order;
      LinkEachExactly(links, order[..n], bodies, config, failed);
      GoalNext(bodies, config, links, ids, id);
      ClashNext(bodies, config, links, ids, id);
      var before := LinkEach(links, order[..n], false, Linking(bodies, failed));
      assert id in ids + {id} && Leaders in links[id] && Editors in links[id];
      assert LinkEach(links, order, false, Linking(bodies, failed)) == LinkOne(links, id, false, before);
    }
  }

  lemma NothingLinked(bodies: map<Uuid, BodyRow>, config: Config)
    ensures Goal(bodies, config, {}) == bodies && NoClash(bodies, {})
  {
  }

  // ----------------------------------------------------------------- main result

  function Unlinked(bodies: map<Uuid, BodyRow>): set<Uuid> {
    set b | b in bodies && !IsLinked(bodies[b])
  }

  /** With every unlinked body linked, clashes are shared addresses. */
  lemma ApartMeans(bodies: map<Uuid, BodyRow>, config: Config)
    requires forall b :: b in bodies && !IsLinked(bodies[b]) ==> Nameable(b, bodies[b], config)
    ensures NoClash(Goal(bodies, config, Unlinked(bodies)), Unlinked(bodies)) <==> Apart(bodies, config)
  {
    hide GroupEmail, GroupLabel, Nameable;
    var goal, ids := Goal(bodies, config, Unlinked(bodies)), Unlinked(bodies);
    assert forall b :: b in bodies ==>
      goal[b].leaderGroup == AddressOf(bodies[b], Leaders, config)
          && goal[b].memberGroup == AddressOf(bodies[b], Editors, config);
    hide Goal, AddressOf;
    if NoClash(goal, ids) {
      forall a, b, kind | a in bodies && b in bodies && a != b && !IsLinked(bodies[a])
        ensures AddressOf(bodies[a], kind, config) != AddressOf(bodies[b], kind, config)
      {
        assert a in ids && a in goal && b in goal;
        assert kind == Leaders || kind == Editors;
      }
    }
    if Apart(bodies, config) {
      forall a, b | a in ids && a in goal && b in goal && a != b
        ensures goal[a].leaderGroup != goal[b].leaderGroup && goal[a].memberGroup != goal[b].memberGroup
      {
        assert AddressOf(bodies[a], Leaders, config) != AddressOf(bodies[b], Leaders, config);
        assert AddressOf(bodies[a], Editors, config) != AddressOf(bodies[b], Editors, config);
      }
    }
  }

  /** Everything a run has to link, once every group is ensured. */
  lemma EnsuredLinks(prov: Provisioner, bodies: map<Uuid, BodyRow>, config: Config, main: Email,
      creating: set<Email>, log: Calls)
    requires BodiesUnique(bodies) && LinksWhole(bodies) && PlanPending(bodies, config, main).nameFailures == 0
    requires EnsureEach(prov, PlanPending(bodies, config, main).groups, creating, StartEnsuring(log, 0)).failed == 0
    ensures var e := EnsureEach(prov, PlanPending(bodies, config, main).groups, creating, StartEnsuring(log, 0));
            && NoDup(e.order) && ToSet(e.order) == Unlinked(bodies)
            && (forall id :: id in e.order <==> id in e.links)
            && ToLink(bodies, config, e.links, Unlinked(bodies))
  {
    hide PlanPending, EnsureEach, AddressOf, IsLinked, BodiesUnique, LinksWhole, AllBodies, PlansUnlinked,
        NoDup;
    var pending, start := PlanPending(bodies, config, main), StartEnsuring(log, 0);
    var e := EnsureEach(prov, pending.groups, creating, start);
    PendingAddresses(bodies, config, main);
    PendingUnlinked(bodies, config, main);
    assert LinksAddresses(bodies, config, start.links);
    EnsureEachAddresses(prov, pending.groups, creating, start, bodies, config);
    LinksFromPending(prov, pending.groups, creating, start);
    NothingOrdered();
    OrderIsLinks(prov, pending.groups, creating, start);
    forall id | id in e.order ensures id in Unlinked(bodies) {
      var g :| g in pending.groups && g.body == Some(id);
    }
    forall id | id in Unlinked(bodies)
      ensures id in e.links && Leaders in e.links[id] && Editors in e.links[id]
    {
      UnlinkedPlanned(bodies, pending, id);
      var g :| g in pending.groups && g.body == Some(id) && g.kind == Leaders;
      var h :| h in pending.groups && h.body == Some(id) && h.kind == Editors;
    }
    UnlinkedHaveNone(bodies);
  }

  lemma NothingOrdered()
    ensures var none: seq<Uuid> := []; NoDup(none)
  {
  }

  lemma UnlinkedPlanned(bodies: map<Uuid, BodyRow>, pending: Pending, id: Uuid)
    requires BodiesUnique(bodies) && PlansUnlinked(bodies, AllBodies(bodies), pending) && pending.nameFailures == 0
    requires id in Unlinked(bodies)
    ensures Planned(pending.groups, id, Leaders) && Planned(pending.groups, id, Editors)
  {
    assert id in AllBodies(bodies);
  }

  lemma UnlinkedHaveNone(bodies: map<Uuid, BodyRow>)
    requires LinksWhole(bodies)
    ensures forall id :: id in Unlinked(bodies) ==> bodies[id].leaderGroup.None? && bodies[id].memberGroup.None?
  {
  }

  lemma PendingAddresses(bodies: map<Uuid, BodyRow>, config: Config, main: Email)
    requires BodiesUnique(bodies)
    ensures var p := PlanPending(bodies, config, main);
            && PlansAddresses(bodies, config, p.groups)
            && (p.nameFailures == 0 <==> forall b ::
                   b in bodies && !IsLinked(bodies[b]) ==> Nameable(b, bodies[b], config))
  {
    hide PlanEach, Nameable, AllBodies;
    PlanEachAddresses(bodies, AllBodies(bodies), config,
        Pending([PlannedGroup(main, config.mainGroupName, None, Leaders)], 0));
  }

  /** What a real run comes to, from its parts. */
  lemma RunFails(prov: Provisioner, bodies: map<Uuid, BodyRow>, bootstrapped: bool, config: Config, main: Email)
    requires BodiesUnique(bodies)
    ensures var r, pending :=
        Provision.Provision(prov, bodies, bootstrapped, config, main, false), PlanPending(bodies, config, main);
            var sized := SizeUp(prov, pending.groups, Sizing([], [], false));
            var start := StartEnsuring(sized.log, pending.nameFailures);
            var e := EnsureEach(prov, pending.groups, Emails(sized.missing), start);
            && (forall id :: id in e.order ==> id in e.links)
            && (r.Provisioned? <==> !sized.aborted)
            && (!sized.aborted ==>
                  && (r.report.HasFailures() <==>
                        || (TripwireRefuses(bootstrapped, |sized.missing|, config.cap)
                            && (|sized.missing| > 0 || pending.nameFailures > 0))
                        || (!TripwireRefuses(bootstrapped, |sized.missing|, config.cap)
                            && LinkEach(e.links, e.order, false, Linking(bodies, e.failed)).failed > 0)))
  {
    hide PlanPending, SizeUp, EnsureEach, LinkEach, Emails, AlreadyLinked, BodiesUnique;
    var pending := PlanPending(bodies, config, main);
    var sized := SizeUp(prov, pending.groups, Sizing([], [], false));
    OrderIsLinks(prov, pending.groups, Emails(sized.missing), StartEnsuring(sized.log, pending.nameFailures));
  }

  /** What ensuring fails at, from Google's answers. */
  lemma EnsuringFails(prov: Provisioner, groups: seq<PlannedGroup>, nameFailures: nat)
    requires !SizeUp(prov, groups, Sizing([], [], false)).aborted
    ensures var sized := SizeUp(prov, groups, Sizing([], [], false));
            var e := EnsureEach(prov, groups, Emails(sized.missing), StartEnsuring(sized.log, nameFailures));
            e.failed >= nameFailures && (e.failed == nameFailures <==> AllEnsured(prov, groups))
  {
    hide SizeUp, EnsureEach, Emails, EnsuredAt, Questions, SaidMissing, Answer;
    var sized := SizeUp(prov, groups, Sizing([], [], false));
    SizedUpExactly(prov, groups);
    EnsuredSoFar(prov, groups, |groups|, Emails(sized.missing), StartEnsuring(sized.log, nameFailures));
    assert groups[..|groups|] == groups;
  }

  /** A run goes through exactly when Google answers every question; and a real one then
      reports no failure exactly when the cap lets it through, every unlinked body can
      be named, Google ensures every group, and none of those bodies would share an
      address with another body, linked or to be linked. */
  lemma SuccessExactly(prov: Provisioner, bodies: map<Uuid, BodyRow>, bootstrapped: bool, config: Config, main: Email)
    requires BodiesUnique(bodies) && LinksWhole(bodies)
    ensures var r, groups :=
        Provision.Provision(prov, bodies, bootstrapped, config, main, false), PlanPending(bodies, config, main).groups;
            && (r.Provisioned? <==> forall k: nat :: k < |groups| ==> Answer(prov, groups, k).Some?)
            && (r.Provisioned? ==>
                  (!r.report.HasFailures() <==>
                    && !TripwireRefuses(bootstrapped, |Missing(prov, groups)|, config.cap)
                    && (forall b :: b in bodies && !IsLinked(bodies[b]) ==> Nameable(b, bodies[b], config))
                    && AllEnsured(prov, groups) && Apart(bodies, config)))
  {
    hide Provision.Provision, PlanPending, SizeUp, EnsureEach, LinkEach, Emails, Nameable, Apart, Goal, NoClash,
        BodiesUnique, LinksWhole, AllEnsured, Missing, Answer, SaidMissing, Questions;
    var pending := PlanPending(bodies, config, main);
    var sized := SizeUp(prov, pending.groups, Sizing([], [], false));
    var e := EnsureEach(prov, pending.groups, Emails(sized.missing), StartEnsuring(sized.log, pending.nameFailures));
    RunFails(prov, bodies, bootstrapped, config, main);
    SizedUpExactly(prov, pending.groups);
    PendingAddresses(bodies, config, main);
    if !sized.aborted {
      EnsuringFails(prov, pending.groups, pending.nameFailures);
      if pending.nameFailures == 0 && AllEnsured(prov, pending.groups) {
        EnsuredLinks(prov, bodies, config, main, Emails(sized.missing), sized.log);
        LinkEachExactly(e.links, e.order, bodies, config, 0);
        ApartMeans(bodies, config);
      } else {
        LinkFailuresStay(e.links, e.order, bodies, e.failed);
      }
    }
  }

  lemma {:induction false} LinkFailuresStay(links: Links, order: seq<Uuid>, bodies: map<Uuid, BodyRow>, failed: nat)
    requires forall id :: id in order ==> id in links
    ensures LinkEach(links, order, false, Linking(bodies, failed)).failed >= failed
  {
    if order != [] { LinkFailuresStay(links, order[..|order| - 1], bodies, failed); }
  }
}
