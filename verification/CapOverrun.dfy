/** A run that reports more groups created than its cap, though the cap was armed: two
    bodies whose names differ in case share both their addresses, and Google answers
    one way when first asked about an address and the other way the second time. */
module CapOverrun {
  import opened Basics
  import opened Database
  import opened Naming
  import opened NameClashes
  import opened Provision

  const TWO_BODIES: map<Uuid, BodyRow> :=
      map[1 := BodyRow("Zine", "Committee", None, None), 2 := BodyRow("zine", "Committee", None, None)]

  const CAP_OF_TWO := Config("dsa.org", "Everyone", 2)

  const MAIN := "all@dsa.org"

  /** The second and the third question are answered no, every other yes; and every
      group is ensured. */
  const WAVERING := Provisioner(
    (log: Calls, e: Email) => Some(|log| == 0 || |log| > 2),
    (log: Calls, e: Email, name: string) => Some(Seen(map[], map[])))

  lemma TwoBodiesUnique()
    ensures BodiesUnique(TWO_BODIES)
  {
    assert "Zine" != "zine" by { assert "Zine"[0] != "zine"[0]; }
  }

  // --------------------------------------------------------------- their names

  lemma {:induction false} WordsBound(s: string)
    ensures |Words(s)| <= |s|
    decreases |s|
  {
    var t := Lstrip(s);
    if t != [] {
      WordsBound(t[|FirstWord(t)|..]);
    }
  }

  /** A short name and type leave room for the acronym. */
  lemma ShortLabels(name: string, bodyType: string, kind: GroupKind)
    requires |name| + |bodyType| + 8 <= DISPLAY_NAME_CAP
    ensures GroupLabel(name, bodyType, kind).Some?
  {
    WordsBound(name);
    WordsBound(bodyType);
    hide Words, SignificantInitials, Titlecase, GroupLabel, EmailRungs, GroupLocal;
    NamingFailsExactly(name, bodyType, kind);
  }

  lemma ShortAddress(name: string, kind: GroupKind)
    requires |name| <= 4
    ensures var a := GroupEmail(name, "Committee", kind, "dsa.org"); a.Some? && |a.value| > |MAIN|
  {
    ShortNamesFit(name, "Committee", kind);
    LocalOnRung(name, "Committee", kind);
    hide Slugify, Short, Rung, GroupLocal;
  }

  /** Both bodies can be named, and get the same two addresses. */
  lemma SharedPair()
    ensures forall id :: id in TWO_BODIES ==> PlanBody(id, TWO_BODIES[id], CAP_OF_TWO).Some?
    ensures forall id, k :: id in TWO_BODIES && 0 <= k < 2 ==>
        |PlanBody(id, TWO_BODIES[id], CAP_OF_TWO).value[k].email| > |MAIN|
    ensures forall a, b, k :: a in TWO_BODIES && b in TWO_BODIES && 0 <= k < 2 ==>
        PlanBody(a, TWO_BODIES[a], CAP_OF_TWO).value[k].email == PlanBody(b, TWO_BODIES[b], CAP_OF_TWO).value[k].email
  {
    hide GroupEmail, GroupLabel;
    forall kind: GroupKind ensures
        && GroupEmail("Zine", "Committee", kind, "dsa.org") == GroupEmail("zine", "Committee", kind, "dsa.org")
        && GroupLabel("Zine", "Committee", kind).Some? && GroupLabel("zine", "Committee", kind).Some?
        && GroupEmail("Zine", "Committee", kind, "dsa.org").Some?
        && |GroupEmail("Zine", "Committee", kind, "dsa.org").value| > |MAIN|
    {
      CaseIsForgotten(kind, "dsa.org");
      ShortLabels("Zine", "Committee", kind);
      ShortLabels("zine", "Committee", kind);
      ShortAddress("Zine", kind);
    }
    forall id | id in TWO_BODIES
      ensures PlanBody(id, TWO_BODIES[id], CAP_OF_TWO).Some?
    {
      assert TWO_BODIES[id].name == "Zine" || TWO_BODIES[id].name == "zine";
    }
  }

  // --------------------------------------------------------------- what is planned

  /** The main group and two pairs of groups with the same two addresses. */
  ghost predicate TwicePlanned(groups: seq<PlannedGroup>) {
    && |groups| == 5 && groups[0].email == MAIN && groups[1].email != MAIN && groups[2].email != MAIN
    && groups[3].email == groups[1].email && groups[4].email == groups[2].email
  }

  lemma TwoInOrder()
    ensures BodiesUnique(TWO_BODIES)
    ensures var ids := AllBodies(TWO_BODIES); |ids| == 2 && forall k :: 0 <= k < 2 ==> ids[k] in TWO_BODIES
  {
    TwoBodiesUnique();
    hide BodiesUnique, AllBodies;
    var ids := AllBodies(TWO_BODIES);
    NoDupSize(ids);
    assert ToSet(ids) == {1, 2};
    assert ids[0] in ids && ids[1] in ids;
  }

  /** Two unlinked bodies that can be named are planned pair after pair. */
  lemma PairAfterPair(bodies: map<Uuid, BodyRow>, ids: seq<Uuid>, config: Config, start: Pending)
    requires |ids| == 2 && forall k :: 0 <= k < 2 ==>
        ids[k] in bodies && !IsLinked(bodies[ids[k]]) && PlanBody(ids[k], bodies[ids[k]], config).Some?
    ensures (forall id :: id in ids ==> id in bodies) && PlanEach(bodies, ids, config, start).groups ==
        start.groups + PlanBody(ids[0], bodies[ids[0]], config).value + PlanBody(ids[1], bodies[ids[1]], config).value
  {
    hide PlanBody, IsLinked;
    assert ids[..1][..0] == [] && PlanEach(bodies, [], config, start) == start;
    assert PlanEach(bodies, ids[..1], config, start) == PlanNext(bodies, ids[0], config, start);
  }

  lemma PlansTwice()
    ensures BodiesUnique(TWO_BODIES)
    ensures TwicePlanned(PlanPending(TWO_BODIES, CAP_OF_TWO, MAIN).groups)
  {
    hide PlanBody, AllBodies, BodiesUnique, PlanEach;
    TwoInOrder();
    SharedPair();
    PairAfterPair(TWO_BODIES, AllBodies(TWO_BODIES), CAP_OF_TWO,
        Pending([PlannedGroup(MAIN, "Everyone", None, Leaders)], 0));
  }

  // ------------------------------------------------------------------- the run

  lemma WaversAt(groups: seq<PlannedGroup>, k: nat)
    requires k < |groups|
    ensures Answer(WAVERING, groups, k) == Some(k == 0 || k > 2) && EnsuredAt(WAVERING, groups, k)
  {
    assert |Questions(groups[..k])| == k;
  }

  lemma Wavers(groups: seq<PlannedGroup>)
    requires TwicePlanned(groups)
    ensures |Missing(WAVERING, groups)| == 2 && |Contradicted(WAVERING, groups)| == 2
    ensures |Minted(WAVERING, groups)| == 4
  {
    hide Answer, EnsuredAt, WAVERING;
    forall k: nat | k < 5 ensures Answer(WAVERING, groups, k) == Some(k == 0 || k > 2) && EnsuredAt(WAVERING, groups, k)
    {
      WaversAt(groups, k);
    }
    assert Missing(WAVERING, groups) == {1, 2};
    assert SaidMissing(WAVERING, groups, groups[1].email);
    assert SaidMissing(WAVERING, groups, groups[2].email);
    assert !SaidMissing(WAVERING, groups, MAIN);
    assert Contradicted(WAVERING, groups) == {3, 4};
    hide Missing, Contradicted, SaidMissing;
    MintedMeans(WAVERING, groups);
  }

  lemma {:induction false} NeverAborts(groups: seq<PlannedGroup>, s: Sizing)
    requires !s.aborted
    ensures !SizeUp(WAVERING, groups, s).aborted
    decreases |groups|
  {
    if groups != [] {
      var asked := s.(log := s.log + [Asked(groups[0].email)]);
      NeverAborts(groups[1..],
        if WAVERING.has(s.log, groups[0].email).value then asked else asked.(missing := s.missing + [groups[0]]));
    }
  }

  /** Two groups missing, a cap of two, and four reported created. */
  lemma CountPassesCap(dryRun: bool)
    ensures BodiesUnique(TWO_BODIES)
    ensures var r := Provision.Provision(WAVERING, TWO_BODIES, true, CAP_OF_TWO, MAIN, dryRun);
            && r.Provisioned? && r.report.created == 4 > CAP_OF_TWO.cap
            && |Missing(WAVERING, PlanPending(TWO_BODIES, CAP_OF_TWO, MAIN).groups)| == 2
  {
    PlansTwice();
    var groups := PlanPending(TWO_BODIES, CAP_OF_TWO, MAIN).groups;
    NeverAborts(groups, Sizing([], [], false));
    Wavers(groups);
    hide TwicePlanned, PlanPending, Minted, Missing, WAVERING, SizeUp, EnsureEach, LinkEach, BodiesUnique, TWO_BODIES;
    CreatedExactly(WAVERING, TWO_BODIES, true, CAP_OF_TWO, MAIN, dryRun);
  }
}
