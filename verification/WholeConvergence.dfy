/** A whole run at a Google that answers definitively: every group converges to the
    records at once, and the next run asks for nothing. */
module WholeConvergence {
  import opened Basics
  import opened GroupSync
  import opened EmailStatus
  import opened Plan
  import opened Apply
  import opened Sweep
  import opened SweepSteps
  import opened SweepTheorems
  import opened Convergence

  /** The groups' lists as a run finds them, what Google refuses, and the records,
      which do not change while it runs. */
  datatype Scene = Scene(
    bases: Email -> seq<Entry>, refuses: Verdicts, audiences: Audiences,
    current: (Log, Email) -> map<string, Uuid>, allow: bool)

  ghost predicate Steady(c: Scene) {
    && AllVerdicts(c.refuses) && NormalAudiences(c.audiences)
    && forall g, log :: g in c.audiences ==> c.current(log, g) == c.audiences[g]
  }

  /** No group would lose more than its budget. */
  ghost predicate QuietFuses(c: Scene) {
    forall g :: g in c.audiences ==> c.allow || FewEnough(|UnwantedIn(c.bases(g), c.audiences[g])|, |c.bases(g)|)
  }

  function WorldAt(c: Scene): World {
    World(Answering(c.bases, c.refuses), c.current)
  }

  function EntriesAt(c: Scene, g: Email, log: Log): seq<Entry> {
    ListAfter(c.bases(g), g, log)
  }

  /** A desired address the group lacked. */
  predicate Missing(c: Scene, g: Email, k: string) {
    g in c.audiences && k in c.audiences[g] && k !in Keys(c.bases(g))
  }

  /** All addresses some group lacks. */
  function Wanting(c: Scene): set<string> {
    set g, k | g in c.audiences && k in c.audiences[g] && k !in Keys(c.bases(g)) :: k
  }

  /** The group has its desired addresses, less those missing ones with a live refusal,
      a lapsed one not yet retried, or a new one. */
  ghost predicate Shows(c: Scene, live: set<string>, lapsed: set<string>, g: Email, entries: seq<Entry>)
    requires g in c.audiences
  {
    forall k :: k in c.audiences[g] ==>
      (k in Keys(entries) <==> k in Keys(c.bases(g)) || (k !in live && k !in lapsed && k !in c.refuses))
  }

  /** Beside desired addresses it has its protected ones and no other, and nothing it
      has is to be removed. */
  ghost predicate Tidy(c: Scene, g: Email, entries: seq<Entry>)
    requires g in c.audiences
  {
    && ProtectedKeys(c.bases(g)) <= Keys(entries)
    && (forall k :: k in Keys(entries) ==> k in ProtectedKeys(c.bases(g)) || k in c.audiences[g])
    && (forall e :: e in entries ==> !Removable(e, c.audiences[g]))
  }

  /** The group shows the records: its protected addresses and the desired ones, less
      those missing ones with a live refusal, a lapsed one not yet retried, or a new
      one; and nothing it shows is to be removed. */
  ghost predicate Mirrors(c: Scene, live: set<string>, lapsed: set<string>, g: Email, entries: seq<Entry>)
    requires g in c.audiences
  {
    && (forall k :: k in Keys(entries) <==>
          || k in ProtectedKeys(c.bases(g))
          || (k in c.audiences[g] && k in Keys(c.bases(g)))
          || (Missing(c, g, k) && k !in live && k !in lapsed && k !in c.refuses))
    && (forall e :: e in entries ==> !Removable(e, c.audiences[g]))
  }

  lemma ShowsTidyMirrors(c: Scene, live: set<string>, lapsed: set<string>, g: Email, entries: seq<Entry>)
    requires g in c.audiences && Shows(c, live, lapsed, g, entries) && Tidy(c, g, entries)
    ensures Mirrors(c, live, lapsed, g, entries)
  {
    hide Keys, ProtectedKeys, Removable;
  }

  function RefusedIn(s: RunState): set<Email> {
    AddressesOf(s.refusals)
  }

  /** What the run withholds is what it began with and what Google has refused since,
      and it has failed at nothing. */
  ghost predicate Knows(c: Scene, live: set<string>, s: RunState) {
    && s.unmirrorable == live + RefusedIn(s) && s.unmirrorable !! s.lapsed && 0 <= s.retrySlots
    && (forall a :: a in RefusedIn(s) ==> a in c.refuses && a !in live)
    && (forall a :: a in s.accepted ==> a !in c.refuses && a !in live && a !in s.lapsed)
    && (forall k :: 0 <= k < |s.outcomes| ==> s.outcomes[k].failed == 0)
  }

  /** All it retried, met a refusal for or saw accepted was missing somewhere. */
  ghost predicate Sought(c: Scene, lapsed0: set<string>, s: RunState) {
    s.lapsed <= lapsed0 && (lapsed0 - s.lapsed) + RefusedIn(s) + s.accepted <= Wanting(c)
  }

  /** The swept groups have what they can, the others are as they were; while slots are
      left no swept group waits for one; and each verdict to come has been met. */
  ghost predicate Halfway(c: Scene, statuses: EmailStatuses, done: set<Email>, s: RunState) {
    && done <= c.audiences.Keys && Knows(c, statuses.live, s) && Sought(c, statuses.Lapsed(), s)
    && (forall g :: g in c.audiences && g !in done ==> EntriesAt(c, g, s.log) == c.bases(g))
    && (forall g :: g in done ==> Shows(c, statuses.live, s.lapsed, g, EntriesAt(c, g, s.log)))
    && (s.retrySlots > 0 ==> forall g, k :: g in done && Missing(c, g, k) ==> k !in s.lapsed)
    && (forall g, k :: g in done && Missing(c, g, k) && k !in statuses.live && k !in s.lapsed ==>
          if k in c.refuses then k in RefusedIn(s) else k in s.accepted)
  }

  /** All swept groups are tidy. */
  ghost predicate AllTidy(c: Scene, done: set<Email>, s: RunState) {
    forall g :: g in done ==> g in c.audiences && Tidy(c, g, EntriesAt(c, g, s.log))
  }

  // --------------------------------------------------------------------- frame

  /** Calls on other groups leave a group's list alone. */
  lemma {:induction false} ListFrame(base: seq<Entry>, g: Email, log: Log, end: Log)
    requires log <= end && forall i :: |log| <= i < |end| ==> end[i].group != g
    ensures ListAfter(base, g, end) == ListAfter(base, g, log)
    decreases |end|
  {
    if |end| > |log| {
      var n := |end| - 1;
      assert end == end[..n] + [end[n]];
      ListFrame(base, g, log, end[..n]);
      ListNext(base, g, end[..n], end[n]);
    } else {
      assert end == log;
    }
  }

  lemma OthersKept(c: Scene, group: Email, s: RunState)
    requires Steady(c) && group in c.audiences
    ensures var r := SweptGroup(WorldAt(c), group, c.audiences[group], c.allow, s);
            forall g :: g != group ==> EntriesAt(c, g, r.log) == EntriesAt(c, g, s.log)
  {
    hide SweptGroup, GroupStep, Answering, ListAfter;
    var w, desired := WorldAt(c), c.audiences[group];
    ListsAlways(c, group, s.log);
    var actual := w.google.list(s.log, group).value;
    var plan, retried := SweptGroupStep(w, group, desired, c.allow, s);
    var r := SweptGroup(w, group, desired, c.allow, s);
    StepEvents(w, group, desired, c.allow, s, r, actual, plan, retried);
    forall g | g != group ensures EntriesAt(c, g, r.log) == EntriesAt(c, g, s.log) {
      ListFrame(c.bases(g), g, s.log, r.log);
    }
  }

  lemma ListsAlways(c: Scene, group: Email, log: Log)
    ensures WorldAt(c).google.list(log, group) == Some(EntriesAt(c, group, log))
  {
  }

  // ------------------------------------------------------------------- one group

  /** What sweeping one group does, told with the scene. */
  lemma GroupOffers(c: Scene, group: Email, s: RunState)
    requires Steady(c) && group in c.audiences && EntriesAt(c, group, s.log) == c.bases(group)
    ensures var plan := ListedPlan(WorldAt(c), group, c.audiences[group], c.bases(group), c.allow, s);
            var r := SweptGroup(WorldAt(c), group, c.audiences[group], c.allow, s);
            && AddsRight(InputsFor(c.audiences[group], c.bases(group), c.allow, s), plan)
            && HasOffered(c, group, plan, EntriesAt(c, group, r.log))
            && Learned(c, plan, s, r)
  {
    hide SweptGroup, ListAfter, Answering, SweptTo, PlanOf, GroupStep, Removals, HasOffered, AddsRight, Keys, Normal;
    var desired := c.audiences[group];
    var plan := ListedPlan(WorldAt(c), group, desired, c.bases(group), c.allow, s);
    PlannedRight(c, group, s);
    SweepDecides(c.bases, c.refuses, group, desired, c.current, c.allow, s);
    OfferedKept(c, group, plan, EntriesAt(c, group, SweptGroup(WorldAt(c), group, desired, c.allow, s).log));
    OutcomesGrow(c, group, s);
  }

  lemma PlannedRight(c: Scene, group: Email, s: RunState)
    requires Steady(c) && group in c.audiences
    ensures var plan := ListedPlan(WorldAt(c), group, c.audiences[group], c.bases(group), c.allow, s);
            && AddsRight(InputsFor(c.audiences[group], c.bases(group), c.allow, s), plan)
            && (forall x :: x in Addresses(plan.adds) ==> x in c.audiences[group])
            && (forall r :: r in plan.removes ==> Norm(r) !in c.audiences[group])
  {
    hide PlanOf, AddsRight, Removals, Keys;
    var input := InputsFor(c.audiences[group], c.bases(group), c.allow, s);
    PlanPartitionsDesired(group, input);
    PlanRemovesSafely(group, input);
    PlannedNormal(input, PlanOf(group, input));
  }

  /** The group's desired addresses are those it had and those offered and taken. */
  ghost predicate HasOffered(c: Scene, group: Email, plan: GroupPlan, entries: seq<Entry>)
    requires group in c.audiences
  {
    forall k :: k in c.audiences[group] ==>
      (k in Keys(entries) <==> k in Keys(c.bases(group)) || (k in Addresses(plan.adds) && k !in c.refuses))
  }

  /** What the run learned from the group. */
  ghost predicate Learned(c: Scene, plan: GroupPlan, s: RunState, r: RunState) {
    var adds := Addresses(plan.adds);
    && r.accepted == s.accepted + Taken(adds, c.refuses) && r.unmirrorable == s.unmirrorable + Refused(adds, c.refuses)
    && RefusedIn(r) == RefusedIn(s) + Refused(adds, c.refuses)
    && r.lapsed == s.lapsed - ToSet(plan.retried) && r.retrySlots == s.retrySlots - |plan.retried|
    && s.outcomes <= r.outcomes && |r.outcomes| == |s.outcomes| + 1 && LastOutcome(r).failed == 0
  }

  lemma OfferedKept(c: Scene, group: Email, plan: GroupPlan, entries: seq<Entry>)
    requires Steady(c) && group in c.audiences && SweptTo(c.bases(group), entries, plan, c.refuses)
    requires forall x :: x in Addresses(plan.adds) ==> x in c.audiences[group]
    requires forall r :: r in plan.removes ==> Norm(r) !in c.audiences[group]
    ensures HasOffered(c, group, plan, entries)
  {
    var actual := c.bases(group);
    forall a | a in c.audiences[group]
      ensures a in Keys(entries) <==> a in Keys(actual) || (a in Addresses(plan.adds) && a !in c.refuses)
    {
      assert a !in NormAll(plan.removes);
      if a in Keys(entries) {
        var e :| e in entries && Norm(e.email) == a;
        assert e in actual || AddedEntry(e, Addresses(plan.adds), c.refuses);
        if e in actual { assert a in Keys(actual); }
      }
      if a in Keys(actual) {
        var e :| e in actual && Norm(e.email) == a;
        assert e in entries;
      } else if a in Addresses(plan.adds) && a !in c.refuses {
        assert AddedEntry(NewEntry(a), Addresses(plan.adds), c.refuses);
        assert NewEntry(a) in entries;
      }
    }
  }

  /** With its removal fuse quiet the group is left tidy. */
  lemma GroupTidied(c: Scene, group: Email, s: RunState)
    requires Steady(c) && QuietFuses(c) && group in c.audiences && EntriesAt(c, group, s.log) == c.bases(group)
    ensures var r := SweptGroup(WorldAt(c), group, c.audiences[group], c.allow, s);
            Tidy(c, group, EntriesAt(c, group, r.log))
  {
    var desired := c.audiences[group];
    var input := InputsFor(desired, c.bases(group), c.allow, s);
    NoTrip(group, input);
    hide SweptGroup, ListAfter, Answering, SweptTo, PlanOf, GroupStep, Removals, Keys, ProtectedKeys, Removable;
    SweepDecides(c.bases, c.refuses, group, desired, c.current, c.allow, s);
    SweptConverged(input, group, EntriesAt(c, group, SweptGroup(WorldAt(c), group, desired, c.allow, s).log),
        c.refuses);
  }

  lemma OutcomesGrow(c: Scene, group: Email, s: RunState)
    requires group in c.audiences
    ensures s.outcomes <= SweptGroup(WorldAt(c), group, c.audiences[group], c.allow, s).outcomes
  {
    hide SweptGroup, PlanEvents, Learns, Answering, ListAfter;
    ListsAlways(c, group, s.log);
    var plan, retried := SweptGroupStep(WorldAt(c), group, c.audiences[group], c.allow, s);
  }

  lemma NoTrip(group: Email, input: Inputs)
    requires input.allowMassRemoval || FewEnough(|UnwantedIn(input.actual, input.desired)|, |input.actual|)
    ensures !PlanOf(group, input).FuseTripped()
  {
    PlanRemovesSafely(group, input);
    hide PlanOf, UnwantedIn;
  }

  /** What becomes of a missing address: withheld for a live refusal, or as a lapsed
      one without a slot, or refused, or offered and taken. */
  lemma MissingSettled(c: Scene, live: set<string>, group: Email, s: RunState, r: RunState, plan: GroupPlan, k: string)
    requires group in c.audiences && AddsRight(InputsFor(c.audiences[group], c.bases(group), c.allow, s), plan)
    requires Knows(c, live, s) && Missing(c, group, k) && Learned(c, plan, s, r)
    ensures k !in c.refuses ==> (k in Addresses(plan.adds) <==> k !in live && k !in r.lapsed)
    ensures k !in live && k !in r.lapsed ==> if k in c.refuses then k in RefusedIn(r) else k in r.accepted
    ensures k in r.lapsed ==> r.retrySlots <= 0
  {
    hide Keys, RefusedIn;
    assert k in Addresses(plan.adds) || k in Addresses(plan.excluded);
    assert k in plan.retried <==> k in ToSet(plan.retried);
  }

  lemma KnowsAfter(c: Scene, live: set<string>, group: Email, s: RunState, r: RunState, plan: GroupPlan)
    requires group in c.audiences && AddsRight(InputsFor(c.audiences[group], c.bases(group), c.allow, s), plan)
    requires Knows(c, live, s) && Learned(c, plan, s, r)
    ensures Knows(c, live, r)
  {
    hide Keys, RefusedIn;
    forall k | 0 <= k < |r.outcomes| ensures r.outcomes[k].failed == 0 {
      if k < |s.outcomes| { assert r.outcomes[k] == s.outcomes[k]; }
    }
    forall a | a in Addresses(plan.adds) ensures a !in r.lapsed && a !in live {
      assert a in plan.retried <==> a in ToSet(plan.retried);
    }
  }

  lemma SoughtAfter(c: Scene, lapsed0: set<string>, group: Email, s: RunState, r: RunState, plan: GroupPlan)
    requires group in c.audiences && AddsRight(InputsFor(c.audiences[group], c.bases(group), c.allow, s), plan)
    requires Sought(c, lapsed0, s) && Learned(c, plan, s, r)
    ensures Sought(c, lapsed0, r)
  {
    hide Keys, RefusedIn, Wanting;
    forall a | a in Addresses(plan.adds) ensures a in Wanting(c) {
      AddsAreMissing(c, group, s, plan, a);
      MissingIsWanting(c, group, a);
    }
  }

  lemma MissingIsWanting(c: Scene, g: Email, k: string)
    ensures Missing(c, g, k) ==> k in Wanting(c)
  {
    hide Keys;
  }

  /** The group just swept has what it can. */
  lemma GroupShows(c: Scene, live: set<string>, group: Email, s: RunState, r: RunState, plan: GroupPlan,
      entries: seq<Entry>)
    requires group in c.audiences && AddsRight(InputsFor(c.audiences[group], c.bases(group), c.allow, s), plan)
    requires Knows(c, live, s) && Learned(c, plan, s, r) && HasOffered(c, group, plan, entries)
    ensures Shows(c, live, r.lapsed, group, entries)
  {
    hide AddsRight, Keys, Knows, Learned;
    forall k | k in c.audiences[group] && k !in Keys(c.bases(group))
      ensures k in Keys(entries) <==> k !in live && k !in r.lapsed && k !in c.refuses
    {
      MissingSettled(c, live, group, s, r, plan, k);
    }
  }

  lemma StillShows(c: Scene, live: set<string>, before: set<string>, after: set<string>, g: Email,
      entries: seq<Entry>)
    requires g in c.audiences && Shows(c, live, before, g, entries)
    requires forall k :: Missing(c, g, k) ==> (k in after <==> k in before)
    ensures Shows(c, live, after, g, entries)
  {
    hide Keys;
    forall k | k in c.audiences[g] && k !in Keys(c.bases(g)) ensures k in after <==> k in before {
      assert Missing(c, g, k);
    }
  }

  lemma HalfwayNext(c: Scene, statuses: EmailStatuses, done: set<Email>, s: RunState, group: Email)
    requires Steady(c) && Halfway(c, statuses, done, s) && group in c.audiences && group !in done
    ensures Halfway(c, statuses, done + {group}, SweptGroup(WorldAt(c), group, c.audiences[group], c.allow, s))
  {
    hide SweptGroup, Steady, AddsRight, HasOffered, Knows, Sought, Shows, Missing, EntriesAt, ListedPlan, InputsFor,
        RefusedIn;
    var live := statuses.live;
    var r := SweptGroup(WorldAt(c), group, c.audiences[group], c.allow, s);
    var plan := ListedPlan(WorldAt(c), group, c.audiences[group], c.bases(group), c.allow, s);
    GroupOffers(c, group, s);
    OthersKept(c, group, s);
    KnowsAfter(c, live, group, s, r, plan);
    SoughtAfter(c, statuses.Lapsed(), group, s, r, plan);
    GroupShows(c, live, group, s, r, plan, EntriesAt(c, group, r.log));
    NoMoreSlots(s, r, plan);
    KnowsSlots(c, live, r);
    KnowsSlots(c, live, s);
    forall g | g in done ensures Shows(c, live, r.lapsed, g, EntriesAt(c, g, r.log)) {
      if s.retrySlots > 0 {
        forall k | Missing(c, g, k) ensures k in r.lapsed <==> k in s.lapsed { }
      }
      StillShows(c, live, s.lapsed, r.lapsed, g, EntriesAt(c, g, s.log));
    }
    forall g, k | g in done + {group} && Missing(c, g, k) && r.retrySlots > 0 ensures k !in r.lapsed {
      if g == group { MissingSettled(c, live, group, s, r, plan, k); }
    }
    forall g, k | g in done + {group} && Missing(c, g, k) && k !in live && k !in r.lapsed
      ensures if k in c.refuses then k in RefusedIn(r) else k in r.accepted
    {
      if g == group {
        MissingSettled(c, live, group, s, r, plan, k);
      } else {
        assert k !in s.lapsed || s.retrySlots > 0;
      }
    }
  }

  lemma TidyNext(c: Scene, statuses: EmailStatuses, done: set<Email>, s: RunState, group: Email)
    requires Steady(c) && QuietFuses(c) && Halfway(c, statuses, done, s) && group in c.audiences && group !in done
    requires AllTidy(c, done, s)
    ensures AllTidy(c, done + {group}, SweptGroup(WorldAt(c), group, c.audiences[group], c.allow, s))
  {
    hide SweptGroup, Steady, QuietFuses, Knows, Sought, Shows, Missing, EntriesAt, RefusedIn, Tidy;
    OthersKept(c, group, s);
    GroupTidied(c, group, s);
  }

  lemma KnowsSlots(c: Scene, live: set<string>, s: RunState)
    requires Knows(c, live, s)
    ensures 0 <= s.retrySlots
  {
  }

  /** Without slots no lapsed address is retried. */
  lemma NoMoreSlots(s: RunState, r: RunState, plan: GroupPlan)
    requires r.lapsed == s.lapsed - ToSet(plan.retried) && r.retrySlots == s.retrySlots - |plan.retried|
    ensures s.retrySlots <= 0 && r.retrySlots >= 0 ==> r.lapsed == s.lapsed
  {
  }

  lemma {:induction false} HalfwayOn(c: Scene, statuses: EmailStatuses, done: set<Email>, s: RunState,
      groups: seq<Email>)
    requires Steady(c) && Halfway(c, statuses, done, s)
    requires NoDup(groups) && forall g :: g in groups ==> g in c.audiences && g !in done
    ensures var r := SweptGroups(WorldAt(c), groups, c.audiences, c.allow, s);
            && Halfway(c, statuses, done + ToSet(groups), r)
            && (QuietFuses(c) && AllTidy(c, done, s) ==> AllTidy(c, done + ToSet(groups), r))
    decreases |groups|
  {
    hide Steady, QuietFuses, Halfway, SweptGroup, AllTidy;
    if groups == [] {
      assert done + ToSet(groups) == done;
    } else {
      assert groups[0] in groups;
      HalfwayNext(c, statuses, done, s, groups[0]);
      if QuietFuses(c) && AllTidy(c, done, s) {
        TidyNext(c, statuses, done, s, groups[0]);
      }
      assert forall g :: g in groups[1..] ==> g in groups && g != groups[0];
      HalfwayOn(c, statuses, done + {groups[0]},
          SweptGroup(WorldAt(c), groups[0], c.audiences[groups[0]], c.allow, s), groups[1..]);
      assert groups == [groups[0]] + groups[1..];
      assert done + {groups[0]} + ToSet(groups[1..]) == done + ToSet(groups);
    }
  }

  lemma StartHalfway(c: Scene, statuses: EmailStatuses)
    ensures Halfway(c, statuses, {}, StartRun(statuses))
  {
    assert RefusedIn(StartRun(statuses)) == {};
    forall g ensures EntriesAt(c, g, []) == c.bases(g) { }
  }

  /** Whatever its fuses do, one run brings every group the desired addresses it can:
      the missing ones that Google takes, have no live refusal, and are not lapsed ones
      left without a retry slot. */
  lemma OneRunOffers(c: Scene, statuses: EmailStatuses)
    requires Steady(c)
    ensures Halfway(c, statuses, c.audiences.Keys, RunGroups(WorldAt(c), c.audiences, statuses, c.allow))
  {
    hide Steady, QuietFuses, SweptGroups, SortedKeys, StartRun, Halfway;
    StartHalfway(c, statuses);
    HalfwayOn(c, statuses, {}, StartRun(statuses), SortedKeys(c.audiences.Keys));
    assert {} + ToSet(SortedKeys(c.audiences.Keys)) == c.audiences.Keys;
  }

  /** One run brings every group to the records: at its end each shows its protected
      addresses and the desired ones, less the missing ones Google refuses, those with
      a live refusal, and the lapsed ones no retry slot was left for; and nothing has
      failed. */
  lemma OneRunConverges(c: Scene, statuses: EmailStatuses)
    requires Steady(c) && QuietFuses(c)
    ensures var s := RunGroups(WorldAt(c), c.audiences, statuses, c.allow);
            && Halfway(c, statuses, c.audiences.Keys, s)
            && (forall g :: g in c.audiences ==> Mirrors(c, statuses.live, s.lapsed, g, EntriesAt(c, g, s.log)))
            && (forall k :: 0 <= k < |s.outcomes| ==> s.outcomes[k].failed == 0)
  {
    hide Steady, QuietFuses, SweptGroups, SortedKeys, StartRun, Mirrors, EntriesAt, Shows, Tidy, Sought;
    var s, keys := RunGroups(WorldAt(c), c.audiences, statuses, c.allow), SortedKeys(c.audiences.Keys);
    StartHalfway(c, statuses);
    HalfwayOn(c, statuses, {}, StartRun(statuses), keys);
    assert {} + ToSet(keys) == c.audiences.Keys;
    forall g | g in c.audiences ensures Mirrors(c, statuses.live, s.lapsed, g, EntriesAt(c, g, s.log)) {
      ShowsTidyMirrors(c, statuses.live, s.lapsed, g, EntriesAt(c, g, s.log));
    }
  }

  // ------------------------------------------------------------------ the next run

  ghost predicate OnlyListings(log: Log) {
    forall i :: 0 <= i < |log| ==> log[i].Listed?
  }

  /** A run that has only listed groups, and found nothing to do in any. */
  ghost predicate NothingDone(s: RunState) {
    && OnlyListings(s.log) && s.refusals == [] && s.accepted == {}
    && forall k :: 0 <= k < |s.outcomes| ==> !s.outcomes[k].Red()
  }

  lemma {:induction false} ListingsChangeNothing(base: seq<Entry>, g: Email, log: Log)
    requires OnlyListings(log)
    ensures ListAfter(base, g, log) == base
  {
    if log != [] {
      var n := |log| - 1;
      assert log == log[..n] + [log[n]];
      ListingsChangeNothing(base, g, log[..n]);
      ListNext(base, g, log[..n], log[n]);
    }
  }

  /** An apply with nothing to do makes no call. */
  lemma NothingApplied(g: Google, plan: GroupPlan, s: RunState)
    requires plan.adds == [] && plan.removes == [] && plan.refusedRemoves == 0
    ensures var r := ApplyPlan(g, plan, s).s;
            && r.log == s.log && r.unmirrorable == s.unmirrorable && r.refusals == s.refusals
            && r.accepted == s.accepted && s.outcomes <= r.outcomes && |r.outcomes| == |s.outcomes| + 1
            && !LastOutcome(r).Red()
  {
    var a := StartAdds(s);
    assert OfferAdds(g, plan.groupEmail, [], a) == a;
    assert !FoundNotFound([]);
    assert s.refusals + [] == s.refusals;
    assert RemoveEach(g, plan.groupEmail, [], RemoveState(a.log, a.tally, 0)) == RemoveState(a.log, a.tally, 0);
    assert ApplyPlan(g, plan, s) == FinishGroup(g, plan, s, a, a.log);
  }

  /** Nothing is left to do in a group: what it lacks is withheld, what it has is kept. */
  ghost predicate NothingLeft(c: Scene, live: set<string>) {
    && (forall g, k :: Missing(c, g, k) ==> k in live)
    && (forall g, e :: g in c.audiences && e in c.bases(g) ==> !Removable(e, c.audiences[g]))
  }

  lemma IdlePlan(c: Scene, live: set<string>, group: Email, s: RunState)
    requires NothingLeft(c, live) && group in c.audiences && live <= s.unmirrorable
    ensures var plan := ListedPlan(WorldAt(c), group, c.audiences[group], c.bases(group), c.allow, s);
            plan.adds == [] && plan.removes == [] && plan.refusedRemoves == 0
  {
    hide PlanOf, Keys, Removable;
    var input := InputsFor(c.audiences[group], c.bases(group), c.allow, s);
    var plan := PlanOf(group, input);
    PlanPartitionsDesired(group, input);
    PlanRemovesSafely(group, input);
    NoRemovals(c, group, live);
    NoRemovesPlanned(group, input);
    forall x ensures x !in Addresses(plan.adds) {
      AddsAreMissing(c, group, s, plan, x);
    }
    NoDupBound(Addresses(plan.adds), {});
  }

  lemma AddsAreMissing(c: Scene, group: Email, s: RunState, plan: GroupPlan, x: string)
    requires group in c.audiences && AddsRight(InputsFor(c.audiences[group], c.bases(group), c.allow, s), plan)
    ensures x in Addresses(plan.adds) ==> Missing(c, group, x) && x !in s.unmirrorable
  {
    hide Keys;
    if x in Addresses(plan.adds) {
      AddressesIn(plan.adds, x);
      var p :| p in plan.adds && p.address == x;
      assert p in plan.adds + plan.excluded;
    }
  }

  lemma NoRemovals(c: Scene, group: Email, live: set<string>)
    requires NothingLeft(c, live) && group in c.audiences
    ensures Removals(c.bases(group), c.audiences[group]) == []
  {
    NothingRemovable(c.bases(group), c.audiences[group]);
  }

  lemma NoRemovesPlanned(group: Email, input: Inputs)
    requires Removals(input.actual, input.desired) == []
    ensures PlanOf(group, input).removes == [] && PlanOf(group, input).refusedRemoves == 0
  {
    hide OfferEach, SortedKeys;
  }

  lemma IdleRecheck(w: World, plan: GroupPlan, s: RunState)
    requires plan.adds == [] && plan.removes == []
    ensures RecheckedPlan(w, plan, s).adds == [] && RecheckedPlan(w, plan, s).removes == []
    ensures RecheckedPlan(w, plan, s).refusedRemoves == plan.refusedRemoves
  {
  }

  lemma IdleGroup(c: Scene, live: set<string>, group: Email, s: RunState)
    requires NothingLeft(c, live) && group in c.audiences && live <= s.unmirrorable && NothingDone(s)
    ensures var r := SweptGroup(WorldAt(c), group, c.audiences[group], c.allow, s);
            NothingDone(r) && r.unmirrorable == s.unmirrorable
  {
    hide PlanOf, ApplyPlan, RecheckedPlan, Answering, ListAfter;
    var w, actual := WorldAt(c), c.bases(group);
    ListsAlways(c, group, s.log);
    ListingsChangeNothing(c.bases(group), group, s.log);
    SweptGroupApplies(w, group, c.audiences[group], actual, c.allow, s);
    IdlePlan(c, live, group, s);
    var listed := ListedPlan(w, group, c.audiences[group], actual, c.allow, s);
    var s2 := SpendRetries(s.(log := s.log + [Listed(group, Some(actual))]), listed);
    IdleRecheck(w, listed, s2);
    NothingApplied(w.google, RecheckedPlan(w, listed, s2), s2);
    hide SweptGroup;
  }

  lemma {:induction false} IdleGroups(c: Scene, live: set<string>, groups: seq<Email>, s: RunState)
    requires NothingLeft(c, live) && live <= s.unmirrorable && NothingDone(s)
        && forall g :: g in groups ==> g in c.audiences
    ensures NothingDone(SweptGroups(WorldAt(c), groups, c.audiences, c.allow, s))
    decreases |groups|
  {
    hide NothingLeft, SweptGroup, NothingDone;
    if groups != [] {
      IdleGroup(c, live, groups[0], s);
      IdleGroups(c, live, groups[1..], SweptGroup(WorldAt(c), groups[0], c.audiences[groups[0]], c.allow, s));
    }
  }

  const EVERY := Writes((k: nat) => true, (a: Email) => true)

  /** The refusals on record are read alike now and later. */
  ghost predicate OneReading(rows: StatusTable, now: int, later: int) {
    && now <= later && later - RETRY_AFTER < now
    && forall a :: a in rows && !rows[a].status.Accepted? && IsLive(rows[a], now) ==> IsLive(rows[a], later)
  }

  predicate RefusedSince(rows: StatusTable, a: string, later: int) {
    a in rows && !rows[a].status.Accepted? && IsLive(rows[a], later)
  }

  /** What a run had withheld for good, or Google refused in it, is on record after it. */
  lemma WithheldIsRecorded(c: Scene, store: StatusStore, s: RunState, now: int, later: int, a: string)
    requires var statuses := ReadStatuses(store.rows, None, now);
             && Knows(c, statuses.live, s) && RefusalInv(s)
             && !RefusalFuse(store.bootstrapped, News(s.refusals, statuses.Lapsed()))
             && (a in statuses.live || a in RefusedIn(s))
    requires OneReading(store.rows, now, later)
    ensures RefusedSince(WriteDown(s, ReadStatuses(store.rows, None, now), store, false, EVERY, now).0.rows, a, later)
  {
    var statuses := ReadStatuses(store.rows, None, now);
    RecordedAt(store.rows, s.refusals, EVERY.refusals, now, a);
    if a in RefusedIn(s) {
      var f :| f in s.refusals && f.address == a;
      var k: nat :| k < |s.refusals| && s.refusals[k] == f;
      assert EVERY.refusals(k) && Norm(s.refusals[k].address) == a;
    }
    hide RecordRefusals, News;
    var committed := RecordRefusals(store.rows, s.refusals, EVERY.refusals, now).0;
    assert RefusedSince(committed, a, later);
    NotAccepted(committed, s.accepted, statuses, now, a);
  }

  lemma NotAccepted(rows: StatusTable, accepted: set<Email>, statuses: EmailStatuses, now: int, a: string)
    requires a in rows && a !in accepted && forall x :: x in accepted ==> Norm(x) == x
    ensures var after := Remembered(rows, NewlyAccepted(accepted, statuses), EVERY.accepts, now);
        a in after && after[a] == rows[a]
  {
  }

  /** The scene the next run finds. */
  function NextScene(c: Scene, s: RunState): Scene {
    c.(bases := (g: Email) => EntriesAt(c, g, s.log))
  }

  /** And is done: if the retry slots sufficed, the refusal fuse stayed quiet and the
      writes landed, the next run - the records and Google as they were, no refusal
      lapsing between - lists every group and calls Google for nothing else. */
  lemma NextRunIsIdle(c: Scene, store: StatusStore, now: int, later: int)
    requires Steady(c) && QuietFuses(c) && OneReading(store.rows, now, later)
    requires var statuses := ReadStatuses(store.rows, None, now);
             var s := RunGroups(WorldAt(c), c.audiences, statuses, c.allow);
             && !RefusalFuse(store.bootstrapped, News(s.refusals, statuses.Lapsed()))
             && forall g, k :: Missing(c, g, k) ==> k !in s.lapsed
    ensures var statuses := ReadStatuses(store.rows, None, now);
            var s := RunGroups(WorldAt(c), c.audiences, statuses, c.allow);
            var after := WriteDown(s, statuses, store, false, EVERY, now).0;
            NothingDone(RunGroups(WorldAt(NextScene(c, s)), c.audiences, ReadStatuses(after.rows, None, later),
                c.allow))
  {
    hide RunGroups, WriteDown, Steady, QuietFuses, Mirrors, Knows, RunInv, News, RefusedSince, OneReading;
    var statuses := ReadStatuses(store.rows, None, now);
    var s := RunGroups(WorldAt(c), c.audiences, statuses, c.allow);
    var rows := WriteDown(s, statuses, store, false, EVERY, now).0.rows;
    OneRunConverges(c, statuses);
    RefusalsWell(c, statuses);
    forall a | a in statuses.live || a in RefusedIn(s) ensures RefusedSince(rows, a, later) {
      WithheldIsRecorded(c, store, s, now, later, a);
    }
    LeftOver(c, statuses, s, rows, later);
    hide ReadStatuses, NothingLeft;
    IdleRun(NextScene(c, s), ReadStatuses(rows, None, later));
  }

  lemma RefusalsWell(c: Scene, statuses: EmailStatuses)
    requires Steady(c)
    ensures RefusalInv(RunGroups(WorldAt(c), c.audiences, statuses, c.allow))
  {
    hide RunGroups, RetryInv, RefusalInv, LiveInv, SafeInv, CertInv;
    RunKeepsInv(WorldAt(c), c.audiences, statuses, c.allow);
  }

  lemma LeftOver(c: Scene, statuses: EmailStatuses, s: RunState, rows: StatusTable, later: int)
    requires Halfway(c, statuses, c.audiences.Keys, s) && forall g, k :: Missing(c, g, k) ==> k !in s.lapsed
    requires forall g :: g in c.audiences ==> Mirrors(c, statuses.live, s.lapsed, g, EntriesAt(c, g, s.log))
    requires forall a :: a in statuses.live || a in RefusedIn(s) ==> RefusedSince(rows, a, later)
    ensures NothingLeft(NextScene(c, s), ReadStatuses(rows, None, later).live)
  {
    hide Knows, Keys, ProtectedKeys, Removable, EntriesAt, RefusedIn;
    var n := NextScene(c, s);
    forall g, k | Missing(n, g, k) ensures RefusedSince(rows, k, later) {
      assert Mirrors(c, statuses.live, s.lapsed, g, EntriesAt(c, g, s.log));
      assert Missing(c, g, k);
    }
    forall g, e | g in n.audiences && e in n.bases(g) ensures !Removable(e, n.audiences[g]) {
      assert Mirrors(c, statuses.live, s.lapsed, g, EntriesAt(c, g, s.log));
    }
  }

  lemma IdleRun(c: Scene, statuses: EmailStatuses)
    requires NothingLeft(c, statuses.live)
    ensures NothingDone(RunGroups(WorldAt(c), c.audiences, statuses, c.allow))
  {
    hide NothingLeft, SweptGroups, SortedKeys;
    IdleGroups(c, statuses.live, SortedKeys(c.audiences.Keys), StartRun(statuses));
  }
}
