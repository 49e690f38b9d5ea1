/** A group's reported counts against the calls it made: every number in the report
    is a number of Google's answers in the log. */
module Counts {
  import opened Basics
  import opened GroupSync
  import opened EmailStatus
  import opened Plan
  import opened Apply

  predicate Answers(e: Event, outcome: SyncOutcome) {
    (e.Offered? || e.Removed?) && e.outcome == outcome
  }

  /** How often Google answered so since `from`. */
  function CountOf(log: Log, from: nat, outcome: SyncOutcome): nat
    requires from <= |log|
    decreases |log|
  {
    if |log| == from then 0
    else CountOf(log[..|log| - 1], from, outcome) + (if Answers(log[|log| - 1], outcome) then 1 else 0)
  }

  lemma CountNext(log: Log, from: nat, e: Event)
    requires from <= |log|
    ensures forall o :: CountOf(log + [e], from, o) == CountOf(log, from, o) + (if Answers(e, o) then 1 else 0)
  {
    assert (log + [e])[..|log|] == log;
  }

  /** The answers a tally keeps by name: all but a 404, which a doubtful group turns
      into a failure. */
  predicate Plainly(o: SyncOutcome) {
    !o.Failed? && !o.AddressNotFound?
  }

  function FailedOrNotFound(log: Log, from: nat): nat
    requires from <= |log|
  {
    CountOf(log, from, Failed) + CountOf(log, from, AddressNotFound)
  }

  /** The tally is the log's answers since `from`; `unread` of them, 404s of a group
      that had gone, were not tallied. */
  ghost predicate Tallied(log: Log, from: nat, t: Tally, unread: nat) {
    && from <= |log|
    && (forall o :: Plainly(o) ==> t[o] == CountOf(log, from, o))
    && t[Failed] + t[AddressNotFound] + unread == FailedOrNotFound(log, from)
  }

  lemma TalliedProbe(log: Log, from: nat, t: Tally, unread: nat, e: Event)
    requires Tallied(log, from, t, unread) && e.Probed?
    ensures Tallied(log + [e], from, t, unread)
  {
    CountNext(log, from, e);
  }

  lemma TalliedAnswer(log: Log, from: nat, t: Tally, e: Event, counted: SyncOutcome)
    requires Tallied(log, from, t, 0) && (e.Offered? || e.Removed?)
    requires counted == e.outcome || (e.outcome.AddressNotFound? && counted.Failed?)
    ensures Tallied(log + [e], from, t + multiset{counted}, 0)
    ensures e.outcome.AddressNotFound? ==> Tallied(log + [e], from, t, 1)
  {
    CountNext(log, from, e);
  }

  lemma OfferOneTallied(g: Google, group: Email, add: PlannedAdd, a: AddState, from: nat)
    requires Tallied(a.log, from, a.tally, 0) && !a.gone
    ensures var b := OfferOne(g, group, add, a); Tallied(b.log, from, b.tally, if b.gone then 1 else 0)
  {
    var outcome := g.add(a.log, group, add.address);
    var e := Offered(group, add.address, outcome);
    var b := OfferOne(g, group, add, a);
    TalliedAnswer(a.log, from, a.tally, e, outcome);
    if outcome.AddressNotFound? { TalliedAnswer(a.log, from, a.tally, e, Failed); }
    var p := Probed(group, g.presence(a.log + [e], group));
    assert b.log == a.log + [e] || b.log == a.log + [e] + [p];
    assert b.tally == a.tally + multiset{outcome}
        || (outcome.AddressNotFound? && b.tally == (if b.gone then a.tally else a.tally + multiset{Failed}));
    hide OfferOne, Tallied;
    if b.log == a.log + [e] + [p] {
      TalliedProbe(a.log + [e], from, b.tally, if b.gone then 1 else 0, p);
    }
  }

  lemma {:induction false} OfferAddsTallied(g: Google, group: Email, adds: seq<PlannedAdd>, a: AddState, from: nat)
    requires Tallied(a.log, from, a.tally, if a.gone then 1 else 0)
    ensures var b := OfferAdds(g, group, adds, a); Tallied(b.log, from, b.tally, if b.gone then 1 else 0)
    decreases |adds|
  {
    hide Tallied, OfferOne;
    if adds != [] && !a.gone {
      OfferOneTallied(g, group, adds[0], a, from);
      OfferAddsTallied(g, group, adds[1..], OfferOne(g, group, adds[0], a), from);
    }
  }

  lemma {:induction false} RemoveEachTallied(g: Google, group: Email, addresses: seq<Email>, r: RemoveState, from: nat)
    requires Tallied(r.log, from, r.tally, 0)
    ensures var b := RemoveEach(g, group, addresses, r);
            && Tallied(b.log, from, b.tally, 0)
            && r.converged <= b.converged <= r.converged + |addresses|
            && b.tally[AlreadyConverged] == r.tally[AlreadyConverged] + (b.converged - r.converged)
    decreases |addresses|
  {
    if addresses != [] {
      var outcome := g.remove(r.log, group, addresses[0]);
      TalliedAnswer(r.log, from, r.tally, Removed(group, addresses[0], outcome), outcome);
      hide Tallied;
      RemoveEachTallied(g, group, addresses[1..], RemoveOne(g, group, addresses[0], r), from);
    }
  }

  /** The counts of a report that is not of a vanished group. */
  ghost predicate CountsCalls(o: GroupOutcome, log: Log, from: nat) {
    && from <= |log|
    && o.applied == CountOf(log, from, Applied)
    && o.alreadyConverged == CountOf(log, from, AlreadyConverged)
    && o.skipped ==
         CountOf(log, from, SkippedUnlinked) + CountOf(log, from, SkippedExampleEmail)
         + CountOf(log, from, SkippedDryRun)
    && CountOf(log, from, NoGoogleAccount) <= o.unmirrorable
    && o.unmirrorable <= CountOf(log, from, NoGoogleAccount) + CountOf(log, from, AddressNotFound)
  }

  /** A vanished group's report: the skips as counted, and every removal a failure. */
  ghost predicate CountsVanished(o: GroupOutcome, plan: GroupPlan, log: Log, from: nat) {
    && from <= |log| && o.applied == 0 && o.alreadyConverged == 0 && o.unmirrorable == 0
    && o.skipped ==
         CountOf(log, from, SkippedUnlinked) + CountOf(log, from, SkippedExampleEmail)
         + CountOf(log, from, SkippedDryRun)
    && o.failed == |plan.removes|
  }

  /** A finished group's failures and refusals are the calls answered so. */
  ghost predicate CountsFailures(o: GroupOutcome, log: Log, from: nat) {
    from <= |log| && o.failed + o.unmirrorable == FailedOrNotFound(log, from) + CountOf(log, from, NoGoogleAccount)
  }

  lemma TallyCounts(o: GroupOutcome, log: Log, from: nat, t: Tally, unread: nat)
    requires Tallied(log, from, t, unread)
    requires o.applied == t[Applied] && o.alreadyConverged == t[AlreadyConverged]
    requires o.skipped == SkippedIn(t) && o.unmirrorable == UnmirrorableIn(t)
    requires t[AddressNotFound] <= CountOf(log, from, AddressNotFound)
    ensures CountsCalls(o, log, from)
    ensures o.failed == t[Failed] && unread == 0 ==> CountsFailures(o, log, from)
  {
  }

  /** 404s are tallied as such no more often than they were answered. */
  ghost predicate NotFoundBound(log: Log, from: nat, t: Tally) {
    from <= |log| && t[AddressNotFound] <= CountOf(log, from, AddressNotFound)
  }

  lemma {:induction false} OfferAddsNotFound(g: Google, group: Email, adds: seq<PlannedAdd>, a: AddState, from: nat)
    requires NotFoundBound(a.log, from, a.tally)
    ensures var b := OfferAdds(g, group, adds, a); NotFoundBound(b.log, from, b.tally)
    decreases |adds|
  {
    if adds != [] && !a.gone {
      var outcome := g.add(a.log, group, adds[0].address);
      var e := Offered(group, adds[0].address, outcome);
      var p := Probed(group, g.presence(a.log + [e], group));
      CountNext(a.log, from, e);
      CountNext(a.log + [e], from, p);
      assert NotFoundBound(OfferOne(g, group, adds[0], a).log, from, OfferOne(g, group, adds[0], a).tally);
      hide OfferOne, NotFoundBound;
      OfferAddsNotFound(g, group, adds[1..], OfferOne(g, group, adds[0], a), from);
    }
  }

  lemma {:induction false} RemoveEachNotFound(g: Google, group: Email, addresses: seq<Email>, r: RemoveState, from: nat)
    requires NotFoundBound(r.log, from, r.tally)
    ensures var b := RemoveEach(g, group, addresses, r); NotFoundBound(b.log, from, b.tally)
    decreases |addresses|
  {
    if addresses != [] {
      var outcome := g.remove(r.log, group, addresses[0]);
      CountNext(r.log, from, Removed(group, addresses[0], outcome));
      assert NotFoundBound(RemoveOne(g, group, addresses[0], r).log, from, RemoveOne(g, group, addresses[0], r).tally);
      hide RemoveOne, NotFoundBound;
      RemoveEachNotFound(g, group, addresses[1..], RemoveOne(g, group, addresses[0], r), from);
    }
  }

  /** A tally of the log. */
  ghost predicate Honest(log: Log, from: nat, t: Tally, unread: nat) {
    Tallied(log, from, t, unread) && NotFoundBound(log, from, t)
  }

  lemma HonestProbe(log: Log, from: nat, t: Tally, unread: nat, e: Event)
    requires Honest(log, from, t, unread) && e.Probed?
    ensures Honest(log + [e], from, t, unread)
  {
    TalliedProbe(log, from, t, unread, e);
    CountNext(log, from, e);
  }

  lemma AddsHonest(g: Google, plan: GroupPlan, s: RunState)
    ensures var a := OfferAdds(g, plan.groupEmail, plan.adds, StartAdds(s));
        Honest(a.log, |s.log|, a.tally, if a.gone then 1 else 0)
  {
    assert Tallied(s.log, |s.log|, multiset{}, 0);
    hide OfferAdds;
    OfferAddsTallied(g, plan.groupEmail, plan.adds, StartAdds(s), |s.log|);
    OfferAddsNotFound(g, plan.groupEmail, plan.adds, StartAdds(s), |s.log|);
  }

  lemma FinishHonest(g: Google, plan: GroupPlan, s: RunState, a: AddState, log: Log, from: nat)
    requires Honest(log, from, a.tally, 0)
    ensures var r := FinishGroup(g, plan, s, a, log);
            && |r.s.outcomes| == |s.outcomes| + 1 && from <= |r.s.log|
            && (if r.exit.Finished?
                   then CountsCalls(LastOutcome(r.s), r.s.log, from)
                   && CountsFailures(LastOutcome(r.s), r.s.log, from)
                     && LastOutcome(r.s).excluded == |plan.excluded|
                else r.exit.Vanished? && r.s.log != [] && r.s.log[|r.s.log| - 1] == Probed(plan.groupEmail, Gone)
                     && CountsVanished(LastOutcome(r.s), plan, r.s.log, from) && CountOf(r.s.log, from, Applied) == 0
                     && CountOf(r.s.log, from, AlreadyConverged) >= |plan.removes|)
  {
    hide RemoveEach, CountsCalls, CountsFailures, CountOf, FailedOrNotFound;
    var removed := RemoveEach(g, plan.groupEmail, plan.removes, RemoveState(log, a.tally, 0));
    RemoveEachTallied(g, plan.groupEmail, plan.removes, RemoveState(log, a.tally, 0), from);
    RemoveEachNotFound(g, plan.groupEmail, plan.removes, RemoveState(log, a.tally, 0), from);
    var p := Probed(plan.groupEmail, g.presence(removed.log, plan.groupEmail));
    var outcome := FinishedOutcome(plan, removed.tally);
    HonestProbe(removed.log, from, removed.tally, 0, p);
    TallyCounts(outcome, removed.log, from, removed.tally, 0);
    TallyCounts(outcome, removed.log + [p], from, removed.tally, 0);
  }

  /** Whatever Google answers, the report's numbers are the calls': added or removed,
      already so, skipped and refused - and a group reported vanished was one where
      nothing was applied, every removal found the member gone, and Google's last word
      was that the group is gone. */
  lemma ReportCountsCalls(g: Google, plan: GroupPlan, s: RunState)
    ensures var r := ApplyPlan(g, plan, s);
            && |r.s.outcomes| == |s.outcomes| + 1 && |s.log| <= |r.s.log|
            && (!r.exit.Vanished? ==>
                  && CountsCalls(LastOutcome(r.s), r.s.log, |s.log|)
                  && LastOutcome(r.s).excluded == |plan.excluded|)
            && (r.exit.Finished? ==> CountsFailures(LastOutcome(r.s), r.s.log, |s.log|))
            && (r.exit.Vanished? ==>
                  && CountsVanished(LastOutcome(r.s), plan, r.s.log, |s.log|) && r.s.log != []
                  && r.s.log[|r.s.log| - 1] == Probed(plan.groupEmail, Gone)
                  && CountOf(r.s.log, |s.log|, Applied) == 0
                  && CountOf(r.s.log, |s.log|, AlreadyConverged) >= |plan.removes|)
  {
    hide OfferAdds, CountOf, CountsCalls, CountsFailures, FoundNotFound, FinishGroup, Tallied;
    var a, from := OfferAdds(g, plan.groupEmail, plan.adds, StartAdds(s)), |s.log|;
    AddsHonest(g, plan, s);
    var p := Probed(plan.groupEmail, g.presence(a.log, plan.groupEmail));
    HonestProbe(a.log, from, a.tally, if a.gone then 1 else 0, p);
    TallyCounts(AbandonedOutcome(plan, a.tally), a.log, from, a.tally, if a.gone then 1 else 0);
    TallyCounts(AbandonedOutcome(plan, a.tally), a.log + [p], from, a.tally, if a.gone then 1 else 0);
    if !a.gone {
      FinishHonest(g, plan, s, a, a.log, from);
      FinishHonest(g, plan, s, a, a.log + [p], from);
    }
    FinishLonger(g, plan, s, a, a.log);
    FinishLonger(g, plan, s, a, a.log + [p]);
  }

  lemma FinishLonger(g: Google, plan: GroupPlan, s: RunState, a: AddState, log: Log)
    ensures |log| <= |FinishGroup(g, plan, s, a, log).s.log|
  {
    FinishGroupDiscipline(g, plan, s, a, log);
  }
}
