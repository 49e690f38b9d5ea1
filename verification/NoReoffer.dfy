/** A verdict holds for the rest of the run: an address Google says it does not have,
    in an answer the run believes, is offered to no later group - whatever becomes of
    the group that asked. */
module NoReoffer {
  import opened Basics
  import opened GroupSync
  import opened EmailStatus
  import opened Plan
  import opened Apply
  import opened Sweep
  import opened SweepSteps
  import opened SweepTheorems

  /** An offer answered with a refusal that no look at the group could unsay. */
  predicate NoAccount(e: Event) {
    e.Offered? && e.outcome.NoGoogleAccount?
  }

  predicate NotFound(e: Event) {
    e.Offered? && e.outcome.AddressNotFound?
  }

  /** At `p` Google showed the group there, right after the offer at `i`, or earlier
      in the same round of offers. */
  ghost predicate SeenAt(log: Log, p: nat, i: nat) {
    && i < |log| && p < |log| && log[p] == Probed(log[i].group, Present)
    && (p == i + 1 || (p < i && forall q :: p < q < i ==> log[q].Offered? && log[q].group == log[i].group))
  }

  /** An answer that is a verdict about the address: no account, or a 404 while the
      group was seen there. */
  ghost predicate Verdict(log: Log, i: nat) {
    i < |log| && (NoAccount(log[i]) || (NotFound(log[i]) && exists p: nat :: SeenAt(log, p, i)))
  }

  // ------------------------------------------------------------- one group's adds

  /** A refusal held for this answer. */
  ghost predicate Carried(found: seq<Refusal>, e: Event)
    requires e.Offered?
  {
    exists r :: r in found && r.address == e.address && r.groupEmail == e.group && r.outcome == e.outcome
  }

  lemma CarriedMore(found: seq<Refusal>, more: seq<Refusal>, e: Event)
    requires e.Offered? && Carried(found, e)
    ensures Carried(found + more, e) && Carried(more + found, e)
  {
    var r :| r in found && r.address == e.address && r.groupEmail == e.group && r.outcome == e.outcome;
    assert r in found + more && r in more + found;
  }

  lemma JustCarried(found: seq<Refusal>, r: Refusal, e: Event)
    requires e == Offered(r.groupEmail, r.address, r.outcome)
    ensures Carried(found + [r], e)
  {
    assert r in found + [r];
  }

  /** Every no-account answer since `start` is held; and while the group is believed
      to be there, so is every 404. */
  ghost predicate Heard(start: nat, a: AddState) {
    && start <= |a.log|
    && (forall i :: start <= i < |a.log| && NoAccount(a.log[i]) ==> Carried(a.found, a.log[i]))
    && (a.presence == Some(Present) ==>
          forall i :: start <= i < |a.log| && NotFound(a.log[i]) ==> Carried(a.found, a.log[i]))
    && (a.presence != Some(Present) ==>
          && !FoundNotFound(a.found)
          && (forall i :: start <= i < |a.log| ==> !(a.log[i].Probed? && a.log[i].presence.Present?)))
    && (a.presence.None? ==> forall i :: start <= i < |a.log| ==> !NotFound(a.log[i]))
  }

  /** Every refusal held is known to the groups to come. */
  ghost predicate FoundKnown(a: AddState) {
    forall r :: r in a.found ==> Norm(r.address) in a.unmirrorable
  }

  /** One offer, by what it adds to the log and to the presence. */
  lemma OfferOneSteps(g: Google, group: Email, add: PlannedAdd, a: AddState)
    requires !a.gone
    ensures var b, outcome := OfferOne(g, group, add, a), g.add(a.log, group, add.address);
            var offered := a.log + [Offered(group, add.address, outcome)];
            var probed := outcome.AddressNotFound? && a.presence.None?;
            && b.log == (if probed then offered + [Probed(group, g.presence(offered, group))] else offered)
            && b.presence == (if probed then Some(g.presence(offered, group)) else a.presence)
            && (if outcome.NoGoogleAccount? || (outcome.AddressNotFound? && b.presence == Some(Present)) then
                  && b.found == a.found + [Refusal(add.address, add.memberId, group, outcome)]
                  && b.unmirrorable == a.unmirrorable + {Norm(add.address)}
                else b.found == a.found && b.unmirrorable == a.unmirrorable)
  {
  }

  lemma OfferOneHeard(g: Google, group: Email, add: PlannedAdd, a: AddState, start: nat)
    requires Heard(start, a) && FoundKnown(a) && !a.gone
    ensures var b := OfferOne(g, group, add, a); Heard(start, b) && FoundKnown(b)
  {
    var b, outcome := OfferOne(g, group, add, a), g.add(a.log, group, add.address);
    var refusal := Refusal(add.address, add.memberId, group, outcome);
    OfferOneSteps(g, group, add, a);
    hide OfferOne, Carried;
    assert b.log[|a.log|] == Offered(group, add.address, outcome);
    JustCarried(a.found, refusal, b.log[|a.log|]);
    forall i | start <= i < |a.log| && (NoAccount(b.log[i]) || NotFound(b.log[i]))
      ensures b.log[i] == a.log[i] && (Carried(a.found, a.log[i]) ==> Carried(b.found, b.log[i]))
    {
      if Carried(a.found, a.log[i]) { CarriedMore(a.found, [refusal], a.log[i]); }
    }
    assert forall i :: start <= i < |a.log| ==> b.log[i] == a.log[i];
    if b.presence != Some(Present) {
      assert forall r :: r in b.found ==> r in a.found || !r.outcome.AddressNotFound?;
    }
  }

  lemma {:induction false} OfferAddsHeard(g: Google, group: Email, adds: seq<PlannedAdd>, a: AddState, start: nat)
    requires Heard(start, a) && FoundKnown(a)
    ensures var b := OfferAdds(g, group, adds, a); Heard(start, b) && FoundKnown(b)
    decreases |adds|
  {
    hide Heard, FoundKnown, OfferOne;
    if adds != [] && !a.gone {
      OfferOneHeard(g, group, adds[0], a, start);
      OfferAddsHeard(g, group, adds[1..], OfferOne(g, group, adds[0], a), start);
    }
  }

  /** A 404's sight of the group came since `start`. */
  ghost predicate VerdictSince(start: nat, log: Log, i: nat) {
    && start <= i && Verdict(log, i)
    && (NotFound(log[i]) ==> exists p: nat :: start <= p && SeenAt(log, p, i))
  }

  /** Every verdict among the events since `start` is known to the groups to come. */
  ghost predicate Known(start: nat, log: Log, unmirrorable: set<string>) {
    forall i: nat :: VerdictSince(start, log, i) ==> Norm(log[i].address) in unmirrorable
  }

  /** Every verdict among the events since `start` is among the refusals. */
  ghost predicate Held(start: nat, log: Log, refusals: seq<Refusal>) {
    forall i: nat :: VerdictSince(start, log, i) ==> Carried(refusals, log[i])
  }

  /** After the adds only one thing could turn a doubtful 404 into a verdict: a look
      at the group that follows it at once and finds it there. There is none. */
  lemma HeldLater(start: nat, a: AddState, end: Log)
    requires Heard(start, a) && a.log <= end
    requires forall i :: |a.log| <= i < |end| ==> !end[i].Offered?
    requires |a.log| < |end| && a.presence != Some(Present) ==> end[|a.log|].Removed?
    ensures Held(start, end, a.found)
  {
    hide Carried;
    forall i: nat | VerdictSince(start, end, i) ensures Carried(a.found, end[i]) {
      assert i < |a.log| && end[i] == a.log[i];
      if NotFound(end[i]) {
        var p: nat :| start <= p && SeenAt(end, p, i);
        assert p <= |a.log|;
        assert p < |a.log| ==> end[p] == a.log[p];
      }
    }
  }

  lemma HeldIsKnown(start: nat, a: AddState, log: Log)
    requires Held(start, log, a.found) && FoundKnown(a)
    ensures Known(start, log, a.unmirrorable)
  {
    forall i: nat | VerdictSince(start, log, i) ensures Norm(log[i].address) in a.unmirrorable {
      var r :| r in a.found && r.address == log[i].address && r.groupEmail == log[i].group
          && r.outcome == log[i].outcome;
    }
  }

  lemma HeldAmongMore(start: nat, log: Log, before: seq<Refusal>, found: seq<Refusal>)
    requires Held(start, log, found)
    ensures Held(start, log, before + found)
  {
    hide Carried;
    forall i: nat | VerdictSince(start, log, i) ensures Carried(before + found, log[i]) {
      CarriedMore(found, before, log[i]);
    }
  }

  lemma RemovesComeFirst(g: Google, plan: GroupPlan, s: RunState, a: AddState, log: Log)
    ensures var r := FinishGroup(g, plan, s, a, log).s.log;
            log <= r && (|log| < |r| ==> r[|log|].Removed?)
  {
    RemovesPhase(g, plan.groupEmail, plan.removes, RemoveState(log, a.tally, 0));
    FinishGroupDiscipline(g, plan, s, a, log);
  }

  lemma FinishKeepsUnmirrorable(g: Google, plan: GroupPlan, s: RunState, a: AddState, log: Log)
    ensures FinishGroup(g, plan, s, a, log).s.unmirrorable == a.unmirrorable
  {
    hide RemoveEach;
  }

  lemma StartHeard(s: RunState)
    ensures Heard(|s.log|, StartAdds(s)) && FoundKnown(StartAdds(s))
  {
  }

  lemma NotFoundMeansPresent(start: nat, a: AddState)
    requires Heard(start, a)
    ensures FoundNotFound(a.found) ==> a.presence == Some(Present)
  {
  }

  /** Every verdict an apply meets is withheld from the groups to come; and it is
      carried out of the group, unless the group is abandoned, which carries none. */
  lemma ApplyCarriesVerdicts(g: Google, plan: GroupPlan, s: RunState)
    ensures var r := ApplyPlan(g, plan, s);
            && Known(|s.log|, r.s.log, r.s.unmirrorable)
            && (if r.exit.Abandoned() then r.s.refusals == s.refusals else Held(|s.log|, r.s.log, r.s.refusals))
  {
    hide OfferAdds, FinishGroup, Heard, FoundKnown, FoundNotFound, Known, Held;
    var a := OfferAdds(g, plan.groupEmail, plan.adds, StartAdds(s));
    StartHeard(s);
    OfferAddsHeard(g, plan.groupEmail, plan.adds, StartAdds(s), |s.log|);
    NotFoundMeansPresent(|s.log|, a);
    var probed := a.log + [Probed(plan.groupEmail, g.presence(a.log, plan.groupEmail))];
    var log := if FoundNotFound(a.found) then probed else a.log;
    var end := FinishGroup(g, plan, s, a, log).s.log;
    FinishGroupDiscipline(g, plan, s, a, log);
    RemovesComeFirst(g, plan, s, a, log);
    FinishKeepsUnmirrorable(g, plan, s, a, log);
    HeldLater(|s.log|, a, a.log);
    HeldIsKnown(|s.log|, a, a.log);
    if FoundNotFound(a.found) {
      HeldLater(|s.log|, a, probed);
      HeldIsKnown(|s.log|, a, probed);
    }
    HeldLater(|s.log|, a, end);
    HeldIsKnown(|s.log|, a, end);
    HeldAmongMore(|s.log|, end, s.refusals, a.found);
  }

  // ------------------------------------------------------------------ whole runs

  /** No address with a verdict is ever offered again. */
  ghost predicate NeverAgain(log: Log) {
    forall i: nat, j: nat :: i < j < |log| && Verdict(log, i) && log[j].Offered? ==> log[i].address != log[j].address
  }

  ghost predicate NormalOffers(log: Log) {
    forall i :: 0 <= i < |log| && log[i].Offered? ==> Norm(log[i].address) == log[i].address
  }

  ghost predicate AllKnown(s: RunState) {
    forall i: nat :: i < |s.log| && Verdict(s.log, i) ==> Norm(s.log[i].address) in s.unmirrorable
  }

  ghost predicate OnceInv(s: RunState) {
    AllKnown(s) && NeverAgain(s.log) && NormalOffers(s.log)
  }

  /** A verdict of the longer log was one already, when a listing comes between. */
  lemma EarlierVerdict(log: Log, end: Log, i: nat)
    requires log <= end && |log| < |end| && end[|log|].Listed? && i < |log| && Verdict(end, i)
    ensures Verdict(log, i)
  {
    if NotFound(end[i]) {
      var p: nat :| SeenAt(end, p, i);
      assert p < |log|;
      assert forall q :: 0 <= q < |log| ==> end[q] == log[q];
      assert SeenAt(log, p, i);
    }
  }

  /** A verdict since the listing rests on a sight of the group since then. */
  lemma LaterVerdict(end: Log, from: nat, i: nat)
    requires from <= i && 0 < from <= |end| && end[from - 1].Listed? && Verdict(end, i)
    ensures VerdictSince(from, end, i)
  {
    if NotFound(end[i]) {
      var p: nat :| SeenAt(end, p, i);
      assert from <= p;
    }
  }

  lemma StepKnown(w: World, group: Email, desired: map<string, Uuid>, allow: bool, s: RunState, r: RunState,
                  actual: seq<Entry>, plan: GroupPlan, retried: seq<Email>)
    requires GroupStep(w, group, desired, allow, s, r, actual, plan, retried)
    requires AllKnown(s) && Known(|s.log| + 1, r.log, r.unmirrorable)
    ensures AllKnown(r)
  {
    StepEvents(w, group, desired, allow, s, r, actual, plan, retried);
    assert s.unmirrorable <= r.unmirrorable;
    hide GroupStep, Verdict, VerdictSince;
    forall i: nat | i < |r.log| && Verdict(r.log, i) ensures Norm(r.log[i].address) in r.unmirrorable {
      if i < |s.log| {
        EarlierVerdict(s.log, r.log, i);
        assert r.log[i] == s.log[i];
      } else {
        assert i != |s.log| by { OffersOnly(r.log, i); }
        LaterVerdict(r.log, |s.log| + 1, i);
      }
    }
  }

  lemma OffersOnly(log: Log, i: nat)
    requires Verdict(log, i)
    ensures i < |log| && log[i].Offered?
  {
  }

  lemma StepOnce(w: World, group: Email, desired: map<string, Uuid>, allow: bool, s: RunState, r: RunState,
                 actual: seq<Entry>, plan: GroupPlan, retried: seq<Email>)
    requires GroupStep(w, group, desired, allow, s, r, actual, plan, retried) && Normal(desired)
    requires OnceInv(s) && Known(|s.log| + 1, r.log, r.unmirrorable)
    ensures OnceInv(r)
  {
    StepEvents(w, group, desired, allow, s, r, actual, plan, retried);
    StepKnown(w, group, desired, allow, s, r, actual, plan, retried);
    hide GroupStep, Verdict, Known;
    forall i | 0 <= i < |r.log| && r.log[i].Offered? ensures Norm(r.log[i].address) == r.log[i].address {
      if i < |s.log| { assert r.log[i] == s.log[i]; }
    }
    forall i: nat, j: nat | i < j < |r.log| && Verdict(r.log, i) && r.log[j].Offered?
      ensures r.log[i].address != r.log[j].address
    {
      OffersOnly(r.log, i);
      if i < |s.log| {
        EarlierVerdict(s.log, r.log, i);
        assert r.log[i] == s.log[i];
        if j < |s.log| { assert r.log[j] == s.log[j]; }
      }
    }
  }

  lemma ListingFailedOnce(s: RunState, group: Email)
    requires OnceInv(s)
    ensures OnceInv(Unlisted(s, group))
  {
    hide Verdict;
    var r := Unlisted(s, group);
    assert forall i :: 0 <= i < |s.log| ==> r.log[i] == s.log[i];
    forall i: nat | i < |r.log| && Verdict(r.log, i) ensures i < |s.log| && Verdict(s.log, i) {
      OffersOnly(r.log, i);
      EarlierVerdict(s.log, r.log, i);
    }
  }

  lemma SweptGroupOnce(w: World, group: Email, desired: map<string, Uuid>, allow: bool, s: RunState)
    requires OnceInv(s) && Normal(desired)
    ensures OnceInv(SweptGroup(w, group, desired, allow, s))
  {
    hide GroupStep, OnceInv, ApplyPlan, PlanOf, RecheckedPlan, Known, Held;
    if w.google.list(s.log, group).None? {
      ListingFailedOnce(s, group);
    } else {
      var actual := w.google.list(s.log, group).value;
      var plan, retried := SweptGroupStep(w, group, desired, allow, s);
      SweptGroupApplies(w, group, desired, actual, allow, s);
      hide SweptGroup;
      var listed := ListedPlan(w, group, desired, actual, allow, s);
      var s2 := SpendRetries(s.(log := s.log + [Listed(group, Some(actual))]), listed);
      ApplyCarriesVerdicts(w.google, RecheckedPlan(w, listed, s2), s2);
      StepOnce(w, group, desired, allow, s, SweptGroup(w, group, desired, allow, s), actual, plan, retried);
    }
  }

  lemma {:induction false} SweptGroupsOnce(w: World, groups: seq<Email>, audiences: Audiences, allow: bool, s: RunState)
    requires OnceInv(s) && NormalAudiences(audiences) && forall g :: g in groups ==> g in audiences
    ensures OnceInv(SweptGroups(w, groups, audiences, allow, s))
    decreases |groups|
  {
    hide OnceInv, SweptGroup, Normal;
    if groups != [] {
      SweptGroupOnce(w, groups[0], audiences[groups[0]], allow, s);
      SweptGroupsOnce(w, groups[1..], audiences, allow, SweptGroup(w, groups[0], audiences[groups[0]], allow, s));
    }
  }

  /** Over a whole run an address with a verdict - no account, or a 404 while the
      group was seen there - is offered to no group again, even when the group that
      asked was then abandoned and its refusals dropped. */
  lemma VerdictsAreAskedOnce(w: World, audiences: Audiences, statuses: EmailStatuses, allow: bool)
    requires NormalAudiences(audiences)
    ensures NeverAgain(RunGroups(w, audiences, statuses, allow).log)
  {
    hide SweptGroups, SortedKeys, NormalAudiences;
    assert OnceInv(StartRun(statuses));
    SweptGroupsOnce(w, SortedKeys(audiences.Keys), audiences, allow, StartRun(statuses));
  }

  // -------------------------------------------------------- and nothing but verdicts

  ghost predicate VerdictOn(log: Log, u: string, i: nat) {
    Verdict(log, i) && Norm(log[i].address) == u
  }

  /** While the group is believed to be there, its sight covers the offers to come. */
  ghost predicate InSight(group: Email, a: AddState) {
    a.presence == Some(Present) ==> exists p: nat :: SightedAt(group, a.log, p)
  }

  ghost predicate SightedAt(group: Email, log: Log, p: nat) {
    p < |log| && log[p] == Probed(group, Present)
        && forall q :: p < q < |log| ==> log[q].Offered? && log[q].group == group
  }

  ghost predicate Grounded(before: set<string>, log: Log, unmirrorable: set<string>) {
    forall u :: u in unmirrorable && u !in before ==> exists i: nat :: VerdictOn(log, u, i)
  }

  /** A verdict stays one as the log grows. */
  lemma VerdictStays(log: Log, end: Log, i: nat)
    requires log <= end && Verdict(log, i)
    ensures Verdict(end, i)
  {
    if NotFound(log[i]) {
      var p: nat :| SeenAt(log, p, i);
      assert SeenAt(end, p, i);
    }
  }

  lemma GroundedLater(before: set<string>, log: Log, end: Log, unmirrorable: set<string>)
    requires Grounded(before, log, unmirrorable) && log <= end
    ensures Grounded(before, end, unmirrorable)
  {
    hide Verdict;
    forall u | u in unmirrorable && u !in before ensures exists i: nat :: VerdictOn(end, u, i) {
      var i: nat :| VerdictOn(log, u, i);
      OffersOnly(log, i);
      VerdictStays(log, end, i);
      VerdictInRange(log, i);
      assert VerdictOn(end, u, i);
    }
  }

  lemma VerdictInRange(log: Log, i: nat)
    requires Verdict(log, i)
    ensures i < |log|
  {
  }

  lemma OfferOneInSight(g: Google, group: Email, add: PlannedAdd, a: AddState)
    requires InSight(group, a) && !a.gone
    ensures InSight(group, OfferOne(g, group, add, a))
  {
    var b := OfferOne(g, group, add, a);
    OfferOneSteps(g, group, add, a);
    hide OfferOne;
    if b.presence == Some(Present) {
      if a.presence == Some(Present) {
        var p: nat :| SightedAt(group, a.log, p);
        assert SightedAt(group, b.log, p);
      } else {
        assert SightedAt(group, b.log, |a.log| + 1);
      }
    }
  }

  lemma OfferOneGrounded(g: Google, group: Email, add: PlannedAdd, a: AddState, before: set<string>)
    requires InSight(group, a) && Grounded(before, a.log, a.unmirrorable) && !a.gone
    ensures var b := OfferOne(g, group, add, a); Grounded(before, b.log, b.unmirrorable)
  {
    var b, outcome := OfferOne(g, group, add, a), g.add(a.log, group, add.address);
    var i := |a.log|;
    OfferOneSteps(g, group, add, a);
    hide OfferOne;
    GroundedLater(before, a.log, b.log, a.unmirrorable);
    assert b.log[i] == Offered(group, add.address, outcome);
    if outcome.AddressNotFound? && b.presence == Some(Present) {
      if a.presence == Some(Present) {
        var p: nat :| SightedAt(group, a.log, p);
        assert SeenAt(b.log, p, i);
      } else {
        assert SeenAt(b.log, i + 1, i);
      }
    }
    if b.unmirrorable != a.unmirrorable {
      assert VerdictOn(b.log, Norm(add.address), i);
    }
  }

  lemma {:induction false} OfferAddsGrounded(g: Google, group: Email, adds: seq<PlannedAdd>, a: AddState,
      before: set<string>)
    requires InSight(group, a) && Grounded(before, a.log, a.unmirrorable)
    ensures var b := OfferAdds(g, group, adds, a); Grounded(before, b.log, b.unmirrorable)
    decreases |adds|
  {
    hide InSight, Grounded, OfferOne;
    if adds != [] && !a.gone {
      OfferOneInSight(g, group, adds[0], a);
      OfferOneGrounded(g, group, adds[0], a, before);
      OfferAddsGrounded(g, group, adds[1..], OfferOne(g, group, adds[0], a), before);
    }
  }

  lemma ApplyGrounded(g: Google, plan: GroupPlan, s: RunState, before: set<string>)
    requires Grounded(before, s.log, s.unmirrorable)
    ensures var r := ApplyPlan(g, plan, s).s; Grounded(before, r.log, r.unmirrorable)
  {
    assert InSight(plan.groupEmail, StartAdds(s));
    hide OfferAdds, FinishGroup, Grounded, FoundNotFound, InSight;
    var a := OfferAdds(g, plan.groupEmail, plan.adds, StartAdds(s));
    OfferAddsGrounded(g, plan.groupEmail, plan.adds, StartAdds(s), before);
    var probed := a.log + [Probed(plan.groupEmail, g.presence(a.log, plan.groupEmail))];
    var log := if FoundNotFound(a.found) then probed else a.log;
    FinishGroupDiscipline(g, plan, s, a, log);
    FinishKeepsUnmirrorable(g, plan, s, a, log);
    GroundedLater(before, a.log, probed, a.unmirrorable);
    GroundedLater(before, a.log, FinishGroup(g, plan, s, a, log).s.log, a.unmirrorable);
  }

  lemma SweptGroupGrounded(w: World, group: Email, desired: map<string, Uuid>, allow: bool, s: RunState,
      before: set<string>)
    requires Grounded(before, s.log, s.unmirrorable)
    ensures var r := SweptGroup(w, group, desired, allow, s); Grounded(before, r.log, r.unmirrorable)
  {
    hide Grounded, PlanOf, ApplyPlan, RecheckedPlan;
    GroundedLater(before, s.log, s.log + [Listed(group, w.google.list(s.log, group))], s.unmirrorable);
    if w.google.list(s.log, group).Some? {
      var actual := w.google.list(s.log, group).value;
      SweptGroupApplies(w, group, desired, actual, allow, s);
      var listed := ListedPlan(w, group, desired, actual, allow, s);
      var s2 := SpendRetries(s.(log := s.log + [Listed(group, Some(actual))]), listed);
      ApplyGrounded(w.google, RecheckedPlan(w, listed, s2), s2, before);
    }
  }

  lemma {:induction false} SweptGroupsGrounded(w: World, groups: seq<Email>, audiences: Audiences, allow: bool,
      s: RunState, before: set<string>)
    requires Grounded(before, s.log, s.unmirrorable) && forall g :: g in groups ==> g in audiences
    ensures var r := SweptGroups(w, groups, audiences, allow, s); Grounded(before, r.log, r.unmirrorable)
    decreases |groups|
  {
    hide Grounded, SweptGroup;
    if groups != [] {
      SweptGroupGrounded(w, groups[0], audiences[groups[0]], allow, s, before);
      SweptGroupsGrounded(w, groups[1..], audiences, allow,
          SweptGroup(w, groups[0], audiences[groups[0]], allow, s), before);
    }
  }

  /** What a run withholds from its later groups is exactly the live refusals it began
      with and the verdicts it met. */
  lemma UnmirrorableExactly(w: World, audiences: Audiences, statuses: EmailStatuses, allow: bool)
    requires NormalAudiences(audiences)
    ensures var s := RunGroups(w, audiences, statuses, allow);
            forall u :: u in s.unmirrorable <==> u in statuses.live || exists i: nat :: VerdictOn(s.log, u, i)
  {
    hide SweptGroups, SortedKeys, NormalAudiences, Verdict;
    var keys, s := SortedKeys(audiences.Keys), RunGroups(w, audiences, statuses, allow);
    assert OnceInv(StartRun(statuses));
    SweptGroupsOnce(w, keys, audiences, allow, StartRun(statuses));
    SweptGroupsGrounded(w, keys, audiences, allow, StartRun(statuses), statuses.live);
    LiveStays(w, audiences, statuses, allow);
    forall u, i: nat | VerdictOn(s.log, u, i) ensures u in s.unmirrorable {
      VerdictInRange(s.log, i);
    }
  }

  lemma LiveStays(w: World, audiences: Audiences, statuses: EmailStatuses, allow: bool)
    requires NormalAudiences(audiences)
    ensures statuses.live <= RunGroups(w, audiences, statuses, allow).unmirrorable
  {
    hide RunGroups, SafeInv, CertInv, RetryInv, RefusalInv;
    RunKeepsInv(w, audiences, statuses, allow);
  }
}
