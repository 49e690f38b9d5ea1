/** What a run reports of each group: every group once and in order, with the plan's
    numbers, and red whenever its list could not be read or its removals were refused. */
module GroupReports {
  import opened Basics
  import opened GroupSync
  import opened EmailStatus
  import opened Plan
  import opened Apply
  import opened Sweep
  import opened SweepSteps

  /** However an apply ends, its outcome names the group and carries the plan's sizes. */
  lemma OutcomeOfPlan(g: Google, plan: GroupPlan, s: RunState)
    ensures var r := ApplyPlan(g, plan, s).s;
            && s.outcomes <= r.outcomes && |r.outcomes| == |s.outcomes| + 1
            && var o := r.outcomes[|s.outcomes|];
               && o.groupEmail == plan.groupEmail && o.plannedAdds == |plan.adds| && o.plannedRemoves == |plan.removes|
               && o.excluded == |plan.excluded| && o.refused == plan.refusedRemoves
  {
    hide OfferAdds, RemoveEach, FoundNotFound;
  }

  /** A group whose list could not be read: nothing planned, nothing done, one failure. */
  predicate Unread(o: GroupOutcome) {
    && o.plannedAdds == 0 && o.plannedRemoves == 0 && o.applied == 0 && o.alreadyConverged == 0 && o.skipped == 0
    && o.excluded == 0 && o.unmirrorable == 0 && o.refused == 0 && o.failed == 1
  }

  /** What the outcome says is what the listing at `j` gave: a failure, or the entries; and
      of these as many refused removals as the fuse stopped. */
  ghost predicate ReportsListing(log: Log, j: nat, o: GroupOutcome, desired: map<string, Uuid>, allow: bool) {
    && j < |log| && log[j].Listed? && log[j].group == o.groupEmail
    && (log[j].entries.None? ==> Unread(o))
    && (log[j].entries.Some? ==>
          var unwanted, listed := |UnwantedIn(log[j].entries.value, desired)|, |log[j].entries.value|;
          o.refused == if !allow && unwanted > 5 && 10 * (unwanted - 1) >= listed then unwanted else 0)
  }

  /** The groups of `done`, in turn, each reported after its listing. */
  ghost predicate Reported(done: seq<Email>, audiences: Audiences, allow: bool, s: RunState) {
    && |s.outcomes| == |done|
    && forall k :: 0 <= k < |done| ==> ReportsGroup(s.log, s.outcomes[k], done[k], audiences, allow)
  }

  ghost predicate ReportsGroup(log: Log, o: GroupOutcome, group: Email, audiences: Audiences, allow: bool) {
    && group in audiences && o.groupEmail == group
    && exists j: nat :: ReportsListing(log, j, o, audiences[group], allow)
  }

  lemma SweptReported(w: World, done: seq<Email>, group: Email, audiences: Audiences, allow: bool, s: RunState)
    requires Reported(done, audiences, allow, s) && group in audiences
    ensures Reported(done + [group], audiences, allow, SweptGroup(w, group, audiences[group], allow, s))
  {
    hide SweptGroup, Reported, ReportsListing;
    var r, n := SweptGroup(w, group, audiences[group], allow, s), |s.outcomes|;
    GroupReported(w, group, audiences[group], allow, s);
    assert ReportsGroup(r.log, r.outcomes[n], group, audiences, allow);
    hide ReportsGroup;
    OneMoreReported(done, group, audiences, allow, s, r);
  }

  lemma OneMoreReported(done: seq<Email>, group: Email, audiences: Audiences, allow: bool, s: RunState, r: RunState)
    requires Reported(done, audiences, allow, s) && s.log <= r.log && s.outcomes <= r.outcomes
    requires |r.outcomes| == |s.outcomes| + 1
    requires ReportsGroup(r.log, r.outcomes[|s.outcomes|], group, audiences, allow)
    ensures Reported(done + [group], audiences, allow, r)
  {
    hide ReportsGroup;
    forall k | 0 <= k < |done| ensures ReportsGroup(r.log, r.outcomes[k], done[k], audiences, allow) {
      assert r.outcomes[k] == s.outcomes[k];
      StillReports(s.log, r.log, s.outcomes[k], done[k], audiences, allow);
    }
  }

  lemma StillReports(log: Log, end: Log, o: GroupOutcome, group: Email, audiences: Audiences, allow: bool)
    requires ReportsGroup(log, o, group, audiences, allow) && log <= end
    ensures ReportsGroup(end, o, group, audiences, allow)
  {
    hide UnwantedIn, Unread;
    var j: nat :| ReportsListing(log, j, o, audiences[group], allow);
    assert end[j] == log[j];
    assert ReportsListing(end, j, o, audiences[group], allow);
  }

  lemma GroupReported(w: World, group: Email, desired: map<string, Uuid>, allow: bool, s: RunState)
    ensures var r, n := SweptGroup(w, group, desired, allow, s), |s.outcomes|;
            && s.log <= r.log && s.outcomes <= r.outcomes && |r.outcomes| == n + 1 && r.outcomes[n].groupEmail == group
            && ReportsListing(r.log, |s.log|, r.outcomes[n], desired, allow)
  {
    hide ApplyPlan, PlanOf, RecheckedPlan, UnwantedIn;
    if w.google.list(s.log, group).Some? {
      ListedReported(w, group, desired, allow, s);
    }
  }

  lemma ListedReported(w: World, group: Email, desired: map<string, Uuid>, allow: bool, s: RunState)
    requires w.google.list(s.log, group).Some?
    ensures var r, n := SweptGroup(w, group, desired, allow, s), |s.outcomes|;
            && s.log + [Listed(group, w.google.list(s.log, group))] <= r.log
            && s.outcomes <= r.outcomes && |r.outcomes| == n + 1 && r.outcomes[n].groupEmail == group
            && ReportsListing(r.log, |s.log|, r.outcomes[n], desired, allow)
  {
    var actual := w.google.list(s.log, group).value;
    var listed := ListedPlan(w, group, desired, actual, allow, s);
    var s2 := SpendRetries(s.(log := s.log + [Listed(group, Some(actual))]), listed);
    var plan := RecheckedPlan(w, listed, s2);
    PlanRemovesSafely(group, InputsFor(desired, actual, allow, s));
    RecheckedRight(w, group, desired, actual, allow, s);
    hide PlanOf, RecheckedPlan, ApplyPlan, UnwantedIn, PlanEvents, OfferRight, RemoveRight, RemovesBounded;
    SweptGroupApplies(w, group, desired, actual, allow, s);
    OutcomeOfPlan(w.google, plan, s2);
    LogGrows(w, group, desired, allow, s);
  }

  lemma LogGrows(w: World, group: Email, desired: map<string, Uuid>, allow: bool, s: RunState)
    requires w.google.list(s.log, group).Some?
    ensures s.log + [Listed(group, w.google.list(s.log, group))] <= SweptGroup(w, group, desired, allow, s).log
  {
    hide SweptGroup, PlanEvents, Learns, OfferRight, RemoveRight;
    var plan, retried := SweptGroupStep(w, group, desired, allow, s);
  }

  lemma {:induction false} GroupsReported(w: World, done: seq<Email>, groups: seq<Email>, audiences: Audiences,
      allow: bool, s: RunState)
    requires Reported(done, audiences, allow, s) && forall g :: g in groups ==> g in audiences
    ensures Reported(done + groups, audiences, allow, SweptGroups(w, groups, audiences, allow, s))
    decreases |groups|
  {
    hide Reported, SweptGroup;
    if groups == [] {
      assert done + groups == done;
    } else {
      SweptReported(w, done, groups[0], audiences, allow, s);
      GroupsReported(w, done + [groups[0]], groups[1..], audiences, allow,
          SweptGroup(w, groups[0], audiences[groups[0]], allow, s));
      assert (done + [groups[0]]) + groups[1..] == done + groups;
    }
  }

  /** A run reports every group of its audiences once, in alphabetical order. A group whose
      list could not be read is reported as one failure and nothing else; any other with
      as many refused removals as its fuse stopped. */
  lemma EveryGroupIsReported(w: World, audiences: Audiences, statuses: EmailStatuses, allow: bool)
    ensures var s, keys := RunGroups(w, audiences, statuses, allow), SortedKeys(audiences.Keys);
            && Reported(keys, audiences, allow, s)
            && (forall i, j :: 0 <= i < j < |keys| ==> LexLeq(keys[i], keys[j]) && keys[i] != keys[j])
            && (forall g :: g in audiences <==> g in keys)
  {
    hide SweptGroups, LexLeq;
    var keys := SortedKeys(audiences.Keys);
    StartReported(audiences, allow, statuses);
    hide Reported, StartRun;
    GroupsReported(w, [], keys, audiences, allow, StartRun(statuses));
    assert [] + keys == keys;
  }

  lemma StartReported(audiences: Audiences, allow: bool, statuses: EmailStatuses)
    ensures Reported([], audiences, allow, StartRun(statuses))
  {
  }

  /** A run has failed exactly when provisioning did, or a refusal was refused or lost, or
      some group failed at a change or refused a removal. */
  lemma RunFailsExactly(r: SweepReport)
    ensures r.HasFailures() <==>
        || r.provisionFailed
        || (r.refusals.Some? && (r.refusals.value.refused > 0
                                 || r.refusals.value.recorded < r.refusals.value.received - r.refusals.value.refused))
        || exists k :: 0 <= k < |r.groups| && (r.groups[k].failed > 0 || r.groups[k].refused > 0)
  {
    if k :| 0 <= k < |r.groups| && (r.groups[k].failed > 0 || r.groups[k].refused > 0) {
      assert r.groups[k] in r.groups && r.groups[k].Red();
    }
  }
}
