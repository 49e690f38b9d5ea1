/** What sweeping one group adds to a run, for any Google and any records. */
module SweepSteps {
  import opened Basics
  import opened GroupSync
  import opened EmailStatus
  import opened Plan
  import opened Apply
  import opened Sweep

  /** The keys of an audience are already lower-cased. */
  ghost predicate Normal(desired: map<string, Uuid>) {
    forall a :: a in desired ==> Norm(a) == a
  }

  // ---------------------------------------------------------- applying a plan

  /** The calls of one apply. */
  ghost predicate PlanEvents(plan: GroupPlan, start: Log, log: Log) {
    && start <= log
    && (forall i :: |start| <= i < |log| ==>
          && log[i].group == plan.groupEmail && !log[i].Listed?
          && (log[i].Offered? ==> log[i].address in Addresses(plan.adds))
          && (log[i].Removed? ==> log[i].address in plan.removes))
    && (forall i, j ::
           |start| <= i < j < |log| && log[i].Offered? && log[j].Offered? ==> log[i].address != log[j].address)
    && RemovesBounded(start, log, |plan.removes|)
  }

  ghost predicate RemovesBounded(start: Log, log: Log, n: nat) {
    |set i | |start| <= i < |log| && log[i].Removed?| <= n
  }

  /** What an apply learns: verdicts on its own adds, acceptances of its own adds. */
  ghost predicate Learns(plan: GroupPlan, s: RunState, r: RunState) {
    && s.unmirrorable <= r.unmirrorable
    && s.refusals <= r.refusals
    && (forall k :: |s.refusals| <= k < |r.refusals| ==>
          && r.refusals[k].groupEmail == plan.groupEmail && r.refusals[k].outcome.Unmirrorable()
          && r.refusals[k].address in Addresses(plan.adds) && Norm(r.refusals[k].address) in r.unmirrorable
          && Believable(r.log, |s.log|, plan.groupEmail, r.refusals[k]))
    && (forall j, k :: |s.refusals| <= j < k < |r.refusals| ==> r.refusals[j].address != r.refusals[k].address)
    && s.accepted <= r.accepted
    && (forall x :: x in r.accepted && x !in s.accepted ==> x in Addresses(plan.adds))
    && (forall u :: u in r.unmirrorable && u !in s.unmirrorable ==> exists p :: p in plan.adds && Norm(p.address) == u)
    && r.lapsed == s.lapsed && r.retrySlots == s.retrySlots
  }

  function Range(from: nat, n: nat): (r: set<int>)
    ensures |r| == n && forall i :: i in r <==> from <= i < from + n
  {
    if n == 0 then {} else Range(from, n - 1) + {from + n - 1}
  }

  lemma RemoveCount(start: Log, log: Log, group: Email, addresses: seq<Email>, mid: Log)
    requires start <= mid <= log && forall i :: |start| <= i < |mid| ==> !mid[i].Removed?
    requires |mid| + |addresses| <= |log| && forall i :: |mid| + |addresses| <= i < |log| ==> !log[i].Removed?
    ensures RemovesBounded(start, log, |addresses|)
  {
    var removed := set i | |start| <= i < |log| && log[i].Removed?;
    var slots := Range(|mid|, |addresses|);
    assert forall i :: |start| <= i < |mid| ==> log[i] == mid[i];
    assert removed <= slots;
    SubsetSize(removed, slots);
  }

  lemma FinishEvents(g: Google, plan: GroupPlan, s: RunState, a: AddState, log: Log)
    requires AddEvents(plan.groupEmail, plan.adds, [], s.log, a.log)
    requires a.log <= log && forall i :: |a.log| <= i < |log| ==> log[i].Probed? && log[i].group == plan.groupEmail
    ensures PlanEvents(plan, s.log, FinishGroup(g, plan, s, a, log).s.log)
  {
    var r := RemoveEach(g, plan.groupEmail, plan.removes, RemoveState(log, a.tally, 0));
    var end := FinishGroup(g, plan, s, a, log).s.log;
    RemovesPhase(g, plan.groupEmail, plan.removes, RemoveState(log, a.tally, 0));
    FinishGroupDiscipline(g, plan, s, a, log);
    assert forall i :: |s.log| <= i < |a.log| ==> end[i] == a.log[i];
    RemoveCount(s.log, end, plan.groupEmail, plan.removes, log);
  }

  lemma ApplyEvents(g: Google, plan: GroupPlan, s: RunState)
    requires NoDup(Addresses(plan.adds))
    ensures PlanEvents(plan, s.log, ApplyPlan(g, plan, s).s.log)
  {
    hide OfferAdds, FinishGroup, Verdicts, AddEvents, PlanEvents, FoundNotFound;
    AddsPhase(g, plan, s);
    var a := OfferAdds(g, plan.groupEmail, plan.adds, StartAdds(s));
    var probed := a.log + [Probed(plan.groupEmail, g.presence(a.log, plan.groupEmail))];
    FinishEvents(g, plan, s, a, probed);
    FinishEvents(g, plan, s, a, a.log);
    AddsOnlyEvents(plan, s, a, probed);
    AddsOnlyEvents(plan, s, a, a.log);
  }

  /** An apply that stops after its adds has made only their calls. */
  lemma AddsOnlyEvents(plan: GroupPlan, s: RunState, a: AddState, log: Log)
    requires AddEvents(plan.groupEmail, plan.adds, [], s.log, a.log)
    requires a.log <= log && forall i :: |a.log| <= i < |log| ==> log[i].Probed? && log[i].group == plan.groupEmail
    ensures PlanEvents(plan, s.log, log)
  {
    hide RemovesBounded;
    assert forall i :: |s.log| <= i < |a.log| ==> log[i] == a.log[i];
    RemoveCount(s.log, log, plan.groupEmail, [], log);
    SmallerBound(s.log, log, |plan.removes|);
  }

  lemma SmallerBound(start: Log, log: Log, n: nat)
    requires RemovesBounded(start, log, 0)
    ensures RemovesBounded(start, log, n)
  {
  }

  /** What an apply hands on besides its log. */
  lemma ApplyThreads(g: Google, plan: GroupPlan, s: RunState)
    ensures var a, r := OfferAdds(g, plan.groupEmail, plan.adds, StartAdds(s)), ApplyPlan(g, plan, s).s;
            && r.unmirrorable == a.unmirrorable && r.accepted == a.accepted
            && (r.refusals == s.refusals || r.refusals == s.refusals + a.found)
            && r.lapsed == s.lapsed && r.retrySlots == s.retrySlots
  {
    hide OfferAdds, RemoveEach, FoundNotFound;
  }

  lemma ApplyLearns(g: Google, plan: GroupPlan, s: RunState)
    requires NoDup(Addresses(plan.adds))
    ensures Learns(plan, s, ApplyPlan(g, plan, s).s)
  {
    hide OfferAdds, RemoveEach, Believable, ApplyPlan, AddEvents, FoundNotFound;
    AddsPhase(g, plan, s);
    VerdictDiscipline(g, plan, s);
    var a, r := OfferAdds(g, plan.groupEmail, plan.adds, StartAdds(s)), ApplyPlan(g, plan, s).s;
    ApplyThreads(g, plan, s);
    forall k | |s.refusals| <= k < |r.refusals|
      ensures r.refusals[k].groupEmail == plan.groupEmail && r.refusals[k].outcome.Unmirrorable()
      ensures r.refusals[k].address in Addresses(plan.adds) && Norm(r.refusals[k].address) in r.unmirrorable
    {
      assert Met(plan.groupEmail, plan.adds, s.log, a, a.found[k - |s.refusals|]);
    }
  }

  // ------------------------------------------------------------- one group

  /** The plan a group was listed into, and the one applied after the recheck. */
  function ListedPlan(w: World, group: Email, desired: map<string, Uuid>, actual: seq<Entry>, allow: bool,
      s: RunState): GroupPlan {
    PlanOf(group, InputsFor(desired, actual, allow, s))
  }

  /** An address offered: wanted by the snapshot and by the fresh read, absent from
      the group, not known refused. */
  ghost predicate OfferRight(w: World, s: RunState, group: Email, desired: map<string, Uuid>, actual: seq<Entry>,
      address: Email) {
    && address in desired && address !in Keys(actual) && address !in s.unmirrorable
    && Norm(address) in w.current(s.log + [Listed(group, Some(actual))], group)
  }

  /** An address removed: a plain member's, wanted by neither read. */
  ghost predicate RemoveRight(w: World, s: RunState, group: Email, desired: map<string, Uuid>, actual: seq<Entry>,
      address: Email) {
    && (exists e :: e in actual && e.email == address && Unwanted(e, desired))
    && Norm(address) !in w.current(s.log + [Listed(group, Some(actual))], group)
  }

  lemma RecheckedRight(w: World, group: Email, desired: map<string, Uuid>, actual: seq<Entry>, allow: bool, s: RunState)
    ensures var plan := ListedPlan(w, group, desired, actual, allow, s);
            var s2 := SpendRetries(s.(log := s.log + [Listed(group, Some(actual))]), plan);
            var p := RecheckedPlan(w, plan, s2);
            && p.groupEmail == group && p.refusedRemoves == plan.refusedRemoves && NoDup(Addresses(p.adds))
            && (forall a :: a in Addresses(p.adds) ==>
                  OfferRight(w, s, group, desired, actual, a) && (a in s.lapsed ==> a in plan.retried))
            && (forall a :: a in p.removes ==> RemoveRight(w, s, group, desired, actual, a))
            && (!allow ==> FewEnough(|p.removes|, |actual|))
  {
    var input := InputsFor(desired, actual, allow, s);
    var plan := ListedPlan(w, group, desired, actual, allow, s);
    PlanPartitionsDesired(group, input);
    PlanRemovesSafely(group, input);
    assert plan.groupEmail == group;
    hide PlanOf;
    if !Idle(plan) {
      var current := w.current(s.log + [Listed(group, Some(actual))], group).Keys;
      StillDistinct(plan.adds, current);
      var still := Still(plan.adds, current);
      forall a | a in Addresses(still)
        ensures OfferRight(w, s, group, desired, actual, a) && (a in s.lapsed ==> a in plan.retried)
      {
        AddressesIn(still, a);
        var p :| p in still && p.address == a;
        AddressesIn(plan.adds, a);
        assert p in plan.adds + plan.excluded;
      }
    } else {
      assert plan.adds == [] && plan.removes == [] && Addresses(plan.adds) == [];
    }
  }

  /** Whatever was planned, what is applied and reported are the offers and exclusions the
      fresh read still wants and the removals it still does not. */
  lemma RecheckedInFull(w: World, plan: GroupPlan, s: RunState)
    ensures var current, p := w.current(s.log, plan.groupEmail), RecheckedPlan(w, plan, s);
            && (forall x :: x in p.adds <==> x in plan.adds && Norm(x.address) in current)
            && (forall x :: x in p.excluded <==> x in plan.excluded && Norm(x.address) in current)
            && (forall a :: a in p.removes <==> a in plan.removes && Norm(a) !in current)
  {
    RecheckedExactly(plan, w.current(s.log, plan.groupEmail).Keys);
    hide Recheck, Norm;
  }

  /** Everything one swept group did to the run. */
  ghost predicate GroupStep(w: World, group: Email, desired: map<string, Uuid>, allow: bool, s: RunState, r: RunState,
                            actual: seq<Entry>, plan: GroupPlan, retried: seq<Email>)
  {
    && plan.groupEmail == group
    && s.log + [Listed(group, Some(actual))] <= r.log
    && PlanEvents(plan, s.log + [Listed(group, Some(actual))], r.log)
    && (forall a :: a in Addresses(plan.adds) ==>
          OfferRight(w, s, group, desired, actual, a) && (a in s.lapsed ==> a in retried))
    && (forall a :: a in plan.removes ==> RemoveRight(w, s, group, desired, actual, a))
    && (!allow ==> FewEnough(|plan.removes|, |actual|))
    && NoDup(retried) && |retried| <= Max(0, s.retrySlots) && (forall a :: a in retried ==> a in s.lapsed)
    && Learns(plan, s.(log := s.log + [Listed(group, Some(actual))], lapsed :=
         s.lapsed - ToSet(retried), retrySlots := s.retrySlots - |retried|), r)
    && s.outcomes <= r.outcomes && |r.outcomes| == |s.outcomes| + 1 && Accounted(LastOutcome(r))
  }

  /** An outcome whose failures and settled changes explain its plan. */
  ghost predicate Accounted(o: GroupOutcome) {
    o.failed >= 0 && (o.failed == 0 ==> o.Settled() == o.plannedAdds + o.plannedRemoves)
  }

  lemma SweptGroupApplies(w: World, group: Email, desired: map<string, Uuid>, actual: seq<Entry>, allow: bool,
      s: RunState)
    requires w.google.list(s.log, group) == Some(actual)
    ensures var listed := ListedPlan(w, group, desired, actual, allow, s);
            var s2 := SpendRetries(s.(log := s.log + [Listed(group, Some(actual))]), listed);
            SweptGroup(w, group, desired, allow, s) == ApplyPlan(w.google, RecheckedPlan(w, listed, s2), s2).s
  {
    hide PlanOf, ApplyPlan, RecheckedPlan, SpendRetries;
  }

  lemma SweptGroupStep(w: World, group: Email, desired: map<string, Uuid>, allow: bool, s: RunState)
    returns (plan: GroupPlan, retried: seq<Email>)
    requires w.google.list(s.log, group).Some?
    ensures GroupStep(w, group, desired, allow, s, SweptGroup(w, group, desired, allow, s),
                      w.google.list(s.log, group).value, plan, retried)
  {
    hide PlanOf, ApplyPlan, Learns, OfferRight, RemoveRight, RecheckedPlan, SweptGroup, Keys, RemovesBounded;
    var actual := w.google.list(s.log, group).value;
    var listed := ListedPlan(w, group, desired, actual, allow, s);
    var s2 := SpendRetries(s.(log := s.log + [Listed(group, Some(actual))]), listed);
    plan, retried := RecheckedPlan(w, listed, s2), listed.retried;
    RecheckedRight(w, group, desired, actual, allow, s);
    PlanPartitionsDesired(group, InputsFor(desired, actual, allow, s));
    SweptGroupApplies(w, group, desired, actual, allow, s);
    ApplyEvents(w.google, plan, s2);
    ApplyLearns(w.google, plan, s2);
    EveryExitAccounts(w.google, plan, s2);
  }
}
