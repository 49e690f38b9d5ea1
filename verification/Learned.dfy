/** What a run remembers as accepted is exactly what Google took. */
module Learned {
  import opened Basics
  import opened GroupSync
  import opened EmailStatus
  import opened Plan
  import opened Apply
  import opened Sweep
  import opened SweepSteps

  /** An offer Google took, or whose address it already held. */
  predicate Took(e: Event) {
    e.Offered? && e.outcome.Accepted()
  }

  function TakenIn(log: Log): set<Email> {
    set i | 0 <= i < |log| && Took(log[i]) :: log[i].address
  }

  lemma TakenNext(log: Log, e: Event)
    ensures TakenIn(log + [e]) == TakenIn(log) + (if Took(e) then {e.address} else {})
  {
    var next := log + [e];
    forall a ensures a in TakenIn(next) <==> a in TakenIn(log) || (Took(e) && a == e.address) {
      if a in TakenIn(log) {
        var i :| 0 <= i < |log| && Took(log[i]) && log[i].address == a;
        assert next[i] == log[i];
      }
      if Took(e) && a == e.address { assert next[|log|] == e; }
      if a in TakenIn(next) {
        var i :| 0 <= i < |next| && Took(next[i]) && next[i].address == a;
        if i < |log| { assert next[i] == log[i]; }
      }
    }
  }

  lemma {:induction false} TakenLater(log: Log, end: Log)
    requires log <= end && forall i :: |log| <= i < |end| ==> !end[i].Offered?
    ensures TakenIn(end) == TakenIn(log)
    decreases |end|
  {
    if |end| > |log| {
      var n := |end| - 1;
      assert end == end[..n] + [end[n]];
      TakenLater(log, end[..n]);
      TakenNext(end[..n], end[n]);
    } else {
      assert end == log;
    }
  }

  lemma OfferOneTakes(g: Google, group: Email, add: PlannedAdd, a: AddState)
    requires !a.gone && TakenIn(a.log) == a.accepted
    ensures var b := OfferOne(g, group, add, a); TakenIn(b.log) == b.accepted
  {
    hide TakenIn;
    var outcome := g.add(a.log, group, add.address);
    var e := Offered(group, add.address, outcome);
    TakenNext(a.log, e);
    TakenNext(a.log + [e], Probed(group, g.presence(a.log + [e], group)));
  }

  lemma {:induction false} OfferAddsTake(g: Google, group: Email, adds: seq<PlannedAdd>, a: AddState)
    requires TakenIn(a.log) == a.accepted
    ensures var b := OfferAdds(g, group, adds, a); TakenIn(b.log) == b.accepted
    decreases |adds|
  {
    hide TakenIn, OfferOne;
    if adds != [] && !a.gone {
      OfferOneTakes(g, group, adds[0], a);
      OfferAddsTake(g, group, adds[1..], OfferOne(g, group, adds[0], a));
    }
  }

  lemma ApplyTakes(g: Google, plan: GroupPlan, s: RunState)
    requires TakenIn(s.log) == s.accepted
    ensures var r := ApplyPlan(g, plan, s).s; TakenIn(r.log) == r.accepted
  {
    hide OfferAdds, FinishGroup, TakenIn, FoundNotFound;
    var a := OfferAdds(g, plan.groupEmail, plan.adds, StartAdds(s));
    OfferAddsTake(g, plan.groupEmail, plan.adds, StartAdds(s));
    var probed := a.log + [Probed(plan.groupEmail, g.presence(a.log, plan.groupEmail))];
    FinishGroupDiscipline(g, plan, s, a, a.log);
    FinishGroupDiscipline(g, plan, s, a, probed);
    FinishKeepsAccepted(g, plan, s, a);
    TakenLater(a.log, probed);
    TakenLater(a.log, FinishGroup(g, plan, s, a, a.log).s.log);
    TakenLater(probed, FinishGroup(g, plan, s, a, probed).s.log);
  }

  lemma FinishKeepsAccepted(g: Google, plan: GroupPlan, s: RunState, a: AddState)
    ensures forall log :: FinishGroup(g, plan, s, a, log).s.accepted == a.accepted
  {
    hide RemoveEach;
  }

  lemma SweptGroupTakes(w: World, group: Email, desired: map<string, Uuid>, allow: bool, s: RunState)
    requires TakenIn(s.log) == s.accepted
    ensures var r := SweptGroup(w, group, desired, allow, s); TakenIn(r.log) == r.accepted
  {
    hide TakenIn, PlanOf, ApplyPlan, RecheckedPlan;
    TakenNext(s.log, Listed(group, w.google.list(s.log, group)));
    if w.google.list(s.log, group).Some? {
      var actual := w.google.list(s.log, group).value;
      SweptGroupApplies(w, group, desired, actual, allow, s);
      var listed := ListedPlan(w, group, desired, actual, allow, s);
      var s2 := SpendRetries(s.(log := s.log + [Listed(group, Some(actual))]), listed);
      ApplyTakes(w.google, RecheckedPlan(w, listed, s2), s2);
    }
  }

  lemma {:induction false} SweptGroupsTake(w: World, groups: seq<Email>, audiences: Audiences, allow: bool, s: RunState)
    requires TakenIn(s.log) == s.accepted && forall g :: g in groups ==> g in audiences
    ensures var r := SweptGroups(w, groups, audiences, allow, s); TakenIn(r.log) == r.accepted
    decreases |groups|
  {
    hide TakenIn, SweptGroup;
    if groups != [] {
      SweptGroupTakes(w, groups[0], audiences[groups[0]], allow, s);
      SweptGroupsTake(w, groups[1..], audiences, allow, SweptGroup(w, groups[0], audiences[groups[0]], allow, s));
    }
  }

  /** What a run remembers as accepted is what Google took in it, in any group,
      abandoned ones among them, and nothing else. */
  lemma AcceptedIsWhatGoogleTook(w: World, audiences: Audiences, statuses: EmailStatuses, allow: bool)
    ensures var s := RunGroups(w, audiences, statuses, allow); s.accepted == TakenIn(s.log)
  {
    hide SweptGroups, SortedKeys;
    SweptGroupsTake(w, SortedKeys(audiences.Keys), audiences, allow, StartRun(statuses));
  }
}
