/** The calls one apply makes, told by the log alone: every change of the plan in its
    order, and a look at the group exactly where an answer leaves it in doubt. */
module ApplyCalls {
  import opened Basics
  import opened GroupSync
  import opened EmailStatus
  import opened Plan
  import opened Apply
  import opened Counts

  /** The addresses offered and removed in a stretch of calls, in turn. */
  function OffersIn(calls: Log): seq<Email> {
    if calls == [] then []
    else
      var last := calls[|calls| - 1];
      OffersIn(calls[..|calls| - 1]) + (if last.Offered? then [last.address] else [])
  }

  lemma OffersNext(calls: Log, e: Event)
    ensures OffersIn(calls + [e]) == OffersIn(calls) + (if e.Offered? then [e.address] else [])
  {
    assert (calls + [e])[..|calls|] == calls;
  }

  predicate NotFoundAt(calls: Log, i: nat) {
    i < |calls| && calls[i].Offered? && calls[i].outcome == AddressNotFound
  }

  /** The one look at the group in a round of offers, right after its first 404. */
  ghost predicate LookedAt(calls: Log, group: Email, q: nat, p: Presence) {
    && 0 < q < |calls| && calls[q] == Probed(group, p) && NotFoundAt(calls, q - 1)
    && (forall i: nat :: i < |calls| && i != q ==> calls[i].Offered?)
    && (forall i: nat :: i < q - 1 ==> !NotFoundAt(calls, i))
    && (p == Gone ==> q == |calls| - 1)
  }

  /** A round of offers to the group: offers only, up to the first 404, which is followed
      by a look; if that shows the group gone the round ends there. */
  ghost predicate Round(calls: Log, group: Email, seen: Option<Presence>) {
    && (forall i :: 0 <= i < |calls| ==> calls[i].group == group)
    && match seen
       case None => forall i: nat :: i < |calls| ==> calls[i].Offered? && !NotFoundAt(calls, i)
       case Some(p) => exists q: nat :: LookedAt(calls, group, q, p)
  }

  lemma RoundNext(calls: Log, group: Email, seen: Option<Presence>, e: Event, p: Presence)
    requires Round(calls, group, seen) && seen != Some(Gone) && e.Offered? && e.group == group
    ensures seen.None? && e.outcome != AddressNotFound ==> Round(calls + [e], group, None)
    ensures seen.None? && e.outcome == AddressNotFound ==> Round(calls + [e] + [Probed(group, p)], group, Some(p))
    ensures seen.Some? ==> Round(calls + [e], group, seen)
  {
    var one, two := calls + [e], calls + [e] + [Probed(group, p)];
    assert forall i :: 0 <= i < |calls| ==> one[i] == calls[i] && two[i] == calls[i];
    assert one[|calls|] == e && two[|calls|] == e && two[|calls| + 1] == Probed(group, p);
    if seen.Some? {
      var q: nat :| LookedAt(calls, group, q, seen.value);
      forall i: nat | i < |calls| ensures NotFoundAt(one, i) <==> NotFoundAt(calls, i) { }
      assert forall i: nat :: i < q - 1 ==> !NotFoundAt(calls, i);
      assert LookedAt(one, group, q, seen.value);
    } else if e.outcome == AddressNotFound {
      assert LookedAt(two, group, |calls| + 1, p);
    }
  }

  /** The offers so far, against the log. */
  ghost predicate Offering(start: nat, group: Email, done: seq<Email>, a: AddState) {
    && start <= |a.log| && Round(a.log[start..], group, a.presence) && OffersIn(a.log[start..]) == done
    && (a.gone <==> a.presence == Some(Gone))
    && (FoundNotFound(a.found) <==> a.presence == Some(Present))
  }

  lemma OfferOneStep(g: Google, group: Email, add: PlannedAdd, a: AddState)
    requires !a.gone && a.presence != Some(Gone)
    requires FoundNotFound(a.found) <==> a.presence == Some(Present)
    ensures var b, outcome := OfferOne(g, group, add, a), g.add(a.log, group, add.address);
            var offered := a.log + [Offered(group, add.address, outcome)];
            var looks := outcome == AddressNotFound && a.presence.None?;
            var p := g.presence(offered, group);
            && b.log == (if looks then offered + [Probed(group, p)] else offered)
            && b.presence == (if looks then Some(p) else a.presence)
            && (b.gone <==> b.presence == Some(Gone))
            && (FoundNotFound(b.found) <==> b.presence == Some(Present))
  {
    var b, outcome := OfferOne(g, group, add, a), g.add(a.log, group, add.address);
    var refusal := Refusal(add.address, add.memberId, group, outcome);
    assert b.found == a.found || b.found == a.found + [refusal];
    assert forall r :: r in a.found + [refusal] <==> r in a.found || r == refusal;
    assert refusal in a.found + [refusal];
  }

  lemma OfferingNext(g: Google, group: Email, add: PlannedAdd, a: AddState, start: nat, done: seq<Email>)
    requires Offering(start, group, done, a) && !a.gone
    ensures Offering(start, group, done + [add.address], OfferOne(g, group, add, a))
  {
    hide OfferOne, FoundNotFound, Round, OffersIn;
    OfferOneStep(g, group, add, a);
    var e := Offered(group, add.address, g.add(a.log, group, add.address));
    RoundGrows(a.log, start, group, a.presence, e, g.presence(a.log + [e], group));
  }

  lemma RoundGrows(log: Log, start: nat, group: Email, seen: Option<Presence>, e: Event, p: Presence)
    requires start <= |log| && Round(log[start..], group, seen) && seen != Some(Gone)
    requires e.Offered? && e.group == group
    ensures var one, two := log + [e], log + [e] + [Probed(group, p)];
            && OffersIn(one[start..]) == OffersIn(log[start..]) + [e.address]
            && OffersIn(two[start..]) == OffersIn(log[start..]) + [e.address]
            && (seen.None? && e.outcome != AddressNotFound ==> Round(one[start..], group, None))
            && (seen.None? && e.outcome == AddressNotFound ==> Round(two[start..], group, Some(p)))
            && (seen.Some? ==> Round(one[start..], group, seen))
  {
    hide Round, OffersIn;
    var calls := log[start..];
    RoundNext(calls, group, seen, e, p);
    assert (log + [e])[start..] == calls + [e];
    assert (log + [e] + [Probed(group, p)])[start..] == calls + [e] + [Probed(group, p)];
    OffersNext(calls, e);
    OffersNext(calls + [e], Probed(group, p));
  }

  lemma {:induction false} OfferingOn(g: Google, group: Email, adds: seq<PlannedAdd>, a: AddState, start: nat,
      done: seq<Email>)
    requires Offering(start, group, done, a)
    ensures var b := OfferAdds(g, group, adds, a);
            exists k: nat ::
              && k <= |adds| && Offering(start, group, done + Addresses(adds)[..k], b) && a.log <= b.log
              && (!b.gone ==> k == |adds|)
    decreases |adds|
  {
    hide Offering, OfferOne;
    if adds == [] || a.gone {
      assert done + Addresses(adds)[..0] == done;
    } else {
      var next := OfferOne(g, group, adds[0], a);
      OfferingNext(g, group, adds[0], a, start, done);
      OfferOneShape(g, group, adds[0], a);
      OfferingOn(g, group, adds[1..], next, start, done + [adds[0].address]);
      var b := OfferAdds(g, group, adds, a);
      assert b == OfferAdds(g, group, adds[1..], next);
      var first := done + [adds[0].address];
      var k: nat :| k <= |adds[1..]| && Offering(start, group, first + Addresses(adds[1..])[..k], b)
          && next.log <= b.log && (!b.gone ==> k == |adds[1..]|);
      assert first + Addresses(adds[1..])[..k] == done + Addresses(adds)[..k + 1];
    }
  }

  // ----------------------------------------------------------------- the removals

  /** One call for each address, in order. */
  ghost predicate RemovedEach(calls: Log, group: Email, addresses: seq<Email>) {
    && |calls| == |addresses|
    && forall k :: 0 <= k < |calls| ==>
         calls[k].Removed? && calls[k].group == group && calls[k].address == addresses[k]
  }

  lemma {:induction false} RemovalsCalled(g: Google, group: Email, addresses: seq<Email>, r: RemoveState)
    ensures var b := RemoveEach(g, group, addresses, r);
            && r.log <= b.log && RemovedEach(b.log[|r.log|..], group, addresses)
            && b.converged <= r.converged + |addresses|
            && (b.converged == r.converged + |addresses| <==>
                  forall k :: |r.log| <= k < |b.log| ==> b.log[k].Removed? && b.log[k].outcome == AlreadyConverged)
    decreases |addresses|
  {
    if addresses != [] {
      var next := RemoveOne(g, group, addresses[0], r);
      var b := RemoveEach(g, group, addresses, r);
      RemovalsCalled(g, group, addresses[1..], next);
      assert b == RemoveEach(g, group, addresses[1..], next);
      assert next.log == r.log + [Removed(group, addresses[0], g.remove(r.log, group, addresses[0]))];
      assert b.log[|r.log|] == next.log[|r.log|];
      assert b.log[|r.log|..] == [b.log[|r.log|]] + b.log[|next.log|..];
    }
  }

  /** Nothing applied, by the log. */
  lemma {:induction false} NoneApplied(log: Log, from: nat)
    requires from <= |log|
    ensures CountOf(log, from, Applied) == 0 <==>
        forall k :: from <= k < |log| ==> !((log[k].Offered? || log[k].Removed?) && log[k].outcome == Applied)
    decreases |log|
  {
    if |log| > from {
      NoneApplied(log[..|log| - 1], from);
    }
  }

  /** The removals and what follows them: one call each, and then, only if there were some
      and all found the member gone and nothing in the whole apply was applied, a last
      look at the group. */
  ghost predicate Finishing(plan: GroupPlan, from: nat, start: nat, log: Log, exit: Exit) {
    var n := start + |plan.removes|;
    && from <= start && n <= |log| && RemovedEach(log[start..n], plan.groupEmail, plan.removes)
    && if InDoubt(plan, from, start, log) then
         && |log| == n + 1 && log[n].Probed? && log[n].group == plan.groupEmail
         && exit == if log[n].presence == Gone then Vanished else Finished
       else |log| == n && exit == Finished
  }

  /** Whether the removals leave the group in doubt, by the calls so far. */
  ghost predicate InDoubt(plan: GroupPlan, from: nat, start: nat, log: Log)
    requires from <= start && start + |plan.removes| <= |log|
  {
    var n := start + |plan.removes|;
    && plan.removes != []
    && (forall k :: start <= k < n ==> log[k].Removed? && log[k].outcome == AlreadyConverged)
    && (forall k :: from <= k < n ==> !((log[k].Offered? || log[k].Removed?) && log[k].outcome == Applied))
  }

  /** The state after the removals, by its log. */
  lemma RemovesDone(g: Google, plan: GroupPlan, from: nat, a: AddState, log: Log)
    requires from <= |log| && a.tally[Applied] == CountOf(log, from, Applied)
    ensures var b := RemoveEach(g, plan.groupEmail, plan.removes, RemoveState(log, a.tally, 0));
            && log <= b.log && |b.log| == |log| + |plan.removes|
            && RemovedEach(b.log[|log|..], plan.groupEmail, plan.removes)
            && (|plan.removes| > 0 && b.converged == |plan.removes| && b.tally[Applied] == 0 <==>
                  InDoubt(plan, from, |log|, b.log))
  {
    hide CountOf, RemoveEach, RemovedEach;
    var b := RemoveEach(g, plan.groupEmail, plan.removes, RemoveState(log, a.tally, 0));
    RemovalsCalled(g, plan.groupEmail, plan.removes, RemoveState(log, a.tally, 0));
    AppliedTallied(g, plan.groupEmail, plan.removes, RemoveState(log, a.tally, 0), from);
    NoneApplied(b.log, from);
    RemovedSize(b.log[|log|..], plan.groupEmail, plan.removes);
  }

  lemma DoubtStays(plan: GroupPlan, from: nat, start: nat, log: Log, end: Log)
    requires from <= start && start + |plan.removes| <= |log| && log <= end
    ensures InDoubt(plan, from, start, end) <==> InDoubt(plan, from, start, log)
  {
    assert forall k :: 0 <= k < |log| ==> end[k] == log[k];
  }

  lemma FinishCalls(g: Google, plan: GroupPlan, s: RunState, a: AddState, log: Log)
    requires |s.log| <= |log| && a.tally[Applied] == CountOf(log, |s.log|, Applied)
    ensures var r := FinishGroup(g, plan, s, a, log);
            Finishing(plan, |s.log|, |log|, r.s.log, r.exit) && log <= r.s.log
  {
    hide CountOf, RemoveEach, RemovedEach, InDoubt;
    var b := RemoveEach(g, plan.groupEmail, plan.removes, RemoveState(log, a.tally, 0));
    RemovesDone(g, plan, |s.log|, a, log);
    var r := FinishGroup(g, plan, s, a, log);
    assert b.log <= r.s.log;
    DoubtStays(plan, |s.log|, |log|, b.log, r.s.log);
    assert r.s.log[|log|..|b.log|] == b.log[|log|..];
  }

  lemma RemovedSize(calls: Log, group: Email, addresses: seq<Email>)
    requires RemovedEach(calls, group, addresses)
    ensures |calls| == |addresses|
  {
  }

  lemma {:induction false} AppliedTallied(g: Google, group: Email, addresses: seq<Email>, r: RemoveState, from: nat)
    requires from <= |r.log| && r.tally[Applied] == CountOf(r.log, from, Applied)
    ensures var b := RemoveEach(g, group, addresses, r);
            from <= |b.log| && b.tally[Applied] == CountOf(b.log, from, Applied)
    decreases |addresses|
  {
    if addresses != [] {
      CountNext(r.log, from, Removed(group, addresses[0], g.remove(r.log, group, addresses[0])));
      AppliedTallied(g, group, addresses[1..], RemoveOne(g, group, addresses[0], r), from);
    }
  }

  // ----------------------------------------------------------------- main result

  /** How an apply's calls read, from `from` on, its offers ending at `mid`. */
  ghost predicate Reads(plan: GroupPlan, from: nat, mid: nat, seen: Option<Presence>, log: Log, exit: Exit) {
    && from <= mid <= |log| && Round(log[from..mid], plan.groupEmail, seen)
    && (if seen == Some(Gone) then
          exit == GoneMidAdds && |log| == mid && OffersIn(log[from..mid]) <= Addresses(plan.adds)
        else
          && OffersIn(log[from..mid]) == Addresses(plan.adds)
          && (if seen == Some(Present) then
                && mid < |log| && log[mid].Probed? && log[mid].group == plan.groupEmail
                && (if log[mid].presence == Present then Finishing(plan, from, mid + 1, log, exit)
                    else exit == GoneAfterAdds && |log| == mid + 1)
              else Finishing(plan, from, mid, log, exit)))
  }

  /** What an apply asks of Google, in order: an offer for each add; right after the first
      404 a look at the group, which ends it there if the group is gone; if that 404 was
      believed, one more look after the last offer, which ends it unless the group is
      there; then a removal for each remove; and a last look, which makes the group
      vanished if it is gone, exactly when there were removals, all of members already
      gone, and nothing at all was applied. Nothing else. */
  lemma ApplyCallsExactly(g: Google, plan: GroupPlan, s: RunState) returns (mid: nat, seen: Option<Presence>)
    ensures var r := ApplyPlan(g, plan, s);
            s.log <= r.s.log && Reads(plan, |s.log|, mid, seen, r.s.log, r.exit)
  {
    hide OfferAdds, FinishGroup, FoundNotFound, Round, Finishing, CountOf;
    var from := |s.log|;
    var a := OfferAdds(g, plan.groupEmail, plan.adds, StartAdds(s));
    StartOffering(s, plan.groupEmail);
    OfferingOn(g, plan.groupEmail, plan.adds, StartAdds(s), from, []);
    var k: nat :| k <= |plan.adds| && Offering(from, plan.groupEmail, [] + Addresses(plan.adds)[..k], a)
        && s.log <= a.log && (!a.gone ==> k == |plan.adds|);
    mid, seen := |a.log|, a.presence;
    assert a.log[from..mid] == a.log[from..];
    assert [] + Addresses(plan.adds)[..k] == Addresses(plan.adds)[..k];
    assert a.log[..] == a.log;
    AddsApplied(g, plan, s);
    var look := a.log + [Probed(plan.groupEmail, g.presence(a.log, plan.groupEmail))];
    CountNext(a.log, from, Probed(plan.groupEmail, g.presence(a.log, plan.groupEmail)));
    FinishCalls(g, plan, s, a, a.log);
    FinishCalls(g, plan, s, a, look);
    var r := ApplyPlan(g, plan, s);
    assert a.log <= r.s.log && r.s.log[from..mid] == a.log[from..];
  }

  lemma StartOffering(s: RunState, group: Email)
    ensures Offering(|s.log|, group, [], StartAdds(s))
  {
    assert s.log[|s.log|..] == [];
  }

  lemma AddsApplied(g: Google, plan: GroupPlan, s: RunState)
    ensures var a := OfferAdds(g, plan.groupEmail, plan.adds, StartAdds(s));
            |s.log| <= |a.log| && a.tally[Applied] == CountOf(a.log, |s.log|, Applied)
  {
    hide OfferAdds;
    AddsHonest(g, plan, s);
  }
}
