/** Sweeping a group at a Google that answers definitively: the group converges to
    the records, and a second sweep has nothing to do. */
module Convergence {
  import opened Basics
  import opened GroupSync
  import opened EmailStatus
  import opened Plan
  import opened Apply
  import opened Sweep
  import opened SweepSteps

  // --------------------------------------------------------- a definite Google

  function NewEntry(address: Email): Entry {
    Entry(address, Permission.Member, Some("USER"))
  }

  function Without(entries: seq<Entry>, key: string): (r: seq<Entry>)
    ensures forall e :: e in r <==> e in entries && Norm(e.email) != key
  {
    if entries == [] then []
    else
      assert entries == [entries[0]] + entries[1..];
      (if Norm(entries[0].email) == key then [] else [entries[0]]) + Without(entries[1..], key)
  }

  function Acted(entries: seq<Entry>, group: Email, e: Event): seq<Entry> {
    match e
    case Offered(g, address, outcome) => if g == group && outcome.Applied? then entries + [NewEntry(address)]
        else entries
    case Removed(g, address, outcome) => if g == group && outcome.Applied? then Without(entries, Norm(address))
        else entries
    case Listed(_, _) => entries
    case Probed(_, _) => entries
  }

  /** A group's member list after a run's calls, from the list it began with. */
  function ListAfter(base: seq<Entry>, group: Email, log: Log): seq<Entry> {
    if log == [] then base else Acted(ListAfter(base, group, log[..|log| - 1]), group, log[|log| - 1])
  }

  lemma ListNext(base: seq<Entry>, group: Email, log: Log, e: Event)
    ensures ListAfter(base, group, log + [e]) == Acted(ListAfter(base, group, log), group, e)
  {
    assert (log + [e])[..|log|] == log;
  }

  /** Verdicts Google gives about addresses it will not hold. */
  type Verdicts = map<string, SyncOutcome>

  ghost predicate AllVerdicts(refuses: Verdicts) {
    forall a :: a in refuses ==> refuses[a].Unmirrorable()
  }

  /** A Google that always answers, from what it holds and what it refuses. */
  function Answering(bases: Email -> seq<Entry>, refuses: Verdicts): Google {
    Google(
      (log: Log, group: Email) => Some(ListAfter(bases(group), group, log)),
      (log: Log, group: Email, a: Email) =>
        if Norm(a) in Keys(ListAfter(bases(group), group, log)) then AlreadyConverged
        else if Norm(a) in refuses then refuses[Norm(a)] else Applied,
      (log: Log, group: Email, a: Email) =>
        if Norm(a) in Keys(ListAfter(bases(group), group, log)) then Applied else AlreadyConverged,
      (log: Log, group: Email) => Present)
  }

  function AddressesOf(refusals: seq<Refusal>): set<Email> {
    set r | r in refusals :: r.address
  }

  // ---------------------------------------------------------- the adds decided

  /** The accepted ones among a list of offered addresses. */
  function Taken(addresses: seq<Email>, refuses: Verdicts): set<Email> {
    set a | a in addresses && a !in refuses
  }

  function Refused(addresses: seq<Email>, refuses: Verdicts): set<Email> {
    set a | a in addresses && a in refuses
  }

  /** A plain entry for one of the accepted addresses. */
  predicate AddedEntry(e: Entry, addresses: seq<Email>, refuses: Verdicts) {
    e.email in Taken(addresses, refuses) && e == NewEntry(e.email)
  }

  /** After the addresses in `done`: each is in the group or refused, and nothing failed. */
  ghost predicate Decided(base: seq<Entry>, group: Email, refuses: Verdicts, actual: seq<Entry>, done: seq<Email>,
      s: RunState, a: AddState) {
    var entries := ListAfter(base, group, a.log);
    && (forall e :: e in entries <==> e in actual || AddedEntry(e, done, refuses))
    && (forall d :: d in done ==> Norm(d) == d)
    && !a.gone && (a.presence.Some? ==> a.presence.value.Present?)
    && a.tally[Failed] == 0
    && a.accepted == s.accepted + Taken(done, refuses)
    && a.unmirrorable == s.unmirrorable + Refused(done, refuses)
    && AddressesOf(a.found) == Refused(done, refuses)
  }

  lemma OfferDecides(bases: Email -> seq<Entry>, refuses: Verdicts, group: Email, actual: seq<Entry>, done: seq<Email>,
                     add: PlannedAdd, s: RunState, a: AddState)
    requires AllVerdicts(refuses) && Decided(bases(group), group, refuses, actual, done, s, a)
    requires Norm(add.address) == add.address && add.address !in Keys(actual) && add.address !in done
    ensures Decided(bases(group), group, refuses, actual, done + [add.address], s,
        OfferOne(Answering(bases, refuses), group, add, a))
  {
    var g, base, x := Answering(bases, refuses), bases(group), add.address;
    var outcome := if x in refuses then refuses[x] else Applied;
    assert g.add(a.log, group, x) == outcome by { NotYetThere(base, group, refuses, actual, done, x, s, a); }
    assert g.presence(a.log + [Offered(group, x, outcome)], group) == Present;
    OfferedDefinitely(g, group, add, a, outcome);
    var b := OfferOne(g, group, add, a);
    hide OfferOne, Answering, Decided, ListAfter;
    DecidedNext(base, group, refuses, actual, done, add, s, a, b, outcome);
  }

  lemma DecidedNext(base: seq<Entry>, group: Email, refuses: Verdicts, actual: seq<Entry>, done: seq<Email>,
      add: PlannedAdd, s: RunState, a: AddState, b: AddState, outcome: SyncOutcome)
    requires AllVerdicts(refuses) && Decided(base, group, refuses, actual, done, s, a)
        && Norm(add.address) == add.address
    requires outcome == if add.address in refuses then refuses[add.address] else Applied
    requires DefiniteStep(group, add, a, b, outcome)
    ensures Decided(base, group, refuses, actual, done + [add.address], s, b)
  {
    var x := add.address;
    OfferDecidesEntries(base, group, refuses, actual, done, x, s, a, b.log);
    hide ListAfter;
    assert Taken(done + [x], refuses) == Taken(done, refuses) + (if x in refuses then {} else {x});
    assert Refused(done + [x], refuses) == Refused(done, refuses) + (if x in refuses then {x} else {});
    FoundNext(a.found, Refusal(x, add.memberId, group, outcome));
  }

  /** The effect of an offer answered for good. */
  ghost predicate DefiniteStep(group: Email, add: PlannedAdd, a: AddState, b: AddState, outcome: SyncOutcome) {
    && (b.log == a.log + [Offered(group, add.address, outcome)]
           || b.log == a.log + [Offered(group, add.address, outcome)] + [Probed(group, Present)])
    && b.gone == a.gone && (b.presence.Some? ==> b.presence.value.Present?) && b.tally == a.tally + multiset{outcome}
    && b.accepted == a.accepted + (if outcome.Applied? then {add.address} else {})
    && b.unmirrorable == a.unmirrorable + (if outcome.Applied? then {} else {Norm(add.address)})
    && b.found == a.found + (if outcome.Applied? then [] else [Refusal(add.address, add.memberId, group, outcome)])
  }

  /** An offer answered for good, at a group that is there. */
  lemma OfferedDefinitely(g: Google, group: Email, add: PlannedAdd, a: AddState, outcome: SyncOutcome)
    requires g.add(a.log, group, add.address) == outcome && (outcome.Unmirrorable() || outcome.Applied?)
    requires g.presence(a.log + [Offered(group, add.address, outcome)], group) == Present
    requires a.presence.Some? ==> a.presence.value.Present?
    ensures DefiniteStep(group, add, a, OfferOne(g, group, add, a), outcome)
  {
  }

  lemma NotYetThere(base: seq<Entry>, group: Email, refuses: Verdicts, actual: seq<Entry>, done: seq<Email>,
      x: Email, s: RunState, a: AddState)
    requires Decided(base, group, refuses, actual, done, s, a) && x !in Keys(actual) && x !in done
    ensures x !in Keys(ListAfter(base, group, a.log))
  {
    hide ListAfter;
    forall e | e in ListAfter(base, group, a.log) ensures Norm(e.email) != x {
      if e in actual { assert Norm(e.email) in Keys(actual); }
    }
  }

  lemma FoundNext(found: seq<Refusal>, r: Refusal)
    ensures AddressesOf(found + [r]) == AddressesOf(found) + {r.address}
  {
    assert r in found + [r];
    assert forall x :: x in found ==> x in found + [r];
  }

  lemma OfferDecidesEntries(base: seq<Entry>, group: Email, refuses: Verdicts, actual: seq<Entry>, done: seq<Email>,
      x: Email, s: RunState, a: AddState, log: Log)
    requires AllVerdicts(refuses) && Decided(base, group, refuses, actual, done, s, a)
    requires var offered := a.log + [Offered(group, x, if x in refuses then refuses[x] else Applied)];
             log == offered || log == offered + [Probed(group, Present)]
    ensures forall e :: e in ListAfter(base, group, log) <==> e in actual || AddedEntry(e, done + [x], refuses)
  {
    hide ListAfter, AllVerdicts;
    EntriesAfterOffer(base, group, refuses, x, a.log, log);
    OneMoreTaken(ListAfter(base, group, a.log), ListAfter(base, group, log), refuses, actual, done, x);
  }

  lemma EntriesAfterOffer(base: seq<Entry>, group: Email, refuses: Verdicts, x: Email, log: Log, next: Log)
    requires AllVerdicts(refuses)
    requires var offered := log + [Offered(group, x, if x in refuses then refuses[x] else Applied)];
             next == offered || next == offered + [Probed(group, Present)]
    ensures var before := ListAfter(base, group, log);
            ListAfter(base, group, next) == if x in refuses then before else before + [NewEntry(x)]
  {
    hide ListAfter;
    var offered := log + [Offered(group, x, if x in refuses then refuses[x] else Applied)];
    ListNext(base, group, log, offered[|log|]);
    ListNext(base, group, offered, Probed(group, Present));
  }

  lemma OneMoreTaken(before: seq<Entry>, after: seq<Entry>, refuses: Verdicts, actual: seq<Entry>, done: seq<Email>,
      x: Email)
    requires forall e :: e in before <==> e in actual || AddedEntry(e, done, refuses)
    requires after == if x in refuses then before else before + [NewEntry(x)]
    ensures forall e :: e in after <==> e in actual || AddedEntry(e, done + [x], refuses)
  {
  }

  lemma {:induction false} AddsDecide(bases: Email -> seq<Entry>, refuses: Verdicts, group: Email,
      actual: seq<Entry>, done: seq<Email>, rest: seq<PlannedAdd>, s: RunState, a: AddState)
    requires AllVerdicts(refuses) && Decided(bases(group), group, refuses, actual, done, s, a)
    requires NoDup(done + Addresses(rest))
    requires forall x :: x in Addresses(rest) ==> Norm(x) == x && x !in Keys(actual)
    ensures Decided(bases(group), group, refuses, actual, done + Addresses(rest), s,
        OfferAdds(Answering(bases, refuses), group, rest, a))
    decreases |rest|
  {
    if rest == [] {
      assert done + Addresses(rest) == done;
    } else {
      var x := rest[0].address;
      assert Addresses(rest)[0] == x && Addresses(rest)[1..] == Addresses(rest[1..]);
      assert x !in done by {
        assert (done + Addresses(rest))[|done|] == x;
        assert forall k :: 0 <= k < |done| ==> (done + Addresses(rest))[k] == done[k];
      }
      OfferDecides(bases, refuses, group, actual, done, rest[0], s, a);
      assert done + Addresses(rest) == (done + [x]) + Addresses(rest[1..]);
      assert forall y :: y in Addresses(rest[1..]) ==> y in Addresses(rest);
      assert !a.gone;
      hide Decided, OfferOne, Answering;
      AddsDecide(bases, refuses, group, actual, done + [x], rest[1..], s,
          OfferOne(Answering(bases, refuses), group, rest[0], a));
    }
  }

  // ------------------------------------------------------------- the removes

  function NormAll(addresses: seq<Email>): set<string> {
    set a | a in addresses :: Norm(a)
  }

  lemma {:induction false} RemovesEmpty(bases: Email -> seq<Entry>, refuses: Verdicts, group: Email,
      addresses: seq<Email>, r: RemoveState)
    ensures var b := RemoveEach(Answering(bases, refuses), group, addresses, r);
            && (forall e :: e in ListAfter(bases(group), group, b.log) <==>
                  e in ListAfter(bases(group), group, r.log) && Norm(e.email) !in NormAll(addresses))
            && b.tally[Failed] == r.tally[Failed]
    decreases |addresses|
  {
    if addresses != [] {
      var g := Answering(bases, refuses);
      var next := RemoveOne(g, group, addresses[0], r);
      RemoveEmpties(bases, refuses, group, addresses[0], r);
      RemovesEmpty(bases, refuses, group, addresses[1..], next);
      assert addresses == [addresses[0]] + addresses[1..];
      NormAllNext(addresses);
      hide NormAll, ListAfter, Answering, RemoveOne;
    }
  }

  lemma NormAllNext(addresses: seq<Email>)
    requires addresses != []
    ensures NormAll(addresses) == {Norm(addresses[0])} + NormAll(addresses[1..])
  {
    assert addresses == [addresses[0]] + addresses[1..];
    assert forall a :: a in addresses <==> a == addresses[0] || a in addresses[1..];
  }

  lemma RemoveEmpties(bases: Email -> seq<Entry>, refuses: Verdicts, group: Email, address: Email, r: RemoveState)
    ensures var b := RemoveOne(Answering(bases, refuses), group, address, r);
            && (forall e :: e in ListAfter(bases(group), group, b.log) <==>
                  e in ListAfter(bases(group), group, r.log) && Norm(e.email) != Norm(address))
            && b.tally[Failed] == r.tally[Failed]
  {
    var outcome := Answering(bases, refuses).remove(r.log, group, address);
    ListNext(bases(group), group, r.log, Removed(group, address, outcome));
    var before := ListAfter(bases(group), group, r.log);
    assert outcome == if Norm(address) in Keys(before) then Applied else AlreadyConverged;
    hide ListAfter, Answering;
    assert forall e :: e in before ==> Norm(e.email) in Keys(before);
  }

  // ------------------------------------------------------------- convergence

  /** A group's list once swept: what was there or was added, less what was removed. */
  ghost predicate SweptTo(actual: seq<Entry>, entries: seq<Entry>, plan: GroupPlan, refuses: Verdicts) {
    forall e :: e in entries <==>
      (e in actual || AddedEntry(e, Addresses(plan.adds), refuses)) && Norm(e.email) !in NormAll(plan.removes)
  }

  /** What one sweep of a group at such a Google does. */
  lemma SweepDecides(bases: Email -> seq<Entry>, refuses: Verdicts, group: Email, desired: map<string, Uuid>,
                     current: (Log, Email) -> map<string, Uuid>, allow: bool, s: RunState)
    requires AllVerdicts(refuses) && Normal(desired)
    requires forall log :: current(log, group) == desired
    ensures var w := World(Answering(bases, refuses), current);
            var actual := ListAfter(bases(group), group, s.log);
            var plan := ListedPlan(w, group, desired, actual, allow, s);
            var r := SweptGroup(w, group, desired, allow, s);
            && SweptTo(actual, ListAfter(bases(group), group, r.log), plan, refuses)
            && r.accepted == s.accepted + Taken(Addresses(plan.adds), refuses)
            && r.unmirrorable == s.unmirrorable + Refused(Addresses(plan.adds), refuses)
            && AddressesOf(r.refusals) == AddressesOf(s.refusals) + Refused(Addresses(plan.adds), refuses)
            && r.lapsed == s.lapsed - ToSet(plan.retried) && r.retrySlots == s.retrySlots - |plan.retried|
            && |r.outcomes| == |s.outcomes| + 1 && LastOutcome(r).failed == 0
  {
    hide PlanOf, Recheck, RecheckedPlan, ListAfter, Answering, ApplyPlan, SweptGroup, OfferAdds, SweptTo, Decided,
        Taken, Refused, Keys;
    var w, base := World(Answering(bases, refuses), current), bases(group);
    var actual := ListAfter(base, group, s.log);
    var plan := ListedPlan(w, group, desired, actual, allow, s);
    var s2 := SpendRetries(s.(log := s.log + [Listed(group, Some(actual))]), plan);
    ListNext(base, group, s.log, Listed(group, Some(actual)));
    ListsAnswer(bases, refuses, group, s.log);
    SweptGroupApplies(w, group, desired, actual, allow, s);
    PlanStands(w, group, desired, actual, allow, s);
    DecidedStart(base, group, refuses, actual, s2);
    assert [] + Addresses(plan.adds) == Addresses(plan.adds);
    AddsDecide(bases, refuses, group, actual, [], plan.adds, s2, StartAdds(s2));
    ApplyDecides(bases, refuses, group, actual, plan, s2);
  }

  lemma ListsAnswer(bases: Email -> seq<Entry>, refuses: Verdicts, group: Email, log: Log)
    ensures Answering(bases, refuses).list(log, group) == Some(ListAfter(bases(group), group, log))
  {
  }

  /** With unchanged records the plan stands, its offers distinct, missing and normal. */
  lemma PlanStands(w: World, group: Email, desired: map<string, Uuid>, actual: seq<Entry>, allow: bool, s: RunState)
    requires Normal(desired) && forall log :: w.current(log, group) == desired
    ensures var plan := ListedPlan(w, group, desired, actual, allow, s);
            && plan.groupEmail == group && NoDup(Addresses(plan.adds))
            && (forall x :: x in Addresses(plan.adds) ==> Norm(x) == x && x !in Keys(actual))
            && forall s' :: RecheckedPlan(w, plan, s') == plan
  {
    hide Keys;
    var input := InputsFor(desired, actual, allow, s);
    var plan := ListedPlan(w, group, desired, actual, allow, s);
    assert plan.groupEmail == group;
    PlanPartitionsDesired(group, input);
    RecheckUnchanged(group, input);
    hide PlanOf, Recheck;
    PlannedNormal(input, plan);
  }

  lemma PlannedNormal(input: Inputs, plan: GroupPlan)
    requires AddsRight(input, plan) && Normal(input.desired)
    ensures forall x :: x in Addresses(plan.adds) ==> Norm(x) == x && x in input.desired
  {
    forall x | x in Addresses(plan.adds) ensures Norm(x) == x && x in input.desired {
      AddressesIn(plan.adds, x);
      var p :| p in plan.adds && p.address == x;
      assert p in plan.adds + plan.excluded;
    }
  }

  lemma DecidedStart(base: seq<Entry>, group: Email, refuses: Verdicts, actual: seq<Entry>, s: RunState)
    requires ListAfter(base, group, s.log) == actual
    ensures Decided(base, group, refuses, actual, [], s, StartAdds(s))
  {
    assert Taken([], refuses) == {} && Refused([], refuses) == {};
  }

  /** The log when the removes begin. */
  function BeforeRemoves(group: Email, a: AddState): Log {
    if FoundNotFound(a.found) then a.log + [Probed(group, Present)] else a.log
  }

  lemma ApplyIsFinish(bases: Email -> seq<Entry>, refuses: Verdicts, plan: GroupPlan, s: RunState)
    requires !OfferAdds(Answering(bases, refuses), plan.groupEmail, plan.adds, StartAdds(s)).gone
    ensures var g := Answering(bases, refuses);
            var a := OfferAdds(g, plan.groupEmail, plan.adds, StartAdds(s));
            ApplyPlan(g, plan, s) == FinishGroup(g, plan, s, a, BeforeRemoves(plan.groupEmail, a))
  {
    var g := Answering(bases, refuses);
    var a := OfferAdds(g, plan.groupEmail, plan.adds, StartAdds(s));
    assert g.presence(a.log, plan.groupEmail) == Present;
    hide OfferAdds, FinishGroup, Answering;
  }

  lemma FinishEntries(bases: Email -> seq<Entry>, refuses: Verdicts, group: Email, plan: GroupPlan, s: RunState,
      a: AddState)
    requires plan.groupEmail == group
    ensures var base, r := bases(group), FinishGroup(Answering(bases, refuses), plan, s, a, BeforeRemoves(group, a)).s;
            && (forall e :: e in ListAfter(base, group, r.log) <==>
                   e in ListAfter(base, group, a.log) && Norm(e.email) !in NormAll(plan.removes))
            && |r.outcomes| == |s.outcomes| + 1 && (a.tally[Failed] == 0 ==> LastOutcome(r).failed == 0)
  {
    var g, base, log := Answering(bases, refuses), bases(group), BeforeRemoves(group, a);
    ProbesListNothing(base, group, a.log);
    var removed := RemoveEach(g, group, plan.removes, RemoveState(log, a.tally, 0));
    RemovesEmpty(bases, refuses, group, plan.removes, RemoveState(log, a.tally, 0));
    assert g.presence(removed.log, group) == Present;
    ProbesListNothing(base, group, removed.log);
    hide ListAfter, RemoveEach, Answering, NormAll;
  }

  lemma ApplyDecides(bases: Email -> seq<Entry>, refuses: Verdicts, group: Email, actual: seq<Entry>,
      plan: GroupPlan, s: RunState)
    requires plan.groupEmail == group
    requires Decided(bases(group), group, refuses, actual, Addresses(plan.adds), s,
        OfferAdds(Answering(bases, refuses), group, plan.adds, StartAdds(s)))
    ensures var r := ApplyPlan(Answering(bases, refuses), plan, s).s;
            && SweptTo(actual, ListAfter(bases(group), group, r.log), plan, refuses)
            && r.accepted == s.accepted + Taken(Addresses(plan.adds), refuses)
            && r.unmirrorable == s.unmirrorable + Refused(Addresses(plan.adds), refuses)
            && AddressesOf(r.refusals) == AddressesOf(s.refusals) + Refused(Addresses(plan.adds), refuses)
            && r.lapsed == s.lapsed && r.retrySlots == s.retrySlots
            && |r.outcomes| == |s.outcomes| + 1 && LastOutcome(r).failed == 0
  {
    var g := Answering(bases, refuses);
    var a := OfferAdds(g, group, plan.adds, StartAdds(s));
    ApplyIsFinish(bases, refuses, plan, s);
    FinishEntries(bases, refuses, group, plan, s, a);
    RefusalsNext(s.refusals, a.found);
    hide OfferAdds, ApplyPlan, ListAfter, RemoveEach, Answering, NormAll;
  }

  lemma ProbesListNothing(base: seq<Entry>, group: Email, log: Log)
    ensures ListAfter(base, group, log + [Probed(group, Present)]) == ListAfter(base, group, log)
  {
    ListNext(base, group, log, Probed(group, Present));
  }

  lemma RefusalsNext(before: seq<Refusal>, found: seq<Refusal>)
    ensures AddressesOf(before + found) == AddressesOf(before) + AddressesOf(found)
  {
  }

  // ------------------------------------------------------------ the main result

  function PlainKeys(actual: seq<Entry>): set<string> {
    set e | e in actual && e.Plain() :: Norm(e.email)
  }

  /** The addresses no sweep may remove: those with no plain entry. */
  function ProtectedKeys(actual: seq<Entry>): set<string> {
    Keys(actual) - PlainKeys(actual)
  }

  /** Converged: the addresses in the group are the protected entries' and the desired
      ones, less those missing ones this run withheld or Google refused. */
  ghost predicate Converged(desired: map<string, Uuid>, actual: seq<Entry>, entries: seq<Entry>, plan: GroupPlan,
      refuses: Verdicts) {
    forall k :: k in Keys(entries) <==>
      || k in ProtectedKeys(actual)
      || (k in desired && (k in Keys(actual) || (k !in Addresses(plan.excluded) && k !in refuses)))
  }

  lemma SweptConverged(input: Inputs, group: Email, entries: seq<Entry>, refuses: Verdicts)
    requires Normal(input.desired) && !PlanOf(group, input).FuseTripped()
    requires SweptTo(input.actual, entries, PlanOf(group, input), refuses)
    ensures Converged(input.desired, input.actual, entries, PlanOf(group, input), refuses)
    ensures forall e :: e in entries ==> !Removable(e, input.desired)
  {
    var plan, actual, desired := PlanOf(group, input), input.actual, input.desired;
    PlanPartitionsDesired(group, input);
    PlanRemovesSafely(group, input);
    PlannedNormal(input, plan);
    hide PlanOf;
    assert NormAll(plan.removes) == PlainKeys(actual) - desired.Keys by { RemovedKeys(actual, desired, plan); }
    forall e | e in entries ensures !Removable(e, desired) {
      if e in actual {
        assert e.Plain() ==> Norm(e.email) in PlainKeys(actual);
      } else {
        assert AddedEntry(e, Addresses(plan.adds), refuses);
      }
    }
    forall k ensures k in Keys(entries) <==>
        || k in ProtectedKeys(actual)
        || (k in desired && (k in Keys(actual) || (k !in Addresses(plan.excluded) && k !in refuses)))
    {
      ConvergedKey(input, plan, entries, refuses, k);
    }
  }

  /** With the fuse quiet a plan removes every undesired address that has a plain entry. */
  lemma RemovedKeys(actual: seq<Entry>, desired: map<string, Uuid>, plan: GroupPlan)
    requires forall r :: r in plan.removes ==>
        Norm(r) !in desired && exists e :: e in actual && e.email == r && e.Plain()
    requires forall e :: e in actual && Removable(e, desired) ==> e.email in plan.removes
    ensures NormAll(plan.removes) == PlainKeys(actual) - desired.Keys
  {
    forall k | k in NormAll(plan.removes) ensures k in PlainKeys(actual) && k !in desired {
      var r :| r in plan.removes && Norm(r) == k;
      var e :| e in actual && e.email == r && e.Plain();
    }
    forall k | k in PlainKeys(actual) && k !in desired ensures k in NormAll(plan.removes) {
      var e :| e in actual && e.Plain() && Norm(e.email) == k;
      assert e.email in plan.removes;
    }
  }

  lemma ConvergedKey(input: Inputs, plan: GroupPlan, entries: seq<Entry>, refuses: Verdicts, k: string)
    requires Normal(input.desired) && AddsRight(input, plan) && SweptTo(input.actual, entries, plan, refuses)
    requires forall x :: x in Addresses(plan.adds) ==> Norm(x) == x && x in input.desired
    requires NormAll(plan.removes) == PlainKeys(input.actual) - input.desired.Keys
    ensures k in Keys(entries) <==>
              || k in ProtectedKeys(input.actual)
              || (k in input.desired && (k in Keys(input.actual) || (k !in Addresses(plan.excluded) && k !in refuses)))
  {
    hide NormAll;
    if k in Keys(entries) {
      var e :| e in entries && Norm(e.email) == k;
      if e in input.actual {
        assert k in Keys(input.actual);
      } else {
        assert AddedEntry(e, Addresses(plan.adds), refuses);
      }
    }
    if k in ProtectedKeys(input.actual) || (k in input.desired && k in Keys(input.actual)) {
      var e :| e in input.actual && Norm(e.email) == k;
      assert e in entries;
    } else if k in input.desired && k !in Addresses(plan.excluded) && k !in refuses {
      assert k in Addresses(plan.adds);
      var e := NewEntry(k);
      assert Norm(k) == k && AddedEntry(e, Addresses(plan.adds), refuses);
      assert e in entries;
    }
  }

  /** Replanned with what the run learned and no retries left, nothing is to do. */
  lemma ReplanIsIdle(input: Inputs, group: Email, entries: seq<Entry>, refuses: Verdicts, later: Inputs)
    requires Normal(input.desired) && !PlanOf(group, input).FuseTripped()
    requires SweptTo(input.actual, entries, PlanOf(group, input), refuses)
    requires later == Inputs(input.desired, entries,
        input.unmirrorable + Refused(Addresses(PlanOf(group, input).adds), refuses),
        input.lapsed - ToSet(PlanOf(group, input).retried), 0, input.allowMassRemoval)
    ensures var again := PlanOf(group, later); again.adds == [] && again.removes == [] && !again.FuseTripped()
  {
    var plan, again := PlanOf(group, input), PlanOf(group, later);
    SweptConverged(input, group, entries, refuses);
    PlanPartitionsDesired(group, input);
    PlanPartitionsDesired(group, later);
    NothingRemovable(entries, input.desired);
    assert again.removes == [] && !again.FuseTripped();
    hide PlanOf, SweptTo, AddsRight, Converged;
    ReplanAddsNothing(input, plan, entries, refuses, later, again);
  }

  lemma NothingRemovable(entries: seq<Entry>, desired: map<string, Uuid>)
    requires forall e :: e in entries ==> !Removable(e, desired)
    ensures Removals(entries, desired) == []
  {
  }

  lemma ReplanAddsNothing(input: Inputs, plan: GroupPlan, entries: seq<Entry>, refuses: Verdicts, later: Inputs,
      again: GroupPlan)
    requires AddsRight(input, plan) && AddsRight(later, again) && Normal(input.desired)
    requires Converged(input.desired, input.actual, entries, plan, refuses)
    requires later.desired == input.desired && later.actual == entries && later.retrySlots == 0
    requires later.unmirrorable == input.unmirrorable + Refused(Addresses(plan.adds), refuses)
    requires later.lapsed == input.lapsed - ToSet(plan.retried)
    ensures again.adds == []
  {
    hide Keys;
    forall x | x in input.desired && x !in Keys(entries)
      ensures x in later.unmirrorable || x in later.lapsed
    {
      if x in Addresses(plan.excluded) {
        assert x in input.unmirrorable || (x in input.lapsed && x !in plan.retried);
      } else {
        assert x in Addresses(plan.adds) && x in refuses;
      }
    }
    assert again.retried == [];
    PlannedNormal(later, again);
    assert forall a :: a in Addresses(again.adds) ==> a in input.desired && a !in Keys(entries);
    NoDupBound(Addresses(again.adds), {});
  }

  /** Convergence: at a Google that answers definitively, with the records unchanged
      and the removal fuse quiet, one sweep of a group leaves exactly the protected
      entries and the desired addresses not withheld or refused, fails nothing, and
      leaves the next plan with no adds and no removes. */
  lemma OneSweepConverges(bases: Email -> seq<Entry>, refuses: Verdicts, group: Email, desired: map<string, Uuid>,
                          current: (Log, Email) -> map<string, Uuid>, allow: bool, s: RunState)
    requires AllVerdicts(refuses) && Normal(desired)
    requires forall log :: current(log, group) == desired
    requires !ListedPlan(World(Answering(bases, refuses), current), group, desired,
        ListAfter(bases(group), group, s.log), allow, s).FuseTripped()
    ensures var w := World(Answering(bases, refuses), current);
            var actual := ListAfter(bases(group), group, s.log);
            var plan := ListedPlan(w, group, desired, actual, allow, s);
            var r := SweptGroup(w, group, desired, allow, s);
            var entries := ListAfter(bases(group), group, r.log);
            && Converged(desired, actual, entries, plan, refuses)
            && |r.outcomes| == |s.outcomes| + 1 && LastOutcome(r).failed == 0
            && var again := PlanOf(group, InputsFor(desired, entries, allow, r.(retrySlots := 0)));
               again.adds == [] && again.removes == [] && !again.FuseTripped()
  {
    var w := World(Answering(bases, refuses), current);
    var actual := ListAfter(bases(group), group, s.log);
    var r := SweptGroup(w, group, desired, allow, s);
    var entries := ListAfter(bases(group), group, r.log);
    var input := InputsFor(desired, actual, allow, s);
    SweepDecides(bases, refuses, group, desired, current, allow, s);
    hide SweptGroup, ListAfter, Answering, SweptTo, PlanOf;
    SweptConverged(input, group, entries, refuses);
    ReplanIsIdle(input, group, entries, refuses, InputsFor(desired, entries, allow, r.(retrySlots := 0)));
  }
}
