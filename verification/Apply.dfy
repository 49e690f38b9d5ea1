/** Applying one group's plan to Google. Google is an oracle that may answer any
    call in any way, knowing everything asked so far; the log keeps every call with
    its answer. */
module Apply {
  import opened Basics
  import opened GroupSync
  import opened EmailStatus
  import opened Plan

  datatype Presence = Present | Gone | Unknown

  datatype Event =
    | Listed(group: Email, entries: Option<seq<Entry>>)
    | Offered(group: Email, address: Email, outcome: SyncOutcome)
    | Removed(group: Email, address: Email, outcome: SyncOutcome)
    | Probed(group: Email, presence: Presence)

  type Log = seq<Event>

  /** Every answer Google could give, as a function of the calls before it. `list`
      is `None` for an HTTP error; `presence` reads one `exists` call. */
  datatype Google = Google(
    list: (Log, Email) -> Option<seq<Entry>>,
    add: (Log, Email, Email) -> SyncOutcome,
    remove: (Log, Email, Email) -> SyncOutcome,
    presence: (Log, Email) -> Presence)

  datatype GroupOutcome = GroupOutcome(
    groupEmail: Email, plannedAdds: nat, plannedRemoves: nat, applied: nat,
    alreadyConverged: nat, skipped: nat, excluded: nat, unmirrorable: nat,
    refused: nat, failed: int)
  {
    /** The planned changes that came to a conclusion. */
    function Settled(): nat {
      applied + alreadyConverged + skipped + unmirrorable
    }

    predicate Red() {
      failed > 0 || refused > 0
    }
  }

  /** What a run threads through its groups. */
  datatype RunState = RunState(
    log: Log, unmirrorable: set<string>, lapsed: set<string>, retrySlots: int,
    refusals: seq<Refusal>, accepted: set<Email>, outcomes: seq<GroupOutcome>)

  /** How one group's apply ended. */
  datatype Exit = Finished | GoneMidAdds | GoneAfterAdds | Vanished {
    predicate Abandoned() { GoneMidAdds? || GoneAfterAdds? }
  }

  datatype AppliedGroup = AppliedGroup(s: RunState, exit: Exit)

  type Tally = multiset<SyncOutcome>

  // ------------------------------------------------------------------- adding

  datatype AddState = AddState(
    log: Log, tally: Tally, presence: Option<Presence>, found: seq<Refusal>,
    accepted: set<Email>, unmirrorable: set<string>, gone: bool)

  function Settle(group: Email, add: PlannedAdd, outcome: SyncOutcome, a: AddState): AddState {
    var tallied := a.(tally := a.tally + multiset{outcome},
                      accepted := if outcome.Accepted() then a.accepted + {add.address} else a.accepted);
    if outcome.Unmirrorable() then
      tallied.(found := a.found + [Refusal(add.address, add.memberId, group, outcome)],
               unmirrorable := a.unmirrorable + {Norm(add.address)})
    else tallied
  }

  /** One add. A 404 is read in the light of whether the group is still there: gone
      stops the group, unknown makes the answer a failure. */
  function OfferOne(g: Google, group: Email, add: PlannedAdd, a: AddState): AddState {
    var outcome := g.add(a.log, group, add.address);
    var offered := a.(log := a.log + [Offered(group, add.address, outcome)]);
    if !outcome.AddressNotFound? then Settle(group, add, outcome, offered)
    else
      var probed :=
        if a.presence.Some? then offered
        else
          var p := g.presence(offered.log, group);
          offered.(presence := Some(p), log := offered.log + [Probed(group, p)]);
      match probed.presence.value
      case Gone => probed.(gone := true)
      case Unknown => probed.(tally := probed.tally + multiset{Failed})
      case Present => Settle(group, add, outcome, probed)
  }

  function OfferAdds(g: Google, group: Email, adds: seq<PlannedAdd>, a: AddState): AddState
    decreases |adds|
  {
    if adds == [] || a.gone then a else OfferAdds(g, group, adds[1..], OfferOne(g, group, adds[0], a))
  }

  // ----------------------------------------------------------------- removing

  datatype RemoveState = RemoveState(log: Log, tally: Tally, converged: nat)

  function RemoveOne(g: Google, group: Email, address: Email, r: RemoveState): RemoveState {
    var outcome := g.remove(r.log, group, address);
    RemoveState(r.log + [Removed(group, address, outcome)], r.tally + multiset{outcome},
                if outcome.AlreadyConverged? then r.converged + 1 else r.converged)
  }

  function RemoveEach(g: Google, group: Email, addresses: seq<Email>, r: RemoveState): RemoveState
    decreases |addresses|
  {
    if addresses == [] then r else RemoveEach(g, group, addresses[1..], RemoveOne(g, group, addresses[0], r))
  }

  // ----------------------------------------------------------------- outcomes

  function SkippedIn(t: Tally): nat {
    t[SkippedUnlinked] + t[SkippedExampleEmail] + t[SkippedDryRun]
  }

  function UnmirrorableIn(t: Tally): nat {
    t[NoGoogleAccount] + t[AddressNotFound]
  }

  function FinishedOutcome(plan: GroupPlan, t: Tally): GroupOutcome {
    GroupOutcome(plan.groupEmail, |plan.adds|, |plan.removes|, t[Applied], t[AlreadyConverged], SkippedIn(t),
                 |plan.excluded|, UnmirrorableIn(t), plan.refusedRemoves, t[Failed])
  }

  /** `_abandoned`: whatever the plan still wanted counts as failed. */
  function AbandonedOutcome(plan: GroupPlan, t: Tally): GroupOutcome {
    var settled := t[Applied] + t[AlreadyConverged] + SkippedIn(t) + UnmirrorableIn(t);
    GroupOutcome(plan.groupEmail, |plan.adds|, |plan.removes|, t[Applied], t[AlreadyConverged], SkippedIn(t),
                 |plan.excluded|, UnmirrorableIn(t), plan.refusedRemoves, |plan.adds| - settled + |plan.removes|)
  }

  function VanishedOutcome(plan: GroupPlan, t: Tally): GroupOutcome {
    GroupOutcome(plan.groupEmail, |plan.adds|, |plan.removes|, 0, 0, SkippedIn(t),
                 |plan.excluded|, 0, plan.refusedRemoves, |plan.removes|)
  }

  function StartAdds(s: RunState): AddState {
    AddState(s.log, multiset{}, None, [], s.accepted, s.unmirrorable, false)
  }

  predicate FoundNotFound(found: seq<Refusal>) {
    exists r :: r in found && r.outcome.AddressNotFound?
  }

  function Abandon(plan: GroupPlan, s: RunState, a: AddState, log: Log, exit: Exit): AppliedGroup {
    AppliedGroup(s.(log := log, unmirrorable := a.unmirrorable, accepted := a.accepted,
                    outcomes := s.outcomes + [AbandonedOutcome(plan, a.tally)]), exit)
  }

  /** The removes, once the adds are believed. */
  function FinishGroup(g: Google, plan: GroupPlan, s: RunState, a: AddState, log: Log): AppliedGroup {
    var r := RemoveEach(g, plan.groupEmail, plan.removes, RemoveState(log, a.tally, 0));
    var s1 := s.(unmirrorable := a.unmirrorable, accepted := a.accepted, refusals := s.refusals + a.found);
    if |plan.removes| > 0 && r.converged == |plan.removes| && r.tally[Applied] == 0 then
      var p := g.presence(r.log, plan.groupEmail);
      var probed := r.log + [Probed(plan.groupEmail, p)];
      if p.Gone? then
        AppliedGroup(s1.(log := probed, outcomes := s.outcomes + [VanishedOutcome(plan, r.tally)]), Vanished)
      else AppliedGroup(s1.(log := probed, outcomes := s.outcomes + [FinishedOutcome(plan, r.tally)]), Finished)
    else AppliedGroup(s1.(log := r.log, outcomes := s.outcomes + [FinishedOutcome(plan, r.tally)]), Finished)
  }

  /** `_apply`: adds, a last look at the group if any 404 was believed, then removes. */
  function ApplyPlan(g: Google, plan: GroupPlan, s: RunState): AppliedGroup {
    var a := OfferAdds(g, plan.groupEmail, plan.adds, StartAdds(s));
    if a.gone then Abandon(plan, s, a, a.log, GoneMidAdds)
    else if FoundNotFound(a.found) then
      var p := g.presence(a.log, plan.groupEmail);
      var probed := a.log + [Probed(plan.groupEmail, p)];
      if p.Present? then FinishGroup(g, plan, s, a, probed) else Abandon(plan, s, a, probed, GoneAfterAdds)
    else FinishGroup(g, plan, s, a, a.log)
  }

  // ---------------------------------------------------------- the adds phase

  lemma DropSize(t: Tally, o: SyncOutcome)
    ensures |t| == t[o] + |t[o := 0]|
  {
    assert t == t[o := 0] + multiset{}[o := t[o]];
    assert |t[o := 0]| == |t| - t[o];
  }

  /** Every outcome is one of the eight. */
  lemma TallySize(t: Tally)
    ensures |t| == t[Applied] + t[AlreadyConverged] + SkippedIn(t) + UnmirrorableIn(t) + t[Failed]
  {
    var t1 := t[Applied := 0];
    var t2 := t1[AlreadyConverged := 0];
    var t3 := t2[Failed := 0];
    var t4 := t3[SkippedUnlinked := 0];
    var t5 := t4[SkippedExampleEmail := 0];
    var t6 := t5[SkippedDryRun := 0];
    var t7 := t6[NoGoogleAccount := 0];
    var t8 := t7[AddressNotFound := 0];
    DropSize(t, Applied);
    DropSize(t1, AlreadyConverged);
    DropSize(t2, Failed);
    DropSize(t3, SkippedUnlinked);
    DropSize(t4, SkippedExampleEmail);
    DropSize(t5, SkippedDryRun);
    DropSize(t6, NoGoogleAccount);
    DropSize(t7, AddressNotFound);
    forall x: SyncOutcome ensures t8[x] == 0 {
      assert x.Accepted() || x.Skipped() || x.Unmirrorable() || x.Failed?;
    }
    assert t8 == multiset{};
  }

  /** The new part of a log: probes of this group, and offers of its adds not in
      `rest`, each at most once. */
  ghost predicate AddEvents(group: Email, adds: seq<PlannedAdd>, rest: seq<PlannedAdd>, start: Log, log: Log) {
    && start <= log
    && (forall i :: |start| <= i < |log| ==>
          && log[i].group == group && (log[i].Probed? || log[i].Offered?)
          && (log[i].Offered? ==> log[i].address in Addresses(adds) && log[i].address !in Addresses(rest)))
    && (forall i, j ::
           |start| <= i < j < |log| && log[i].Offered? && log[j].Offered? ==> log[i].address != log[j].address)
  }

  /** One refusal met while adding: a verdict on an offered address, now unmirrorable. */
  ghost predicate Met(group: Email, adds: seq<PlannedAdd>, start: Log, a: AddState, r: Refusal) {
    && r.groupEmail == group && r.outcome.Unmirrorable() && Norm(r.address) in a.unmirrorable
    && r.address in Addresses(adds)
    && exists i :: |start| <= i < |a.log| && a.log[i] == Offered(group, r.address, r.outcome)
  }

  ghost predicate Verdicts(group: Email, adds: seq<PlannedAdd>, rest: seq<PlannedAdd>, s: RunState, a: AddState) {
    && (forall k ::
           0 <= k < |a.found| ==> Met(group, adds, s.log, a, a.found[k]) && a.found[k].address !in Addresses(rest))
    && (forall j, k :: 0 <= j < k < |a.found| ==> a.found[j].address != a.found[k].address)
    && UnmirrorableIn(a.tally) == |a.found|
    && s.unmirrorable <= a.unmirrorable
    && (forall u :: u in a.unmirrorable && u !in s.unmirrorable ==> exists p :: p in adds && Norm(p.address) == u)
    && s.accepted <= a.accepted
    && (forall x :: x in a.accepted && x !in s.accepted ==> x in Addresses(adds))
  }

  /** The state of the adds loop with `rest` still to offer. */
  ghost predicate Adding(group: Email, adds: seq<PlannedAdd>, rest: seq<PlannedAdd>, s: RunState, a: AddState) {
    && AddEvents(group, adds, rest, s.log, a.log)
    && Verdicts(group, adds, rest, s, a)
    && (if a.gone then |a.tally| < |adds| else |a.tally| + |rest| == |adds|)
  }

  lemma SettleVerdicts(group: Email, adds: seq<PlannedAdd>, rest: seq<PlannedAdd>, s: RunState, a: AddState,
      b: AddState, outcome: SyncOutcome)
    requires rest != [] && rest[0] in adds && NoDup(Addresses(rest)) && Verdicts(group, adds, rest, s, a)
    requires b == a.(log := b.log, presence := b.presence) && a.log <= b.log
    requires exists i :: |s.log| <= i < |b.log| && b.log[i] == Offered(group, rest[0].address, outcome)
    ensures Verdicts(group, adds, rest[1..], s, Settle(group, rest[0], outcome, b))
  {
    var r := Settle(group, rest[0], outcome, b);
    AddressesIn(adds, rest[0].address);
    assert Addresses(rest)[0] == rest[0].address;
    assert Addresses(rest)[1..] == Addresses(rest[1..]);
    assert rest[0].address !in Addresses(rest[1..]);
    forall k | 0 <= k < |r.found|
      ensures Met(group, adds, s.log, r, r.found[k]) && r.found[k].address !in Addresses(rest[1..])
    {
      if k < |a.found| {
        assert Met(group, adds, s.log, a, a.found[k]);
        var i :| |s.log| <= i < |a.log| && a.log[i] == Offered(group, a.found[k].address, a.found[k].outcome);
        assert r.log[i] == a.log[i];
      }
    }
  }

  lemma VerdictsKept(group: Email, adds: seq<PlannedAdd>, rest: seq<PlannedAdd>, s: RunState, a: AddState, b: AddState)
    requires rest != [] && Verdicts(group, adds, rest, s, a)
    requires b == a.(log := b.log, presence := b.presence, tally := b.tally, gone := b.gone) && a.log <= b.log
    requires UnmirrorableIn(b.tally) == UnmirrorableIn(a.tally)
    ensures Verdicts(group, adds, rest[1..], s, b)
  {
    assert Addresses(rest)[1..] == Addresses(rest[1..]);
    forall k | 0 <= k < |b.found|
      ensures Met(group, adds, s.log, b, b.found[k]) && b.found[k].address !in Addresses(rest[1..])
    {
      assert Met(group, adds, s.log, a, a.found[k]);
      var i :| |s.log| <= i < |a.log| && a.log[i] == Offered(group, a.found[k].address, a.found[k].outcome);
      assert b.log[i] == a.log[i];
    }
  }

  /** What one offer does besides recording a verdict. */
  lemma OfferOneShape(g: Google, group: Email, add: PlannedAdd, a: AddState)
    requires !a.gone
    ensures var b, outcome := OfferOne(g, group, add, a), g.add(a.log, group, add.address);
            && a.log <= b.log && |a.log| < |b.log| && b.log[|a.log|] == Offered(group, add.address, outcome)
            && (forall i :: |a.log| < i < |b.log| ==> b.log[i].Probed? && b.log[i].group == group)
            && |b.tally| + (if b.gone then 1 else 0) == |a.tally| + 1
            && (   (b == a.(log := b.log, presence := b.presence, tally := b.tally, gone := b.gone)
                    && UnmirrorableIn(b.tally) == UnmirrorableIn(a.tally))
                || (!b.gone && b == Settle(group, add, outcome, a.(log := b.log, presence := b.presence))))
  {
  }

  lemma OfferedOnce(group: Email, adds: seq<PlannedAdd>, rest: seq<PlannedAdd>, start: Log, log: Log, next: Log)
    requires rest != [] && rest[0].address in Addresses(adds) && NoDup(Addresses(rest))
        && AddEvents(group, adds, rest, start, log)
    requires log <= next && |log| < |next| && next[|log|].Offered? && next[|log|].group == group
        && next[|log|].address == rest[0].address
    requires forall i :: |log| < i < |next| ==> next[i].Probed? && next[i].group == group
    ensures AddEvents(group, adds, rest[1..], start, next)
  {
    assert Addresses(rest)[0] == rest[0].address && Addresses(rest)[1..] == Addresses(rest[1..]);
    assert forall i :: |start| <= i < |log| ==> next[i] == log[i];
  }

  lemma OfferOneAdding(g: Google, group: Email, adds: seq<PlannedAdd>, rest: seq<PlannedAdd>, s: RunState, a: AddState)
    requires rest != [] && rest[0] in adds && NoDup(Addresses(rest)) && !a.gone
    requires Adding(group, adds, rest, s, a)
    ensures Adding(group, adds, rest[1..], s, OfferOne(g, group, rest[0], a))
  {
    var outcome, b := g.add(a.log, group, rest[0].address), OfferOne(g, group, rest[0], a);
    OfferOneShape(g, group, rest[0], a);
    AddressesIn(adds, rest[0].address);
    hide OfferOne, Verdicts;
    OfferedOnce(group, adds, rest, s.log, a.log, b.log);
    if b == a.(log := b.log, presence := b.presence, tally := b.tally, gone := b.gone)
        && UnmirrorableIn(b.tally) == UnmirrorableIn(a.tally) {
      VerdictsKept(group, adds, rest, s, a, b);
    } else {
      SettleVerdicts(group, adds, rest, s, a, a.(log := b.log, presence := b.presence), outcome);
    }
  }

  lemma {:induction false} OfferAddsAdding(g: Google, group: Email, adds: seq<PlannedAdd>, rest: seq<PlannedAdd>,
      s: RunState, a: AddState)
    requires NoDup(Addresses(rest)) && (forall p :: p in rest ==> p in adds) && Adding(group, adds, rest, s, a)
    ensures var b := OfferAdds(g, group, rest, a);
            && AddEvents(group, adds, [], s.log, b.log) && Verdicts(group, adds, [], s, b)
            && (if b.gone then |b.tally| < |adds| else |b.tally| == |adds|)
    decreases |rest|
  {
    if rest != [] && !a.gone {
      OfferOneAdding(g, group, adds, rest, s, a);
      assert Addresses(rest)[1..] == Addresses(rest[1..]);
      hide Adding, Verdicts, OfferOne;
      OfferAddsAdding(g, group, adds, rest[1..], s, OfferOne(g, group, rest[0], a));
    } else {
      assert Addresses([]) == [];
    }
  }

  /** What the adds phase of any plan keeps, whatever Google answers. */
  lemma AddsPhase(g: Google, plan: GroupPlan, s: RunState)
    requires NoDup(Addresses(plan.adds))
    ensures var b := OfferAdds(g, plan.groupEmail, plan.adds, StartAdds(s));
            && AddEvents(plan.groupEmail, plan.adds, [], s.log, b.log) && Verdicts(plan.groupEmail, plan.adds, [], s, b)
            && (if b.gone then |b.tally| < |plan.adds| else |b.tally| == |plan.adds|)
  {
    OfferAddsAdding(g, plan.groupEmail, plan.adds, plan.adds, s, StartAdds(s));
  }

  // ------------------------------------------------------- the removes phase

  ghost predicate RemoveEvents(group: Email, addresses: seq<Email>, start: Log, log: Log) {
    && |log| == |start| + |addresses| && start <= log
    && forall i :: |start| <= i < |log| ==>
         log[i].Removed? && log[i].group == group && log[i].address == addresses[i - |start|]
  }

  lemma {:induction false} RemovesPhase(g: Google, group: Email, addresses: seq<Email>, r: RemoveState)
    ensures var b := RemoveEach(g, group, addresses, r);
            && RemoveEvents(group, addresses, r.log, b.log)
            && |b.tally| == |r.tally| + |addresses| && r.tally <= b.tally
    decreases |addresses|
  {
    if addresses != [] {
      var next := RemoveOne(g, group, addresses[0], r);
      RemovesPhase(g, group, addresses[1..], next);
      var b := RemoveEach(g, group, addresses, r);
      assert b.log[|r.log|] == next.log[|r.log|];
      assert forall i ::
          |next.log| <= i < |b.log| ==>
          b.log[i].address == addresses[1..][i - |next.log|] == addresses[i - |r.log|];
    }
  }

  // -------------------------------------------------------------- accounting

  function LastOutcome(s: RunState): GroupOutcome
    requires s.outcomes != []
  {
    s.outcomes[|s.outcomes| - 1]
  }

  /** Every exit accounts for the whole plan: what settled and what failed add up to
      what was planned. The one exception is a group found gone after its removes,
      which reports all of them failed instead - and there is at least one. */
  lemma EveryExitAccounts(g: Google, plan: GroupPlan, s: RunState)
    requires NoDup(Addresses(plan.adds))
    ensures var r := ApplyPlan(g, plan, s);
            && |r.s.outcomes| == |s.outcomes| + 1 && s.outcomes <= r.s.outcomes
            && var o := LastOutcome(r.s);
               && o.plannedAdds == |plan.adds| && o.plannedRemoves == |plan.removes|
               && o.refused == plan.refusedRemoves && o.failed >= 0
               && (if r.exit.Vanished? then o.failed == |plan.removes| > 0
                   else o.Settled() + o.failed == |plan.adds| + |plan.removes|)
  {
    hide OfferAdds, Verdicts, AddEvents, RemoveEach, FoundNotFound;
    AddsPhase(g, plan, s);
    var a := OfferAdds(g, plan.groupEmail, plan.adds, StartAdds(s));
    TallySize(a.tally);
    var log := if FoundNotFound(a.found) then a.log + [Probed(plan.groupEmail, g.presence(a.log, plan.groupEmail))]
        else a.log;
    RemovesPhase(g, plan.groupEmail, plan.removes, RemoveState(log, a.tally, 0));
    TallySize(RemoveEach(g, plan.groupEmail, plan.removes, RemoveState(log, a.tally, 0)).tally);
  }

  /** A group that is gone mid-adds is always red: the add that raised the question
      and every planned remove are failures. One abandoned after its adds reports its
      failed adds and its removes, so it is red exactly when it had either. */
  lemma AbandonmentCounts(g: Google, plan: GroupPlan, s: RunState)
    requires NoDup(Addresses(plan.adds))
    ensures var r, a := ApplyPlan(g, plan, s), OfferAdds(g, plan.groupEmail, plan.adds, StartAdds(s));
            r.exit.Abandoned() ==>
              && r.s.outcomes != []
              && (r.exit.GoneMidAdds? ==> LastOutcome(r.s).failed >= 1 + |plan.removes|)
              && (r.exit.GoneAfterAdds? ==> LastOutcome(r.s).failed == a.tally[Failed] + |plan.removes|)
              && (r.exit.GoneAfterAdds? ==>
                    (LastOutcome(r.s).failed > 0 <==> a.tally[Failed] > 0 || plan.removes != []))
  {
    AddsPhase(g, plan, s);
    TallySize(OfferAdds(g, plan.groupEmail, plan.adds, StartAdds(s)).tally);
    hide OfferAdds, Verdicts, AddEvents;
  }

  /** The green abandonment: Google calls the address unknown, vouches for the group
      once, and then no longer has it. Nothing is written, and nothing is red. */
  lemma AbandonedYetGreen()
    ensures var g := Google((l, e) => None, (l, e, x) => AddressNotFound, (l, e, x) => Applied,
                            (l: Log, e) => if |l| == 1 then Present else Gone);
            var plan := GroupPlan("g", [PlannedAdd("a", 0)], [], [], [], 0);
            var r := ApplyPlan(g, plan, RunState([], {}, {}, 0, [], {}, []));
            r.exit.GoneAfterAdds? && r.s.outcomes != [] && !LastOutcome(r.s).Red() && r.s.refusals == []
  {
    var g := Google((l, e) => None, (l, e, x) => AddressNotFound, (l, e, x) => Applied,
                    (l: Log, e) => if |l| == 1 then Present else Gone);
    var plan := GroupPlan("g", [PlannedAdd("a", 0)], [], [], [], 0);
    var s := RunState([], {}, {}, 0, [], {}, []);
    var a1 := OfferOne(g, "g", plan.adds[0], StartAdds(s));
    assert plan.adds[1..] == [];
    assert OfferAdds(g, "g", plan.adds, StartAdds(s)) == OfferAdds(g, "g", [], a1) == a1;
    assert a1.found == [Refusal("a", 0, "g", AddressNotFound)];
    assert a1.found[0] in a1.found;
    assert |a1.log| == 2;
  }

  // ------------------------------------------------------ verdict discipline

  /** At `p` the group was seen present, after every offer and before every remove
      of this group's calls, which start at `from`. */
  ghost predicate CertifiedAt(log: Log, from: nat, p: nat, group: Email) {
    && from <= p < |log| && log[p] == Probed(group, Present)
    && (forall i :: from <= i < p ==> !log[i].Removed?)
    && (forall i :: p < i < |log| ==> !log[i].Offered?)
  }

  /** An answer Google gave to an offer, and for a 404 the group's certificate. */
  ghost predicate Believable(log: Log, from: nat, group: Email, r: Refusal) {
    && (exists i :: from <= i < |log| && log[i] == Offered(group, r.address, r.outcome))
    && (r.outcome.AddressNotFound? ==> exists p: nat :: CertifiedAt(log, from, p, group))
  }

  lemma FinishGroupDiscipline(g: Google, plan: GroupPlan, s: RunState, a: AddState, log: Log)
    ensures var r := FinishGroup(g, plan, s, a, log);
            && log <= r.s.log && !r.exit.Abandoned()
            && (forall i :: |log| <= i < |r.s.log| ==> !r.s.log[i].Offered? && r.s.log[i].group == plan.groupEmail)
            && (forall i :: |log| <= i < |r.s.log| && r.s.log[i].Removed? ==> r.s.log[i].address in plan.removes)
            && r.s.refusals == s.refusals + a.found
  {
    RemovesPhase(g, plan.groupEmail, plan.removes, RemoveState(log, a.tally, 0));
  }

  /** A 404 is believed only when Google showed the group present after its last add
      and before its first remove; an abandoned group writes off no one and removes
      no one; and every refusal carried out is an answer Google gave to an offer. */
  lemma VerdictDiscipline(g: Google, plan: GroupPlan, s: RunState)
    requires NoDup(Addresses(plan.adds))
    ensures var r := ApplyPlan(g, plan, s);
            && s.log <= r.s.log && s.refusals <= r.s.refusals
            && (r.exit.Abandoned() ==>
                  && r.s.refusals == s.refusals
                  && forall i :: |s.log| <= i < |r.s.log| ==> !r.s.log[i].Removed?)
            && (forall k ::
                   |s.refusals| <= k < |r.s.refusals| ==>
                   Believable(r.s.log, |s.log|, plan.groupEmail, r.s.refusals[k]))
  {
    hide OfferAdds, FinishGroup, AddsRight, Believable, AddEvents;
    AddsPhase(g, plan, s);
    var r, a := ApplyPlan(g, plan, s), OfferAdds(g, plan.groupEmail, plan.adds, StartAdds(s));
    var log := if FoundNotFound(a.found) then a.log + [Probed(plan.groupEmail, g.presence(a.log, plan.groupEmail))]
        else a.log;
    FinishGroupDiscipline(g, plan, s, a, log);
    if !r.exit.Abandoned() {
      forall k | |s.refusals| <= k < |r.s.refusals|
        ensures Believable(r.s.log, |s.log|, plan.groupEmail, r.s.refusals[k])
      {
        var f := a.found[k - |s.refusals|];
        assert f == r.s.refusals[k] && f in a.found;
        BelievableLater(plan, s, a, log, r.s.log, f);
      }
    }
  }

  lemma BelievableLater(plan: GroupPlan, s: RunState, a: AddState, log: Log, end: Log, f: Refusal)
    requires AddEvents(plan.groupEmail, plan.adds, [], s.log, a.log) && Met(plan.groupEmail, plan.adds, s.log, a, f)
    requires a.log <= log <= end && forall i :: |log| <= i < |end| ==> !end[i].Offered?
    requires f.outcome.AddressNotFound? ==> log == a.log + [Probed(plan.groupEmail, Present)]
    ensures Believable(end, |s.log|, plan.groupEmail, f)
  {
    var i :| |s.log| <= i < |a.log| && a.log[i] == Offered(plan.groupEmail, f.address, f.outcome);
    assert end[i] == a.log[i];
    if f.outcome.AddressNotFound? {
      assert end[|a.log|] == log[|a.log|];
      assert forall j :: |s.log| <= j < |a.log| ==> end[j] == a.log[j];
      assert CertifiedAt(end, |s.log|, |a.log|, plan.groupEmail);
    }
  }
}
