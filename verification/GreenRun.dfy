/** What a run without failures has written down: every verdict it met, but for those
    of a group it abandoned. */
module GreenRun {
  import opened Basics
  import opened GroupSync
  import opened EmailStatus
  import opened Plan
  import opened Apply
  import opened Sweep
  import opened SweepSteps
  import opened SweepTheorems
  import opened NoReoffer

  /** How the apply of one group ended; `None` when its listing failed. */
  function ExitOf(w: World, group: Email, desired: map<string, Uuid>, allow: bool, s: RunState): Option<Exit> {
    match w.google.list(s.log, group)
    case None => None
    case Some(actual) =>
      var listed := ListedPlan(w, group, desired, actual, allow, s);
      var s2 := SpendRetries(s.(log := s.log + [Listed(group, Some(actual))]), listed);
      Some(ApplyPlan(w.google, RecheckedPlan(w, listed, s2), s2).exit)
  }

  predicate IsAbandoned(exit: Option<Exit>) {
    exit.Some? && exit.value.Abandoned()
  }

  /** The groups a run abandons. */
  function AbandonedIn(w: World, groups: seq<Email>, audiences: Audiences, allow: bool, s: RunState): set<Email>
    requires forall g :: g in groups ==> g in audiences
    decreases |groups|
  {
    if groups == [] then {}
    else
      (if IsAbandoned(ExitOf(w, groups[0], audiences[groups[0]], allow, s)) then {groups[0]} else {})
        + AbandonedIn(w, groups[1..], audiences, allow, SweptGroup(w, groups[0], audiences[groups[0]], allow, s))
  }

  function AbandonedGroups(w: World, audiences: Audiences, statuses: EmailStatuses, allow: bool): set<Email> {
    AbandonedIn(w, SortedKeys(audiences.Keys), audiences, allow, StartRun(statuses))
  }

  /** Each verdict is among the refusals or its group was abandoned. */
  ghost predicate CarriedOrAbandoned(abandoned: set<Email>, s: RunState) {
    forall i: nat :: Verdict(s.log, i) ==> s.log[i].group in abandoned || Carried(s.refusals, s.log[i])
  }

  lemma StepCarries(w: World, group: Email, desired: map<string, Uuid>, allow: bool, s: RunState, r: RunState,
                    actual: seq<Entry>, plan: GroupPlan, retried: seq<Email>, abandoned: set<Email>, left: bool)
    requires GroupStep(w, group, desired, allow, s, r, actual, plan, retried)
    requires CarriedOrAbandoned(abandoned, s) && (!left ==> Held(|s.log| + 1, r.log, r.refusals))
    ensures CarriedOrAbandoned(abandoned + (if left then {group} else {}), r)
  {
    StepEvents(w, group, desired, allow, s, r, actual, plan, retried);
    assert s.refusals <= r.refusals;
    hide GroupStep, Verdict, VerdictSince, Carried;
    forall i: nat | Verdict(r.log, i)
      ensures r.log[i].group in abandoned + (if left then {group} else {}) || Carried(r.refusals, r.log[i])
    {
      OffersOnly(r.log, i);
      if i < |s.log| {
        EarlierVerdict(s.log, r.log, i);
        assert r.log[i] == s.log[i];
        if Carried(s.refusals, s.log[i]) {
          assert r.refusals == s.refusals + r.refusals[|s.refusals|..];
          CarriedMore(s.refusals, r.refusals[|s.refusals|..], s.log[i]);
        }
      } else {
        LaterVerdict(r.log, |s.log| + 1, i);
      }
    }
  }

  lemma ListingFailedCarries(s: RunState, group: Email, abandoned: set<Email>)
    requires CarriedOrAbandoned(abandoned, s)
    ensures CarriedOrAbandoned(abandoned, Unlisted(s, group))
  {
    var r := Unlisted(s, group);
    forall i: nat | Verdict(r.log, i) ensures i < |r.log| && r.log[i].Offered? { OffersOnly(r.log, i); }
    hide Verdict, Carried;
    forall i: nat | i < |r.log| && Verdict(r.log, i) && r.log[i].Offered?
      ensures r.log[i].group in abandoned || Carried(r.refusals, r.log[i])
    {
      EarlierVerdict(s.log, r.log, i);
      assert r.log[i] == s.log[i];
    }
  }

  lemma SweptGroupCarries(w: World, group: Email, desired: map<string, Uuid>, allow: bool, s: RunState,
      abandoned: set<Email>)
    requires CarriedOrAbandoned(abandoned, s)
    ensures var left := IsAbandoned(ExitOf(w, group, desired, allow, s));
            CarriedOrAbandoned(abandoned + (if left then {group} else {}), SweptGroup(w, group, desired, allow, s))
  {
    hide GroupStep, CarriedOrAbandoned, ApplyPlan, PlanOf, RecheckedPlan, Known, Held;
    if w.google.list(s.log, group).None? {
      ListingFailedCarries(s, group, abandoned);
      assert abandoned + {} == abandoned;
    } else {
      var actual := w.google.list(s.log, group).value;
      var plan, retried := SweptGroupStep(w, group, desired, allow, s);
      SweptGroupApplies(w, group, desired, actual, allow, s);
      hide SweptGroup;
      var listed := ListedPlan(w, group, desired, actual, allow, s);
      var s2 := SpendRetries(s.(log := s.log + [Listed(group, Some(actual))]), listed);
      ApplyCarriesVerdicts(w.google, RecheckedPlan(w, listed, s2), s2);
      StepCarries(w, group, desired, allow, s, SweptGroup(w, group, desired, allow, s), actual, plan, retried,
          abandoned, IsAbandoned(ExitOf(w, group, desired, allow, s)));
    }
  }

  lemma {:induction false} SweptGroupsCarry(w: World, groups: seq<Email>, audiences: Audiences, allow: bool,
      s: RunState, abandoned: set<Email>)
    requires CarriedOrAbandoned(abandoned, s) && forall g :: g in groups ==> g in audiences
    ensures CarriedOrAbandoned(abandoned + AbandonedIn(w, groups, audiences, allow, s),
        SweptGroups(w, groups, audiences, allow, s))
    decreases |groups|
  {
    hide CarriedOrAbandoned, SweptGroup, ExitOf;
    if groups == [] {
      assert abandoned + {} == abandoned;
    } else {
      var g, rest := groups[0], groups[1..];
      var left: set<Email> := if IsAbandoned(ExitOf(w, g, audiences[g], allow, s)) then {g} else {};
      var next := SweptGroup(w, g, audiences[g], allow, s);
      SweptGroupCarries(w, g, audiences[g], allow, s, abandoned);
      SweptGroupsCarry(w, rest, audiences, allow, next, abandoned + left);
      assert (abandoned + left) + AbandonedIn(w, rest, audiences, allow, next) ==
          abandoned + (left + AbandonedIn(w, rest, audiences, allow, next));
    }
  }

  lemma StartCarries(statuses: EmailStatuses)
    ensures CarriedOrAbandoned({}, StartRun(statuses)) && KeptOnly({}, {}, StartRun(statuses))
  {
  }

  /** Over a whole run every verdict Google gave is held to be written, unless the
      group it was given on was abandoned. */
  lemma VerdictsAreCarried(w: World, audiences: Audiences, statuses: EmailStatuses, allow: bool)
    ensures CarriedOrAbandoned(AbandonedGroups(w, audiences, statuses, allow), RunGroups(w, audiences, statuses, allow))
  {
    hide SweptGroups, AbandonedIn, CarriedOrAbandoned, StartRun;
    var keys := SortedKeys(audiences.Keys);
    StartCarries(statuses);
    SweptGroupsCarry(w, keys, audiences, allow, StartRun(statuses), {});
    assert {} + AbandonedIn(w, keys, audiences, allow, StartRun(statuses)) ==
        AbandonedIn(w, keys, audiences, allow, StartRun(statuses));
  }

  // ------------------------------------------------------- and nothing abandoned

  /** The refusals held come from groups swept and not abandoned. */
  ghost predicate KeptOnly(done: set<Email>, abandoned: set<Email>, s: RunState) {
    && abandoned <= done
    && forall k :: 0 <= k < |s.refusals| ==>
         s.refusals[k].groupEmail in done && s.refusals[k].groupEmail !in abandoned
  }

  lemma SweptGroupKeeps(w: World, group: Email, desired: map<string, Uuid>, allow: bool, s: RunState,
      done: set<Email>, abandoned: set<Email>)
    requires KeptOnly(done, abandoned, s) && group !in done
    ensures var left := if IsAbandoned(ExitOf(w, group, desired, allow, s)) then {group} else {};
            KeptOnly(done + {group}, abandoned + left, SweptGroup(w, group, desired, allow, s))
  {
    hide ApplyPlan, PlanOf, RecheckedPlan, Known, Held, PlanEvents, Believable, OfferRight, RemoveRight, Accounted;
    if w.google.list(s.log, group).Some? {
      var actual := w.google.list(s.log, group).value;
      var plan, retried := SweptGroupStep(w, group, desired, allow, s);
      SweptGroupApplies(w, group, desired, actual, allow, s);
      var r := SweptGroup(w, group, desired, allow, s);
      hide SweptGroup;
      var listed := ListedPlan(w, group, desired, actual, allow, s);
      var s2 := SpendRetries(s.(log := s.log + [Listed(group, Some(actual))]), listed);
      ApplyCarriesVerdicts(w.google, RecheckedPlan(w, listed, s2), s2);
      assert s.refusals <= r.refusals;
      forall k | 0 <= k < |s.refusals| ensures r.refusals[k] == s.refusals[k] { }
    }
  }

  lemma {:induction false} SweptGroupsKeep(w: World, groups: seq<Email>, audiences: Audiences, allow: bool,
      s: RunState, done: set<Email>, abandoned: set<Email>)
    requires KeptOnly(done, abandoned, s) && NoDup(groups)
    requires forall g :: g in groups ==> g in audiences && g !in done
    ensures KeptOnly(done + ToSet(groups), abandoned + AbandonedIn(w, groups, audiences, allow, s),
        SweptGroups(w, groups, audiences, allow, s))
    decreases |groups|
  {
    hide KeptOnly, SweptGroup, ExitOf;
    if groups == [] {
      assert abandoned + {} == abandoned && done + ToSet(groups) == done;
    } else {
      var g, rest := groups[0], groups[1..];
      var left: set<Email> := if IsAbandoned(ExitOf(w, g, audiences[g], allow, s)) then {g} else {};
      var next := SweptGroup(w, g, audiences[g], allow, s);
      assert groups == [g] + rest && forall h :: h in rest ==> h in groups && h != g;
      SweptGroupKeeps(w, g, audiences[g], allow, s, done, abandoned);
      SweptGroupsKeep(w, rest, audiences, allow, next, done + {g}, abandoned + left);
      assert (done + {g}) + ToSet(rest) == done + ToSet(groups);
      assert (abandoned + left) + AbandonedIn(w, rest, audiences, allow, next) ==
          abandoned + (left + AbandonedIn(w, rest, audiences, allow, next));
    }
  }

  /** No refusal of the run is for this address. */
  ghost predicate Unrefused(refusals: seq<Refusal>, a: Email) {
    forall k :: 0 <= k < |refusals| ==> refusals[k].address != a
  }

  /** A run holds a refusal to write for an address with a verdict exactly when the
      group that met the verdict was not abandoned. */
  lemma CarriedExactly(w: World, audiences: Audiences, statuses: EmailStatuses, allow: bool, i: nat)
    requires NormalAudiences(audiences) && Verdict(RunGroups(w, audiences, statuses, allow).log, i)
    ensures var s := RunGroups(w, audiences, statuses, allow);
            s.log[i].group !in AbandonedGroups(w, audiences, statuses, allow) <==>
                !Unrefused(s.refusals, s.log[i].address)
    ensures var s := RunGroups(w, audiences, statuses, allow);
            forall k :: 0 <= k < |s.refusals| && s.refusals[k].address == s.log[i].address ==>
              s.log[i] == Offered(s.refusals[k].groupEmail, s.refusals[k].address, s.refusals[k].outcome)
  {
    hide RunGroups, AbandonedGroups, Verdict, NormalAudiences, Certified, CarriedOrAbandoned, NeverAgain, Unrefused,
        Lasting;
    VerdictsAreCarried(w, audiences, statuses, allow);
    VerdictsAreAskedOnce(w, audiences, statuses, allow);
    RefusalsMetOnce(w, audiences, statuses, allow);
    KeptFromStart(w, audiences, statuses, allow);
    CarriedOnce(RunGroups(w, audiences, statuses, allow), AbandonedGroups(w, audiences, statuses, allow), i);
  }

  lemma CarriedOnce(s: RunState, abandoned: set<Email>, i: nat)
    requires CarriedOrAbandoned(abandoned, s) && NeverAgain(s.log) && Verdict(s.log, i)
    requires forall k :: 0 <= k < |s.refusals| ==>
        Lasting(s.log, s.refusals[k]) && s.refusals[k].groupEmail !in abandoned
    ensures s.log[i].group !in abandoned <==> !Unrefused(s.refusals, s.log[i].address)
    ensures forall k :: 0 <= k < |s.refusals| && s.refusals[k].address == s.log[i].address ==>
        s.log[i] == Offered(s.refusals[k].groupEmail, s.refusals[k].address, s.refusals[k].outcome)
  {
    OffersOnly(s.log, i);
    hide Verdict;
    forall k | 0 <= k < |s.refusals| && s.refusals[k].address == s.log[i].address
      ensures s.log[i] == Offered(s.refusals[k].groupEmail, s.refusals[k].address, s.refusals[k].outcome)
    {
      var j: nat :| LastOffer(s.log, j, s.refusals[k]);
      assert i <= j && j <= i;
    }
    if s.log[i].group !in abandoned {
      var f :| f in s.refusals && f.address == s.log[i].address && f.groupEmail == s.log[i].group
          && f.outcome == s.log[i].outcome;
      var k: nat :| k < |s.refusals| && s.refusals[k] == f;
    }
  }

  lemma KeptFromStart(w: World, audiences: Audiences, statuses: EmailStatuses, allow: bool)
    ensures var s := RunGroups(w, audiences, statuses, allow);
            forall k :: 0 <= k < |s.refusals| ==>
              s.refusals[k].groupEmail !in AbandonedGroups(w, audiences, statuses, allow)
  {
    hide SweptGroups, AbandonedIn, StartRun, CarriedOrAbandoned;
    var keys := SortedKeys(audiences.Keys);
    StartCarries(statuses);
    SweptGroupsKeep(w, keys, audiences, allow, StartRun(statuses), {}, {});
    assert {} + AbandonedIn(w, keys, audiences, allow, StartRun(statuses)) ==
        AbandonedIn(w, keys, audiences, allow, StartRun(statuses));
  }

  // --------------------------------------------------------------- written down

  lemma {:induction false} AllLanded(rows: StatusTable, refusals: seq<Refusal>, lands: nat -> bool, now: int)
    requires RecordRefusals(rows, refusals, lands, now).1 == |refusals|
    ensures forall k :: 0 <= k < |refusals| ==> lands(k)
  {
    if refusals != [] { AllLanded(rows, refusals[..|refusals| - 1], lands, now); }
  }

  /** A report without failures means the fuse was quiet and every write landed. */
  lemma GreenCommit(store: StatusStore, refusals: seq<Refusal>, known: set<string>, lands: nat -> bool, now: int)
    requires !Committed(store, refusals, known, false, lands, now).1.HasFailures()
    ensures Committed(store, refusals, known, false, lands, now).0.rows ==
        RecordRefusals(store.rows, refusals, lands, now).0
    ensures !RefusalFuse(store.bootstrapped, News(refusals, known)) && forall k :: 0 <= k < |refusals| ==> lands(k)
  {
    hide RecordRefusals, News;
    NewsBound(refusals, known);
    assert !RefusalFuse(store.bootstrapped, News(refusals, known));
    AllLanded(store.rows, refusals, lands, now);
  }

  /** In a run without failures the final record of an address with a verdict: accepted
      now, if some group took it, it was not on record as accepted and that write landed;
      otherwise refused now, as Google answered, exactly when the group that met the
      verdict was not abandoned; and otherwise as it was before the run. */
  lemma GreenRunRecords(w: World, audiences: Audiences, store: StatusStore, provisionFailed: bool, allow: bool,
      writes: Writes, now: int, i: nat)
    requires NormalAudiences(audiences)
    requires var r := SweepRun(w, audiences, store, true, provisionFailed, allow, false, writes, now);
             !r.report.HasFailures() && Verdict(r.s.log, i)
    ensures var r := SweepRun(w, audiences, store, true, provisionFailed, allow, false, writes, now);
            var statuses := ReadStatuses(store.rows, None, now);
            var a, before, rows := r.s.log[i].address, store.rows, r.store.rows;
            if a in r.s.accepted && a !in statuses.accepted && writes.accepts(a) then
              a in rows && rows[a] == StatusRow(Accepted, now)
            else if r.s.log[i].group !in AbandonedGroups(w, audiences, statuses, allow) then
              a in rows && rows[a].observedAt == now && RecordsAs(r.s.log[i].outcome, rows[a].status)
            else (a in rows <==> a in before) && (a in rows ==> rows[a] == before[a])
  {
    hide RunGroups, AbandonedGroups, Verdict, ReadStatuses, NormalAudiences, Committed, Remembered, RunInv, Unrefused,
        RefusalFuse;
    var r := SweepRun(w, audiences, store, true, provisionFailed, allow, false, writes, now);
    var statuses := ReadStatuses(store.rows, None, now);
    assert r.s == RunGroups(w, audiences, statuses, allow);
    RunIsWell(w, audiences, statuses, allow);
    OffersOnly(r.s.log, i);
    CarriedExactly(w, audiences, statuses, allow, i);
    GreenCommit(store, r.s.refusals, statuses.Lapsed(), writes.refusals, now);
    FinalRow(r.s, store, writes, now, r.s.log[i]);
  }

  lemma RunIsWell(w: World, audiences: Audiences, statuses: EmailStatuses, allow: bool)
    requires NormalAudiences(audiences)
    ensures RefusalInv(RunGroups(w, audiences, statuses, allow))
  {
    hide RunGroups, RetryInv, RefusalInv, LiveInv, SafeInv, CertInv;
    RunKeepsInv(w, audiences, statuses, allow);
  }

  lemma FinalRow(s: RunState, store: StatusStore, writes: Writes, now: int, e: Event)
    requires RefusalInv(s) && e.Offered? && forall k :: 0 <= k < |s.refusals| ==> writes.refusals(k)
    requires !RefusalFuse(store.bootstrapped, News(s.refusals, ReadStatuses(store.rows, None, now).Lapsed()))
    requires forall k :: 0 <= k < |s.refusals| && s.refusals[k].address == e.address ==>
        s.refusals[k].outcome == e.outcome
    ensures var statuses := ReadStatuses(store.rows, None, now);
            var a, before := e.address, store.rows;
            var rows := WriteDown(s, statuses, store, false, writes, now).0.rows;
            if a in s.accepted && a !in statuses.accepted && writes.accepts(a) then
              a in rows && rows[a] == StatusRow(Accepted, now)
            else if !Unrefused(s.refusals, a) then
              a in rows && rows[a].observedAt == now && RecordsAs(e.outcome, rows[a].status)
            else (a in rows <==> a in before) && (a in rows ==> rows[a] == before[a])
  {
    hide ReadStatuses, WriteDown, RefusedWritten, WrittenAs, Unrefused, RefusalFuse, News, Lasting, RecordsAs;
    NormalRowAtRunsEnd(s, store, writes, now, e.address);
    WrittenExactly(s, writes, e.address);
  }

  /** When every write lands an address is written as refused exactly when the run
      holds a refusal of it, and as that refusal says. */
  lemma WrittenExactly(s: RunState, writes: Writes, a: Email)
    requires RefusalInv(s) && forall k :: 0 <= k < |s.refusals| ==> writes.refusals(k)
    ensures RefusedWritten(s.refusals, writes.refusals, a) <==> !Unrefused(s.refusals, a)
    ensures forall status :: WrittenAs(s.refusals, writes.refusals, a, status) ==>
        exists k :: 0 <= k < |s.refusals| && s.refusals[k].address == a && RecordsAs(s.refusals[k].outcome, status)
  {
    hide Lasting;
  }
}
