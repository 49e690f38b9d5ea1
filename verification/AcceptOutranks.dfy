/** An address accepted in one group and refused in another: which answer a run
    leaves on record, and the two cases that go the other way. */
module AcceptOutranks {
  import opened Basics
  import opened GroupSync
  import opened EmailStatus
  import opened Plan
  import opened Apply
  import opened Sweep
  import opened SweepSteps
  import opened SweepTheorems

  /** Over whole runs, whatever Google answers: an address some group took ends on
      record as accepted if and only if it was so before the run and no refusal of it
      was written, or the fuse tripped - or it was not, and the write landed. */
  lemma AcceptedAtRunsEnd(w: World, audiences: Audiences, store: StatusStore, allow: bool, writes: Writes, now: int,
      a: Email)
    requires NormalAudiences(audiences)
    requires a in RunGroups(w, audiences, ReadStatuses(store.rows, None, now), allow).accepted
    ensures var statuses := ReadStatuses(store.rows, None, now);
            var s := RunGroups(w, audiences, statuses, allow);
            var rows := WriteDown(s, statuses, store, false, writes, now).0.rows;
            var tripped := RefusalFuse(store.bootstrapped, News(s.refusals, statuses.Lapsed()));
            a in rows && rows[a].status.Accepted? <==>
                if a in store.rows && store.rows[a].status.Accepted?
                then tripped || !RefusedWritten(s.refusals, writes.refusals, a)
                else writes.accepts(a)
  {
    var statuses := ReadStatuses(store.rows, None, now);
    var s := RunGroups(w, audiences, statuses, allow);
    RunKeepsInv(w, audiences, statuses, allow);
    assert a in statuses.accepted <==> a in store.rows && store.rows[a].status.Accepted?;
    assert forall x :: x in s.accepted ==> Norm(x) == x;
    hide RunGroups, RunInv, ReadStatuses, WriteDown, NormalAudiences, RefusedWritten;
    AcceptOutranksRefuse(s, store, writes, now, a);
  }

  // ------------------------------------------------------------- the exceptions

  const MEMBER := "m@dsa.org"
  const FIRST := "a@dsa.org"
  const SECOND := "b@dsa.org"
  const WANTED: map<string, Uuid> := map[MEMBER := 1]

  /** Takes the member into the first group and refuses them in the second. */
  function TwoMinds(): Google {
    Google(
      (log: Log, group: Email) => Some([]),
      (log: Log, group: Email, a: Email) => if group == FIRST then Applied else NoGoogleAccount,
      (log: Log, group: Email, a: Email) => Failed,
      (log: Log, group: Email) => Present)
  }

  function TwoMindedWorld(): World {
    World(TwoMinds(), (log: Log, group: Email) => WANTED)
  }

  lemma NoneRemoved()
    ensures Removals([], WANTED) == []
  {
  }

  lemma PlanForOne(group: Email, slots: int)
    ensures PlanOf(group, Inputs(WANTED, [], {}, {}, slots, false)) ==
        GroupPlan(group, [PlannedAdd(MEMBER, 1)], [], [], [], 0)
  {
    var keys := SortedKeys(WANTED.Keys);
    NoDupSize(keys);
    assert ToSet(keys) == {MEMBER};
    assert keys == [MEMBER];
    var input := Inputs(WANTED, [], {}, {}, slots, false);
    assert Keys(input.actual) == {};
    hide SortedKeys, Keys, Removals;
    var o := OfferNext(input, MEMBER, Offers([], [], []));
    assert Removals([], WANTED) == [] by { NoneRemoved(); }
    assert o == Offers([PlannedAdd(MEMBER, 1)], [], []);
    assert OfferEach(input, keys, Offers([], [], [])) == OfferEach(input, keys[1..], o) == o;
  }

  lemma RecheckedSame(group: Email, s: RunState)
    ensures var plan := GroupPlan(group, [PlannedAdd(MEMBER, 1)], [], [], [], 0);
            RecheckedPlan(TwoMindedWorld(), plan, s) == plan
  {
    var plan := GroupPlan(group, [PlannedAdd(MEMBER, 1)], [], [], [], 0);
    assert Norm(MEMBER) == MEMBER;
    assert Still(plan.adds[1..], WANTED.Keys) == [];
    assert Still(plan.adds, WANTED.Keys) == plan.adds;
  }

  lemma AppliedOne(group: Email, s: RunState)
    ensures var r := ApplyPlan(TwoMinds(), GroupPlan(group, [PlannedAdd(MEMBER, 1)], [], [], [], 0), s).s;
            && r.lapsed == s.lapsed && r.retrySlots == s.retrySlots
            && (group == FIRST ==>
                   r.unmirrorable == s.unmirrorable && r.refusals == s.refusals
                   && r.accepted == s.accepted + {MEMBER})
            && (group != FIRST ==>
                   r.refusals == s.refusals + [Refusal(MEMBER, 1, group, NoGoogleAccount)]
                   && r.accepted == s.accepted)
  {
    var g, plan := TwoMinds(), GroupPlan(group, [PlannedAdd(MEMBER, 1)], [], [], [], 0);
    var outcome := if group == FIRST then Applied else NoGoogleAccount;
    assert g.add(s.log, group, MEMBER) == outcome;
    var a := OfferOne(g, group, plan.adds[0], StartAdds(s));
    assert a == Settle(group, plan.adds[0], outcome, StartAdds(s).(log := s.log + [Offered(group, MEMBER, outcome)]));
    assert plan.adds[1..] == [];
    hide OfferOne, TwoMinds;
    assert OfferAdds(g, group, [], a) == a;
    assert OfferAdds(g, group, plan.adds, StartAdds(s)) == a;
    assert a.found == if group == FIRST then [] else [Refusal(MEMBER, 1, group, NoGoogleAccount)];
    assert !FoundNotFound(a.found);
    hide OfferAdds;
    assert ApplyPlan(g, plan, s) == FinishGroup(g, plan, s, a, a.log);
    assert s.refusals + [] == s.refusals;
  }

  /** One group of the two, from a run that has refused nothing. */
  lemma SweptOne(group: Email, s: RunState)
    requires s.unmirrorable == {} && s.lapsed == {}
    ensures var r := SweptGroup(TwoMindedWorld(), group, WANTED, false, s);
            && r.lapsed == {} && r.retrySlots == s.retrySlots
            && (group == FIRST ==>
                   r.unmirrorable == {} && r.refusals == s.refusals && r.accepted == s.accepted + {MEMBER})
            && (group != FIRST ==>
                   r.refusals == s.refusals + [Refusal(MEMBER, 1, group, NoGoogleAccount)]
                   && r.accepted == s.accepted)
  {
    var w := TwoMindedWorld();
    var s1 := s.(log := s.log + [Listed(group, Some([]))]);
    var plan := GroupPlan(group, [PlannedAdd(MEMBER, 1)], [], [], [], 0);
    PlanForOne(group, s.retrySlots);
    assert SpendRetries(s1, plan) == s1;
    RecheckedSame(group, s1);
    AppliedOne(group, s1);
    assert w.google == TwoMinds() && TwoMinds().list(s.log, group) == Some([]);
    hide PlanOf, RecheckedPlan, ApplyPlan, TwoMinds;
    assert SweptGroup(w, group, WANTED, false, s) == ApplyPlan(w.google, plan, s1).s;
  }

  lemma TwoGroups()
    ensures SortedKeys({FIRST, SECOND}) == [FIRST, SECOND]
  {
    var keys := SortedKeys({FIRST, SECOND});
    NoDupSize(keys);
    assert ToSet(keys) == {FIRST, SECOND};
    assert FIRST != SECOND by { assert FIRST[0] != SECOND[0]; }
    assert |keys| == 2;
    assert !LexLeq(SECOND, FIRST) by { assert FIRST[0] < SECOND[0]; }
    assert keys[0] in keys && keys[1] in keys;
  }

  lemma RunOfTwo(w: World, statuses: EmailStatuses)
    ensures RunGroups(w, map[FIRST := WANTED, SECOND := WANTED], statuses, false) ==
            SweptGroup(w, SECOND, WANTED, false, SweptGroup(w, FIRST, WANTED, false, StartRun(statuses)))
  {
    var audiences: Audiences := map[FIRST := WANTED, SECOND := WANTED];
    TwoGroups();
    assert audiences.Keys == {FIRST, SECOND};
    assert audiences[FIRST] == WANTED && audiences[SECOND] == WANTED;
    hide SweptGroup, SweptGroups, SortedKeys, StartRun;
    TwoSwept(w, audiences, StartRun(statuses));
  }

  /** What the run ends with, from a store that knows of no refusal. */
  lemma TwoMindedRun(statuses: EmailStatuses)
    requires statuses.live == {} && statuses.Lapsed() == {}
    ensures var s := RunGroups(TwoMindedWorld(), map[FIRST := WANTED, SECOND := WANTED], statuses, false);
            s.refusals == [Refusal(MEMBER, 1, SECOND, NoGoogleAccount)] && s.accepted == {MEMBER}
  {
    var start := StartRun(statuses);
    assert start.unmirrorable == {} && start.lapsed == {} && start.refusals == [] && start.accepted == {};
    hide SweptGroup, RunGroups, TwoMindedWorld, StartRun;
    assert SECOND != FIRST by { assert FIRST[0] != SECOND[0]; }
    SweptOne(FIRST, start);
    SweptOne(SECOND, SweptGroup(TwoMindedWorld(), FIRST, WANTED, false, start));
    RunOfTwo(TwoMindedWorld(), statuses);
  }

  /** The refusal is on record at the end of it, unless the acceptance is written over it. */
  lemma RefusalStands(s: RunState, store: StatusStore, writes: Writes, now: int)
    requires s.refusals == [Refusal(MEMBER, 1, SECOND, NoGoogleAccount)] && s.accepted == {MEMBER}
    requires writes.refusals(0)
    requires (MEMBER in store.rows && store.rows[MEMBER].status.Accepted?) || !writes.accepts(MEMBER)
    ensures var rows := WriteDown(s, ReadStatuses(store.rows, None, now), store, false, writes, now).0.rows;
            MEMBER in rows && rows[MEMBER].status == RefusedNoAccount
  {
    var statuses := ReadStatuses(store.rows, None, now);
    assert Norm(MEMBER) == MEMBER;
    NewsBound(s.refusals, statuses.Lapsed());
    assert RefusedWritten(s.refusals, writes.refusals, MEMBER) by { assert s.refusals[0].address == MEMBER; }
    assert MEMBER in store.rows && store.rows[MEMBER].status.Accepted? ==> MEMBER in statuses.accepted;
    hide News, Norm, ReadStatuses, WriteDown, RefusedWritten;
    NormalRowAtRunsEnd(s, store, writes, now, MEMBER);
  }

  /** A member long recorded accepted, taken into one group and refused in the next by
      the same run, ends recorded as refused though every write lands. */
  lemma AcceptedYetRefused(now: int)
    ensures var store := StatusStore(map[MEMBER := StatusRow(Accepted, 0)], true);
            var statuses := ReadStatuses(store.rows, None, now);
            var s := RunGroups(TwoMindedWorld(), map[FIRST := WANTED, SECOND := WANTED], statuses, false);
            var rows := WriteDown(s, statuses, store, false, Writes((k: nat) => true, (a: Email) => true), now).0.rows;
            MEMBER in s.accepted && MEMBER in rows && rows[MEMBER].status == RefusedNoAccount
  {
    var store := StatusStore(map[MEMBER := StatusRow(Accepted, 0)], true);
    var statuses := ReadStatuses(store.rows, None, now);
    assert statuses.live == {} && statuses.Lapsed() == {};
    var s := RunGroups(TwoMindedWorld(), map[FIRST := WANTED, SECOND := WANTED], statuses, false);
    hide RunGroups, ReadStatuses, WriteDown, TwoMindedWorld;
    TwoMindedRun(statuses);
    RefusalStands(s, store, Writes((k: nat) => true, (a: Email) => true), now);
  }

  /** So does a new member whose acceptance was not written, the one write lost. */
  lemma LostAcceptLeavesRefused(now: int)
    ensures var store := StatusStore(map[], true);
            var statuses := ReadStatuses(store.rows, None, now);
            var s := RunGroups(TwoMindedWorld(), map[FIRST := WANTED, SECOND := WANTED], statuses, false);
            var rows := WriteDown(s, statuses, store, false, Writes((k: nat) => true, (a: Email) => false), now).0.rows;
            MEMBER in s.accepted && MEMBER in rows && rows[MEMBER].status == RefusedNoAccount
  {
    var store := StatusStore(map[], true);
    var statuses := ReadStatuses(store.rows, None, now);
    assert statuses.live == {} && statuses.Lapsed() == {};
    var s := RunGroups(TwoMindedWorld(), map[FIRST := WANTED, SECOND := WANTED], statuses, false);
    hide RunGroups, ReadStatuses, WriteDown, TwoMindedWorld;
    TwoMindedRun(statuses);
    RefusalStands(s, store, Writes((k: nat) => true, (a: Email) => false), now);
  }

  lemma TwoSwept(w: World, audiences: Audiences, s: RunState)
    requires FIRST in audiences && SECOND in audiences
    ensures SweptGroups(w, [FIRST, SECOND], audiences, false, s) ==
            SweptGroup(w, SECOND, audiences[SECOND], false, SweptGroup(w, FIRST, audiences[FIRST], false, s))
  {
    hide SweptGroup;
    var s1 := SweptGroup(w, FIRST, audiences[FIRST], false, s);
    assert [FIRST, SECOND][1..] == [SECOND] && [SECOND][1..] == [];
    assert SweptGroups(w, [SECOND], audiences, false, s1) == SweptGroup(w, SECOND, audiences[SECOND], false, s1);
  }
}
