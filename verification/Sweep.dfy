/** A whole reconcile run: every group listed, planned, rechecked and applied in
    turn, with the refusals and the retry allowance threaded through, and what
    was learned written down at the end. */
module Sweep {
  import opened Basics
  import opened GroupSync
  import opened EmailStatus
  import opened Plan
  import opened Apply

  /** Google, and the records as `desired_for_group` would read them at any moment:
      a panel may have written since the snapshot. */
  datatype World = World(google: Google, current: (Log, Email) -> map<string, Uuid>)

  /** Which of a run's status writes reach the store. */
  datatype Writes = Writes(refusals: nat -> bool, accepts: Email -> bool)

  datatype SweepReport = SweepReport(
    groups: seq<GroupOutcome>, listerAvailable: bool, provisionFailed: bool, refusals: Option<RefusalReport>)
  {
    predicate HasFailures() {
      || provisionFailed
      || (refusals.Some? && refusals.value.HasFailures())
      || exists g :: g in groups && g.Red()
    }
  }

  datatype SweepResult = SweepResult(s: RunState, store: StatusStore, report: SweepReport)

  // ---------------------------------------------------------------- one group

  function ListingFailed(group: Email): GroupOutcome {
    GroupOutcome(group, 0, 0, 0, 0, 0, 0, 0, 0, 1)
  }

  function InputsFor(desired: map<string, Uuid>, actual: seq<Entry>, allow: bool, s: RunState): Inputs {
    Inputs(desired, actual, s.unmirrorable, s.lapsed, s.retrySlots, allow)
  }

  function SpendRetries(s: RunState, plan: GroupPlan): RunState {
    s.(lapsed := s.lapsed - ToSet(plan.retried), retrySlots := s.retrySlots - |plan.retried|)
  }

  function RecheckedPlan(w: World, plan: GroupPlan, s: RunState): GroupPlan {
    if Idle(plan) then plan else Recheck(plan, w.current(s.log, plan.groupEmail).Keys)
  }

  function SweptGroup(w: World, group: Email, desired: map<string, Uuid>, allow: bool, s: RunState): RunState {
    var listed := w.google.list(s.log, group);
    var s1 := s.(log := s.log + [Listed(group, listed)]);
    match listed
    case None => s1.(outcomes := s.outcomes + [ListingFailed(group)])
    case Some(actual) =>
      var plan := PlanOf(group, InputsFor(desired, actual, allow, s1));
      var s2 := SpendRetries(s1, plan);
      ApplyPlan(w.google, RecheckedPlan(w, plan, s2), s2).s
  }

  function SweptGroups(w: World, groups: seq<Email>, audiences: Audiences, allow: bool, s: RunState): RunState
    requires forall g :: g in groups ==> g in audiences
    decreases |groups|
  {
    if groups == [] then s
    else SweptGroups(w, groups[1..], audiences, allow, SweptGroup(w, groups[0], audiences[groups[0]], allow, s))
  }

  // ------------------------------------------------------------------ the run

  function StartRun(statuses: EmailStatuses): RunState {
    RunState([], statuses.live, statuses.Lapsed(), RETRIES_PER_RUN, [], {}, [])
  }

  /** The state once every group has been swept. */
  function RunGroups(w: World, audiences: Audiences, statuses: EmailStatuses, allow: bool): RunState {
    SweptGroups(w, SortedKeys(audiences.Keys), audiences, allow, StartRun(statuses))
  }

  /** The accepted addresses worth writing: those not recorded accepted at the start. */
  function NewlyAccepted(accepted: set<Email>, statuses: EmailStatuses): set<Email> {
    set a | a in accepted && Norm(a) !in statuses.accepted
  }

  /** What a run learned, written down: the refusals, then the acceptances that are
      news. */
  function WriteDown(s: RunState, statuses: EmailStatuses, store: StatusStore, dryRun: bool, writes: Writes, now: int)
    : (StatusStore, RefusalReport)
  {
    var (committed, report) := Committed(store, s.refusals, statuses.Lapsed(), dryRun, writes.refusals, now);
    if dryRun then (committed, report)
    else (committed.(rows := Remembered(committed.rows, NewlyAccepted(s.accepted, statuses), writes.accepts, now)),
        report)
  }

  /** `_sweep_locked`, once the audiences are read. */
  function SweepRun(w: World, audiences: Audiences, store: StatusStore, listerAvailable: bool, provisionFailed: bool,
                    allow: bool, dryRun: bool, writes: Writes, now: int): SweepResult
  {
    var statuses := ReadStatuses(store.rows, None, now);
    if !listerAvailable then
      SweepResult(StartRun(statuses), store, SweepReport([], false, provisionFailed, None))
    else
      var s := RunGroups(w, audiences, statuses, allow);
      var (written, refusals) := WriteDown(s, statuses, store, dryRun, writes, now);
      SweepResult(s, written, SweepReport(s.outcomes, true, provisionFailed, Some(refusals)))
  }

  // ------------------------------------------------------------------ in place

  /** One run in progress: the sets and lists the loop and `_apply` mutate. */
  class Run {
    const w: World
    var log: Log
    var unmirrorable: set<string>
    var lapsed: set<string>
    var retrySlots: int
    var refusals: seq<Refusal>
    var accepted: set<Email>
    var outcomes: seq<GroupOutcome>

    ghost function State(): RunState
      reads this
    {
      RunState(log, unmirrorable, lapsed, retrySlots, refusals, accepted, outcomes)
    }

    constructor (w: World, statuses: EmailStatuses)
      ensures this.w == w && State() == StartRun(statuses)
    {
      this.w := w;
      log, unmirrorable, lapsed, retrySlots := [], statuses.live, statuses.Lapsed(), RETRIES_PER_RUN;
      refusals, accepted, outcomes := [], {}, [];
    }

    /** The adds loop of `_apply`; `gone` is its early return. */
    method OfferAdds(group: Email, adds: seq<PlannedAdd>) returns (tally: Tally, found: seq<Refusal>, gone: bool)
      modifies `log, `accepted, `unmirrorable
      ensures var a := Apply.OfferAdds(w.google, group, adds, StartAdds(old(State())));
              && (log, accepted, unmirrorable) == (a.log, a.accepted, a.unmirrorable)
              && (tally, found, gone) == (a.tally, a.found, a.gone)
    {
      tally, found, gone := multiset{}, [], false;
      var presence: Option<Presence> := None;
      var rest := adds;
      while rest != []
        invariant !gone
        invariant Apply.OfferAdds(w.google, group, rest,
            AddState(log, tally, presence, found, accepted, unmirrorable, gone)) ==
                  Apply.OfferAdds(w.google, group, adds, StartAdds(old(State())))
        decreases |rest|
      {
        ghost var before := AddState(log, tally, presence, found, accepted, unmirrorable, gone);
        var add := rest[0];
        var outcome := w.google.add(log, group, add.address);
        log := log + [Offered(group, add.address, outcome)];
        if outcome.AddressNotFound? && presence.None? {
          var p := w.google.presence(log, group);
          log := log + [Probed(group, p)];
          presence := Some(p);
        }
        if outcome.AddressNotFound? && presence.value.Gone? {
          gone := true;
        } else if outcome.AddressNotFound? && presence.value.Unknown? {
          tally := tally + multiset{Failed};
        } else {
          tally := tally + multiset{outcome};
          if outcome.Accepted() {
            accepted := accepted + {add.address};
          }
          if outcome.Unmirrorable() {
            found := found + [Refusal(add.address, add.memberId, group, outcome)];
            unmirrorable := unmirrorable + {Norm(add.address)};
          }
        }
        assert AddState(log, tally, presence, found, accepted, unmirrorable, gone) ==
            OfferOne(w.google, group, add, before);
        rest := rest[1..];
        if gone {
          return;
        }
      }
    }

    /** The removes loop of `_apply`. */
    method RemoveEach(group: Email, addresses: seq<Email>, tally: Tally) returns (after: Tally, converged: nat)
      modifies `log
      ensures RemoveState(log, after, converged) ==
          Apply.RemoveEach(w.google, group, addresses, RemoveState(old(log), tally, 0))
    {
      after, converged := tally, 0;
      var rest := addresses;
      while rest != []
        invariant Apply.RemoveEach(w.google, group, rest, RemoveState(log, after, converged)) ==
                  Apply.RemoveEach(w.google, group, addresses, RemoveState(old(log), tally, 0))
        decreases |rest|
      {
        var outcome := w.google.remove(log, group, rest[0]);
        log := log + [Removed(group, rest[0], outcome)];
        after := after + multiset{outcome};
        if outcome.AlreadyConverged? {
          converged := converged + 1;
        }
        rest := rest[1..];
      }
    }

    method ApplyPlan(plan: GroupPlan)
      modifies this
      ensures State() == Apply.ApplyPlan(w.google, plan, old(State())).s
    {
      var tally, found, gone := OfferAdds(plan.groupEmail, plan.adds);
      if gone {
        outcomes := outcomes + [AbandonedOutcome(plan, tally)];
        return;
      }
      if FoundNotFound(found) {
        var p := w.google.presence(log, plan.groupEmail);
        log := log + [Probed(plan.groupEmail, p)];
        if !p.Present? {
          outcomes := outcomes + [AbandonedOutcome(plan, tally)];
          return;
        }
      }
      refusals := refusals + found;
      var after, converged := RemoveEach(plan.groupEmail, plan.removes, tally);
      if |plan.removes| > 0 && converged == |plan.removes| && after[Applied] == 0 {
        var p := w.google.presence(log, plan.groupEmail);
        log := log + [Probed(plan.groupEmail, p)];
        if p.Gone? {
          outcomes := outcomes + [VanishedOutcome(plan, after)];
          return;
        }
      }
      outcomes := outcomes + [FinishedOutcome(plan, after)];
    }

    /** One pass of the group loop. */
    method SweepGroup(group: Email, desired: map<string, Uuid>, allow: bool)
      modifies this
      ensures State() == SweptGroup(w, group, desired, allow, old(State()))
    {
      var listed := w.google.list(log, group);
      log := log + [Listed(group, listed)];
      if listed.None? {
        outcomes := outcomes + [ListingFailed(group)];
        return;
      }
      hide Apply.ApplyPlan, PlanOf, Recheck;
      ghost var s1 := State();
      var plan := PlanGroup(group, Inputs(desired, listed.value, unmirrorable, lapsed, retrySlots, allow));
      ghost var s2 := SpendRetries(s1, plan);
      lapsed := lapsed - ToSet(plan.retried);
      retrySlots := retrySlots - |plan.retried|;
      if |plan.adds| > 0 || |plan.removes| > 0 || |plan.excluded| > 0 {
        plan := Recheck(plan, w.current(log, group).Keys);
      }
      assert State() == s2;
      ApplyPlan(plan);
    }

    /** The group loop and the writes that end the run. */
    method SweepLocked(audiences: Audiences, statuses: EmailStatuses, store: Store, allow: bool, dryRun: bool,
        writes: Writes, now: int)
      returns (report: RefusalReport)
      requires State() == StartRun(statuses)
      modifies this, store
      ensures State() == RunGroups(w, audiences, statuses, allow)
      ensures (store.State(), report) == WriteDown(State(), statuses, old(store.State()), dryRun, writes, now)
    {
      var rest := SortedKeys(audiences.Keys);
      while rest != []
        invariant forall g :: g in rest ==> g in audiences
        invariant SweptGroups(w, rest, audiences, allow, State()) == RunGroups(w, audiences, statuses, allow)
        modifies this
        decreases |rest|
      {
        SweepGroup(rest[0], audiences[rest[0]], allow);
        rest := rest[1..];
      }
      report := store.CommitRefusals(refusals, statuses.Lapsed(), dryRun, writes.refusals, now);
      if !dryRun {
        store.RememberAccepted(NewlyAccepted(accepted, statuses), writes.accepts, now);
      }
    }
  }
}
