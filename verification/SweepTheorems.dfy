/** What holds of a whole run: the retry and write budgets, no address asked about
    twice, every call justified, every 404 certified, every change accounted for. */
module SweepTheorems {
  import opened Basics
  import opened GroupSync
  import opened EmailStatus
  import opened Plan
  import opened Apply
  import opened Sweep
  import opened SweepSteps

  ghost predicate NormalAudiences(audiences: Audiences) {
    forall g :: g in audiences ==> Normal(audiences[g])
  }

  // --------------------------------------------------------------- invariants

  /** The retry allowance: what has been retried and what is left make 25, and only
      retried addresses among the lapsed have been offered. */
  ghost predicate RetryInv(lapsed0: set<string>, s: RunState) {
    && 0 <= s.retrySlots && s.lapsed <= lapsed0
    && |lapsed0 - s.lapsed| + s.retrySlots == RETRIES_PER_RUN
    && forall i ::
         0 <= i < |s.log| && s.log[i].Offered? && s.log[i].address in lapsed0 ==> s.log[i].address !in s.lapsed
  }

  /** The refusal was Google's answer, and its address was never offered again. */
  ghost predicate LastOffer(log: Log, i: nat, r: Refusal) {
    && i < |log| && log[i] == Offered(r.groupEmail, r.address, r.outcome)
    && forall j :: i < j < |log| && log[j].Offered? ==> log[j].address != r.address
  }

  ghost predicate Lasting(log: Log, r: Refusal) {
    exists i: nat :: LastOffer(log, i, r)
  }

  ghost predicate RefusalInv(s: RunState) {
    && (forall j, k :: 0 <= j < k < |s.refusals| ==> s.refusals[j].address != s.refusals[k].address)
    && (forall k :: 0 <= k < |s.refusals| ==>
          && s.refusals[k].outcome.Unmirrorable()
          && Norm(s.refusals[k].address) == s.refusals[k].address && s.refusals[k].address in s.unmirrorable
          && Lasting(s.log, s.refusals[k]))
    && (forall a :: a in s.accepted ==> Norm(a) == a)
  }

  /** Addresses with a live refusal are never offered. */
  ghost predicate LiveInv(live0: set<string>, s: RunState) {
    && live0 <= s.unmirrorable
    && forall i :: 0 <= i < |s.log| && s.log[i].Offered? ==> s.log[i].address !in live0
  }

  /** The listing at `j` justifies the offer at `i`. */
  ghost predicate BacksOffer(w: World, audiences: Audiences, log: Log, j: nat, i: nat) {
    && j < i < |log| && log[i].Offered? && log[j].Listed? && log[j].entries.Some?
    && log[j].group == log[i].group && log[i].group in audiences
    && log[i].address in audiences[log[i].group]
    && (forall e :: e in log[j].entries.value ==> Norm(e.email) != log[i].address)
    && Norm(log[i].address) in w.current(log[..j + 1], log[i].group)
  }

  /** The listing at `j` justifies the removal at `i`. */
  ghost predicate BacksRemove(w: World, audiences: Audiences, log: Log, j: nat, i: nat) {
    && j < i < |log| && log[i].Removed? && log[j].Listed? && log[j].entries.Some?
    && log[j].group == log[i].group && log[i].group in audiences
    && (exists e :: e in log[j].entries.value && e.email == log[i].address
                    && e.level == Permission.Member && e.kind == Some("USER"))
    && Norm(log[i].address) !in audiences[log[i].group]
    && Norm(log[i].address) !in w.current(log[..j + 1], log[i].group)
  }

  ghost predicate Backed(w: World, audiences: Audiences, log: Log) {
    && (forall i :: 0 <= i < |log| && log[i].Offered? ==> exists j: nat :: BacksOffer(w, audiences, log, j, i))
    && (forall i :: 0 <= i < |log| && log[i].Removed? ==> exists j: nat :: BacksRemove(w, audiences, log, j, i))
  }

  function RemovesOn(log: Log, group: Email): set<int> {
    set i | 0 <= i < |log| && log[i].Removed? && log[i].group == group
  }

  /** Without permission no listed group loses more than five entries and more than a
      tenth of those listed, rounded up. */
  ghost predicate WithinBudget(log: Log, allow: bool) {
    !allow ==> forall j :: 0 <= j < |log| && log[j].Listed? && log[j].entries.Some? ==>
      var removed, listed := |RemovesOn(log, log[j].group)|, |log[j].entries.value|;
      removed <= 5 || 10 * (removed - 1) < listed
  }

  ghost predicate SafeInv(w: World, audiences: Audiences, allow: bool, done: set<Email>, s: RunState) {
    && (forall i :: 0 <= i < |s.log| ==> s.log[i].group in done)
    && Backed(w, audiences, s.log) && WithinBudget(s.log, allow)
    && (forall k :: 0 <= k < |s.outcomes| ==> Accounted(s.outcomes[k]))
  }

  /** Google showed the group present after every offer and before every removal
      this run made on it. */
  ghost predicate Certified(log: Log, p: nat, group: Email) {
    && p < |log| && log[p] == Probed(group, Present)
    && forall i :: 0 <= i < |log| && log[i].group == group ==>
         (log[i].Removed? ==> i > p) && (log[i].Offered? ==> i < p)
  }

  ghost predicate CertInv(done: set<Email>, s: RunState) {
    forall k :: 0 <= k < |s.refusals| ==>
      && s.refusals[k].groupEmail in done
      && (s.refusals[k].outcome.AddressNotFound? ==> exists p: nat :: Certified(s.log, p, s.refusals[k].groupEmail))
  }

  // --------------------------------------------------------- one group keeps them

  /** The step's facts the invariants share. */
  lemma StepEvents(w: World, group: Email, desired: map<string, Uuid>, allow: bool, s: RunState, r: RunState,
                   actual: seq<Entry>, plan: GroupPlan, retried: seq<Email>)
    requires GroupStep(w, group, desired, allow, s, r, actual, plan, retried)
    ensures s.log <= r.log && |s.log| < |r.log| && r.log[|s.log|] == Listed(group, Some(actual))
    ensures r.log[..|s.log| + 1] == s.log + [Listed(group, Some(actual))]
    ensures forall i :: |s.log| <= i < |r.log| ==> r.log[i].group == group
    ensures forall i :: |s.log| < i < |r.log| ==> !r.log[i].Listed?
    ensures forall i :: |s.log| <= i < |r.log| && r.log[i].Offered? ==>
              |s.log| < i && OfferRight(w, s, group, desired, actual, r.log[i].address)
                  && (r.log[i].address in s.lapsed ==> r.log[i].address in retried)
    ensures forall i :: |s.log| <= i < |r.log| && r.log[i].Removed? ==>
              |s.log| < i && RemoveRight(w, s, group, desired, actual, r.log[i].address)
    ensures forall i, j ::
        |s.log| <= i < j < |r.log| && r.log[i].Offered? && r.log[j].Offered? ==>
        r.log[i].address != r.log[j].address
  {
    hide OfferRight, RemoveRight, Learns, RemovesBounded, Accounted;
    var listed := s.log + [Listed(group, Some(actual))];
    assert r.log[|s.log|] == listed[|s.log|];
  }

  lemma RetryStep(w: World, group: Email, desired: map<string, Uuid>, allow: bool, s: RunState, r: RunState,
                  actual: seq<Entry>, plan: GroupPlan, retried: seq<Email>, lapsed0: set<string>)
    requires GroupStep(w, group, desired, allow, s, r, actual, plan, retried) && RetryInv(lapsed0, s)
    ensures RetryInv(lapsed0, r)
  {
    StepEvents(w, group, desired, allow, s, r, actual, plan, retried);
    assert r.lapsed == s.lapsed - ToSet(retried) && r.retrySlots == s.retrySlots - |retried|;
    hide GroupStep, OfferRight, RemoveRight;
    NoDupSize(retried);
    assert lapsed0 - r.lapsed == (lapsed0 - s.lapsed) + ToSet(retried);
    DisjointSizes(lapsed0 - s.lapsed, ToSet(retried), lapsed0 - r.lapsed);
    forall i | 0 <= i < |r.log| && r.log[i].Offered? && r.log[i].address in lapsed0
        ensures r.log[i].address !in r.lapsed {
      if i < |s.log| { assert r.log[i] == s.log[i]; }
    }
  }

  lemma LastOfferLater(s: RunState, r: RunState, i: nat, f: Refusal)
    requires LastOffer(s.log, i, f) && s.log <= r.log
    requires forall j :: |s.log| <= j < |r.log| && r.log[j].Offered? ==> r.log[j].address !in s.unmirrorable
    requires f.address in s.unmirrorable
    ensures LastOffer(r.log, i, f)
  {
    assert forall j :: 0 <= j < |s.log| ==> r.log[j] == s.log[j];
  }

  lemma RefusalStep(w: World, group: Email, desired: map<string, Uuid>, allow: bool, s: RunState, r: RunState,
                    actual: seq<Entry>, plan: GroupPlan, retried: seq<Email>)
    requires GroupStep(w, group, desired, allow, s, r, actual, plan, retried) && RefusalInv(s) && Normal(desired)
    ensures RefusalInv(r)
  {
    StepEvents(w, group, desired, allow, s, r, actual, plan, retried);
    hide PlanEvents, RemoveRight, Accounted;
    forall k | 0 <= k < |r.refusals|
      ensures r.refusals[k].outcome.Unmirrorable()
      ensures Norm(r.refusals[k].address) == r.refusals[k].address && r.refusals[k].address in r.unmirrorable
      ensures Lasting(r.log, r.refusals[k])
      ensures k >= |s.refusals| ==> r.refusals[k].address !in s.unmirrorable
    {
      var f := r.refusals[k];
      if k < |s.refusals| {
        assert f == s.refusals[k];
        var i: nat :| LastOffer(s.log, i, f);
        LastOfferLater(s, r, i, f);
      } else {
        assert OfferRight(w, s, group, desired, actual, f.address);
        var i: nat :| |s.log| + 1 <= i < |r.log| && r.log[i] == Offered(group, f.address, f.outcome);
        assert LastOffer(r.log, i, f);
      }
    }
    forall j, k | 0 <= j < k < |r.refusals| ensures r.refusals[j].address != r.refusals[k].address {
      if j < |s.refusals| { assert r.refusals[j] == s.refusals[j]; }
      if k < |s.refusals| { assert r.refusals[k] == s.refusals[k]; }
    }
    forall a | a in r.accepted ensures Norm(a) == a {
      if a !in s.accepted { assert OfferRight(w, s, group, desired, actual, a); }
    }
  }

  lemma LiveStep(w: World, group: Email, desired: map<string, Uuid>, allow: bool, s: RunState, r: RunState,
                 actual: seq<Entry>, plan: GroupPlan, retried: seq<Email>, live0: set<string>)
    requires GroupStep(w, group, desired, allow, s, r, actual, plan, retried) && LiveInv(live0, s)
    ensures LiveInv(live0, r)
  {
    StepEvents(w, group, desired, allow, s, r, actual, plan, retried);
    assert s.unmirrorable <= r.unmirrorable;
    hide GroupStep;
    forall i | 0 <= i < |r.log| && r.log[i].Offered? ensures r.log[i].address !in live0 {
      if i < |s.log| { assert r.log[i] == s.log[i]; }
    }
  }

  lemma BackedStep(w: World, group: Email, allow: bool, s: RunState, r: RunState,
                   actual: seq<Entry>, plan: GroupPlan, retried: seq<Email>, audiences: Audiences)
    requires group in audiences && GroupStep(w, group, audiences[group], allow, s, r, actual, plan, retried)
    requires Backed(w, audiences, s.log)
    ensures Backed(w, audiences, r.log)
  {
    StepEvents(w, group, audiences[group], allow, s, r, actual, plan, retried);
    hide GroupStep;
    forall i | 0 <= i < |r.log| && r.log[i].Offered? ensures exists j: nat :: BacksOffer(w, audiences, r.log, j, i) {
      if i < |s.log| {
        assert r.log[i] == s.log[i];
        var j: nat :| BacksOffer(w, audiences, s.log, j, i);
        assert r.log[j] == s.log[j] && r.log[..j + 1] == s.log[..j + 1];
        assert BacksOffer(w, audiences, r.log, j, i);
      } else {
        assert BacksOffer(w, audiences, r.log, |s.log|, i);
      }
    }
    forall i | 0 <= i < |r.log| && r.log[i].Removed? ensures exists j: nat :: BacksRemove(w, audiences, r.log, j, i) {
      if i < |s.log| {
        assert r.log[i] == s.log[i];
        var j: nat :| BacksRemove(w, audiences, s.log, j, i);
        assert r.log[j] == s.log[j] && r.log[..j + 1] == s.log[..j + 1];
        assert BacksRemove(w, audiences, r.log, j, i);
      } else {
        assert BacksRemove(w, audiences, r.log, |s.log|, i);
      }
    }
  }

  lemma BudgetStep(w: World, group: Email, desired: map<string, Uuid>, allow: bool, s: RunState, r: RunState,
                   actual: seq<Entry>, plan: GroupPlan, retried: seq<Email>)
    requires GroupStep(w, group, desired, allow, s, r, actual, plan, retried)
    requires (forall i :: 0 <= i < |s.log| ==> s.log[i].group != group) && WithinBudget(s.log, allow)
    ensures WithinBudget(r.log, allow)
  {
    StepEvents(w, group, desired, allow, s, r, actual, plan, retried);
    assert RemovesBounded(s.log + [Listed(group, Some(actual))], r.log, |plan.removes|);
    assert !allow ==> FewEnough(|plan.removes|, |actual|);
    hide GroupStep, OfferRight, RemoveRight;
    assert forall i :: 0 <= i < |s.log| ==> r.log[i] == s.log[i];
    forall j | !allow && 0 <= j < |r.log| && r.log[j].Listed? && r.log[j].entries.Some?
      ensures FewEnough(|RemovesOn(r.log, r.log[j].group)|, |r.log[j].entries.value|)
    {
      if j < |s.log| {
        assert RemovesOn(r.log, r.log[j].group) == RemovesOn(s.log, s.log[j].group);
      } else {
        assert RemovesOn(r.log, group) == set i | |s.log + [Listed(group, Some(actual))]| <= i < |r.log|
            && r.log[i].Removed?;
      }
    }
  }

  lemma CertStep(w: World, group: Email, desired: map<string, Uuid>, allow: bool, s: RunState, r: RunState,
                 actual: seq<Entry>, plan: GroupPlan, retried: seq<Email>, done: set<Email>)
    requires GroupStep(w, group, desired, allow, s, r, actual, plan, retried) && CertInv(done, s)
    requires group !in done && forall i :: 0 <= i < |s.log| ==> s.log[i].group in done
    ensures CertInv(done + {group}, r)
  {
    StepEvents(w, group, desired, allow, s, r, actual, plan, retried);
    hide OfferRight, RemoveRight, PlanEvents, Accounted;
    assert forall i :: 0 <= i < |s.log| ==> r.log[i] == s.log[i];
    forall k | 0 <= k < |r.refusals|
      ensures r.refusals[k].groupEmail in done + {group}
      ensures r.refusals[k].outcome.AddressNotFound? ==> exists p: nat :: Certified(r.log, p, r.refusals[k].groupEmail)
    {
      var f := r.refusals[k];
      if k < |s.refusals| {
        assert f == s.refusals[k];
        if f.outcome.AddressNotFound? {
          var p: nat :| Certified(s.log, p, f.groupEmail);
          assert Certified(r.log, p, f.groupEmail);
        }
      } else if f.outcome.AddressNotFound? {
        var p: nat :| CertifiedAt(r.log, |s.log| + 1, p, group);
        assert Certified(r.log, p, group);
      }
    }
  }

  // ------------------------------------------------------------- the whole loop

  ghost predicate RunInv(w: World, audiences: Audiences, allow: bool, statuses: EmailStatuses, done: set<Email>,
      s: RunState) {
    && RetryInv(statuses.Lapsed(), s) && RefusalInv(s) && LiveInv(statuses.live, s)
    && SafeInv(w, audiences, allow, done, s) && CertInv(done, s)
  }

  /** The run with one more listing Google refused. */
  function Unlisted(s: RunState, group: Email): RunState {
    s.(log := s.log + [Listed(group, None)], outcomes := s.outcomes + [ListingFailed(group)])
  }

  lemma ListingFailedRefusals(s: RunState, group: Email)
    requires RefusalInv(s)
    ensures RefusalInv(Unlisted(s, group))
  {
    var r := Unlisted(s, group);
    forall k | 0 <= k < |s.refusals| ensures Lasting(r.log, r.refusals[k]) {
      var i: nat :| LastOffer(s.log, i, s.refusals[k]);
      assert r.log[i] == s.log[i];
      assert LastOffer(r.log, i, r.refusals[k]);
    }
  }

  lemma ListingFailedCert(done: set<Email>, s: RunState, group: Email)
    requires CertInv(done, s)
    ensures CertInv(done + {group}, Unlisted(s, group))
  {
    var r := Unlisted(s, group);
    forall k | 0 <= k < |s.refusals| && s.refusals[k].outcome.AddressNotFound?
      ensures exists p: nat :: Certified(r.log, p, r.refusals[k].groupEmail)
    {
      var p: nat :| Certified(s.log, p, s.refusals[k].groupEmail);
      assert Certified(r.log, p, r.refusals[k].groupEmail);
    }
  }

  lemma ListingFailedBudgets(lapsed0: set<string>, live0: set<string>, s: RunState, group: Email)
    requires RetryInv(lapsed0, s) && LiveInv(live0, s)
    ensures RetryInv(lapsed0, Unlisted(s, group)) && LiveInv(live0, Unlisted(s, group))
  {
    assert forall i :: 0 <= i < |s.log| ==> Unlisted(s, group).log[i] == s.log[i];
  }

  /** A listing Google refused changes nothing but the log and the report. */
  lemma ListingFailedInv(w: World, audiences: Audiences, allow: bool, statuses: EmailStatuses, done: set<Email>,
      s: RunState, group: Email)
    requires RunInv(w, audiences, allow, statuses, done, s)
    ensures RunInv(w, audiences, allow, statuses, done + {group}, Unlisted(s, group))
  {
    hide RetryInv, RefusalInv, LiveInv, SafeInv, CertInv, Unlisted;
    ListingFailedRefusals(s, group);
    ListingFailedCert(done, s, group);
    ListingFailedBudgets(statuses.Lapsed(), statuses.live, s, group);
    ListingFailedSafe(w, audiences, allow, done, s, group);
  }

  lemma ListingFailedSafe(w: World, audiences: Audiences, allow: bool, done: set<Email>, s: RunState, group: Email)
    requires SafeInv(w, audiences, allow, done, s)
    ensures SafeInv(w, audiences, allow, done + {group}, Unlisted(s, group))
  {
    var r := Unlisted(s, group);
    assert forall i :: 0 <= i < |s.log| ==> r.log[i] == s.log[i];
    forall i | 0 <= i < |r.log| && r.log[i].Offered? ensures exists j: nat :: BacksOffer(w, audiences, r.log, j, i) {
      var j: nat :| BacksOffer(w, audiences, s.log, j, i);
      assert r.log[..j + 1] == s.log[..j + 1];
      assert BacksOffer(w, audiences, r.log, j, i);
    }
    forall i | 0 <= i < |r.log| && r.log[i].Removed? ensures exists j: nat :: BacksRemove(w, audiences, r.log, j, i) {
      var j: nat :| BacksRemove(w, audiences, s.log, j, i);
      assert r.log[..j + 1] == s.log[..j + 1];
      assert BacksRemove(w, audiences, r.log, j, i);
    }
    forall j | !allow && 0 <= j < |r.log| && r.log[j].Listed? && r.log[j].entries.Some?
      ensures FewEnough(|RemovesOn(r.log, r.log[j].group)|, |r.log[j].entries.value|)
    {
      assert RemovesOn(r.log, r.log[j].group) == RemovesOn(s.log, s.log[j].group);
    }
  }

  lemma GroupInv(w: World, audiences: Audiences, allow: bool, statuses: EmailStatuses, done: set<Email>,
      s: RunState, group: Email)
    requires RunInv(w, audiences, allow, statuses, done, s) && group !in done
    requires group in audiences && NormalAudiences(audiences)
    ensures RunInv(w, audiences, allow, statuses, done + {group}, SweptGroup(w, group, audiences[group], allow, s))
  {
    var desired, r := audiences[group], SweptGroup(w, group, audiences[group], allow, s);
    if w.google.list(s.log, group).None? {
      ListingFailedInv(w, audiences, allow, statuses, done, s, group);
    } else {
      var actual := w.google.list(s.log, group).value;
      var plan, retried := SweptGroupStep(w, group, desired, allow, s);
      hide SweptGroup, GroupStep, RetryInv, RefusalInv, LiveInv, CertInv, Backed, WithinBudget;
      RetryStep(w, group, desired, allow, s, r, actual, plan, retried, statuses.Lapsed());
      RefusalStep(w, group, desired, allow, s, r, actual, plan, retried);
      LiveStep(w, group, desired, allow, s, r, actual, plan, retried, statuses.live);
      BackedStep(w, group, allow, s, r, actual, plan, retried, audiences);
      BudgetStep(w, group, desired, allow, s, r, actual, plan, retried);
      CertStep(w, group, desired, allow, s, r, actual, plan, retried, done);
      StepEvents(w, group, desired, allow, s, r, actual, plan, retried);
      StepOutcomes(w, group, desired, allow, s, r, actual, plan, retried);
      assert forall i :: 0 <= i < |s.log| ==> r.log[i] == s.log[i];
    }
  }

  lemma StepOutcomes(w: World, group: Email, desired: map<string, Uuid>, allow: bool, s: RunState, r: RunState,
                     actual: seq<Entry>, plan: GroupPlan, retried: seq<Email>)
    requires GroupStep(w, group, desired, allow, s, r, actual, plan, retried)
    requires forall k :: 0 <= k < |s.outcomes| ==> Accounted(s.outcomes[k])
    ensures forall k :: 0 <= k < |r.outcomes| ==> Accounted(r.outcomes[k])
  {
    hide PlanEvents, Learns, OfferRight, RemoveRight, Accounted;
    assert forall k :: 0 <= k < |s.outcomes| ==> r.outcomes[k] == s.outcomes[k];
  }

  lemma {:induction false} GroupsInv(w: World, groups: seq<Email>, audiences: Audiences, allow: bool,
      statuses: EmailStatuses, done: set<Email>, s: RunState)
    requires RunInv(w, audiences, allow, statuses, done, s) && NormalAudiences(audiences)
    requires NoDup(groups) && forall g :: g in groups ==> g in audiences && g !in done
    ensures RunInv(w, audiences, allow, statuses, done + ToSet(groups), SweptGroups(w, groups, audiences, allow, s))
    decreases |groups|
  {
    hide RunInv, SweptGroup, NormalAudiences;
    if groups == [] {
      assert done + ToSet(groups) == done;
    } else {
      assert groups[0] in groups;
      GroupInv(w, audiences, allow, statuses, done, s, groups[0]);
      assert forall g :: g in groups[1..] ==> g in groups && g != groups[0];
      GroupsInv(w, groups[1..], audiences, allow, statuses, done + {groups[0]},
          SweptGroup(w, groups[0], audiences[groups[0]], allow, s));
      assert groups == [groups[0]] + groups[1..];
      assert done + {groups[0]} + ToSet(groups[1..]) == done + ToSet(groups);
    }
  }

  lemma StartInv(w: World, audiences: Audiences, statuses: EmailStatuses, allow: bool)
    ensures RunInv(w, audiences, allow, statuses, {}, StartRun(statuses))
  {
    assert statuses.Lapsed() - StartRun(statuses).lapsed == {};
  }

  /** Every invariant holds at the end of every run. */
  lemma RunKeepsInv(w: World, audiences: Audiences, statuses: EmailStatuses, allow: bool)
    requires NormalAudiences(audiences)
    ensures RunInv(w, audiences, allow, statuses, audiences.Keys, RunGroups(w, audiences, statuses, allow))
  {
    StartInv(w, audiences, statuses, allow);
    hide RunInv, NormalAudiences, StartRun, SweptGroups, SortedKeys;
    GroupsInv(w, SortedKeys(audiences.Keys), audiences, allow, statuses, {}, StartRun(statuses));
    assert {} + ToSet(SortedKeys(audiences.Keys)) == audiences.Keys;
  }

  // ------------------------------------------------------------ the main results

  /** The addresses among `xs` that a run offered to Google. */
  function OfferedAmong(log: Log, xs: set<string>): set<string> {
    set i | 0 <= i < |log| && log[i].Offered? && log[i].address in xs :: log[i].address
  }

  /** The retry allowance of a whole run: at most 25 distinct lapsed addresses are
      ever offered, the slots never run negative, and no address whose refusal is
      still live is offered at all. */
  lemma RetryBudget(w: World, audiences: Audiences, statuses: EmailStatuses, allow: bool)
    requires NormalAudiences(audiences)
    ensures var s := RunGroups(w, audiences, statuses, allow);
            && 0 <= s.retrySlots
            && |OfferedAmong(s.log, statuses.Lapsed())| + s.retrySlots <= 25
            && OfferedAmong(s.log, statuses.live) == {}
  {
    RunKeepsInv(w, audiences, statuses, allow);
    hide RunGroups, SafeInv, CertInv, RefusalInv;
    var s := RunGroups(w, audiences, statuses, allow);
    SubsetSize(OfferedAmong(s.log, statuses.Lapsed()), statuses.Lapsed() - s.lapsed);
  }

  /** A run meets each refusal once: no two are for one address, each was Google's
      answer to an offer, that address is never offered again in any group, and a
      404 among them was read while Google still showed the group. */
  lemma RefusalsMetOnce(w: World, audiences: Audiences, statuses: EmailStatuses, allow: bool)
    requires NormalAudiences(audiences)
    ensures var s := RunGroups(w, audiences, statuses, allow);
            && (forall j, k :: 0 <= j < k < |s.refusals| ==> s.refusals[j].address != s.refusals[k].address)
            && (forall k :: 0 <= k < |s.refusals| ==> Lasting(s.log, s.refusals[k]))
            && (forall k :: 0 <= k < |s.refusals| && s.refusals[k].outcome.AddressNotFound? ==>
                  exists p: nat :: Certified(s.log, p, s.refusals[k].groupEmail))
  {
    RunKeepsInv(w, audiences, statuses, allow);
    hide RunGroups, SafeInv, RetryInv, LiveInv;
  }

  /** Every call is justified by the listing of its group: an offer by both reads of
      the records and the address being missing, a removal by a plain entry neither
      read wants; and no group loses more than its budget unless that is allowed. */
  lemma EveryCallJustified(w: World, audiences: Audiences, statuses: EmailStatuses, allow: bool)
    requires NormalAudiences(audiences)
    ensures var s := RunGroups(w, audiences, statuses, allow);
            Backed(w, audiences, s.log) && WithinBudget(s.log, allow)
  {
    RunKeepsInv(w, audiences, statuses, allow);
    hide RunGroups, CertInv, RefusalInv, RetryInv, LiveInv;
  }

  lemma {:induction false} KnownRefusals(refusals: seq<Refusal>, known: set<string>, offered: set<string>)
    requires forall k :: 0 <= k < |refusals| ==> Norm(refusals[k].address) == refusals[k].address
    requires forall j, k :: 0 <= j < k < |refusals| ==> refusals[j].address != refusals[k].address
    requires forall k :: 0 <= k < |refusals| && refusals[k].address in known ==> refusals[k].address in offered
    ensures |refusals| - News(refusals, known) <= |offered|
  {
    if refusals != [] {
      var n := |refusals| - 1;
      var last := refusals[n].address;
      KnownRefusals(refusals[..n], known, if last in known then offered - {last} else offered);
    }
  }

  /** A bootstrapped run writes at most 50 refusals: 25 new ones, or none at all,
      and 25 retries - however many groups there are and whatever Google answers. */
  lemma WholeRunWriteBound(w: World, audiences: Audiences, store: StatusStore, allow: bool, dryRun: bool,
      writes: Writes, now: int)
    requires NormalAudiences(audiences) && store.bootstrapped
    ensures var statuses := ReadStatuses(store.rows, None, now);
            var s := RunGroups(w, audiences, statuses, allow);
            var (after, report) := Committed(store, s.refusals, statuses.Lapsed(), dryRun, writes.refusals, now);
            && report.received == |s.refusals| && report.retries <= 25 && report.recorded <= 50
            && |Changed(store.rows, after.rows)| <= report.recorded
            && (report.received - report.retries > 25 ==> after == store && report.recorded == 0)
  {
    hide RunGroups, SafeInv, CertInv, LiveInv, RetryInv, ReadStatuses, RefusalFuse, RecordRefusals, NormalAudiences;
    var statuses := ReadStatuses(store.rows, None, now);
    var s := RunGroups(w, audiences, statuses, allow);
    RunKeepsInv(w, audiences, statuses, allow);
    RetryBudget(w, audiences, statuses, allow);
    var offered := OfferedAmong(s.log, statuses.Lapsed());
    forall k | 0 <= k < |s.refusals| && s.refusals[k].address in statuses.Lapsed()
      ensures s.refusals[k].address in offered
    {
      assert Lasting(s.log, s.refusals[k]);
      var i: nat :| LastOffer(s.log, i, s.refusals[k]);
    }
    hide OfferedAmong, Committed, Changed, Lasting;
    KnownRefusals(s.refusals, statuses.Lapsed(), offered);
    CommitBound(store, s.refusals, statuses.Lapsed(), dryRun, writes.refusals, now);
  }

  /** An armed commit writes no more new refusals than the ceiling. */
  lemma CommitBound(store: StatusStore, refusals: seq<Refusal>, known: set<string>, dryRun: bool,
      lands: nat -> bool, now: int)
    requires store.bootstrapped
    ensures var (after, report) := Committed(store, refusals, known, dryRun, lands, now);
            && report.received == |refusals| && report.retries == |refusals| - News(refusals, known)
            && report.recorded <= REFUSAL_FUSE_CEILING + report.retries
            && |Changed(store.rows, after.rows)| <= report.recorded
            && (report.received - report.retries > REFUSAL_FUSE_CEILING ==> after == store && report.recorded == 0)
  {
    ChangedBound(store.rows, refusals, lands, now);
    assert Changed(store.rows, store.rows) == {};
    hide RecordRefusals, Changed;
  }

  /** A green run settled every change it planned in every group, refused none of
      them, and wrote down every refusal it carried out of its groups. */
  lemma GreenRunSettles(w: World, audiences: Audiences, store: StatusStore, provisionFailed: bool, allow: bool,
      writes: Writes, now: int)
    requires NormalAudiences(audiences)
    ensures var r := SweepRun(w, audiences, store, true, provisionFailed, allow, false, writes, now);
            && r.report.refusals.Some?
            && (!r.report.HasFailures() ==>
                  && (forall k :: 0 <= k < |r.report.groups| ==>
                        var o := r.report.groups[k];
                        o.failed == 0 && o.refused == 0 && o.Settled() == o.plannedAdds + o.plannedRemoves)
                  && r.report.refusals.value.recorded == |r.s.refusals|)
  {
    hide RunGroups, Committed, Remembered, CertInv, LiveInv, RetryInv, RefusalInv, ReadStatuses, Backed,
        WithinBudget, NormalAudiences;
    var statuses := ReadStatuses(store.rows, None, now);
    var s := RunGroups(w, audiences, statuses, allow);
    RunKeepsInv(w, audiences, statuses, allow);
    RecordedBound(s.refusals, statuses, store, writes, now);
    var r := SweepRun(w, audiences, store, true, provisionFailed, allow, false, writes, now);
    assert forall k :: 0 <= k < |s.outcomes| ==> Accounted(s.outcomes[k]) && s.outcomes[k] in s.outcomes;
  }

  lemma RecordedBound(refusals: seq<Refusal>, statuses: EmailStatuses, store: StatusStore, writes: Writes, now: int)
    ensures var report := Committed(store, refusals, statuses.Lapsed(), false, writes.refusals, now).1;
            report.received == |refusals| && report.recorded <= |refusals|
  {
  }

  // --------------------------------------------------- accepted against refused

  /** A refusal of `a` that reached the store. */
  ghost predicate RefusedWritten(refusals: seq<Refusal>, lands: nat -> bool, a: string) {
    exists k: nat :: k < |refusals| && lands(k) && Norm(refusals[k].address) == a
  }

  /** The status an answer is recorded as. */
  predicate RecordsAs(outcome: SyncOutcome, status: AddressStatus) {
    status == if outcome == NoGoogleAccount then RefusedNoAccount else RefusedNotFound
  }

  /** One of them was for this outcome. */
  ghost predicate WrittenAs(refusals: seq<Refusal>, lands: nat -> bool, a: string, status: AddressStatus) {
    exists k: nat ::
      k < |refusals| && lands(k) && Norm(refusals[k].address) == a && RecordsAs(refusals[k].outcome, status)
  }

  lemma {:induction false} RecordedAt(rows: StatusTable, refusals: seq<Refusal>, lands: nat -> bool, now: int,
      a: string)
    ensures var r := RecordRefusals(rows, refusals, lands, now).0;
            if RefusedWritten(refusals, lands, a) then
              && a in r && !r[a].status.Accepted? && r[a].observedAt == now
              && WrittenAs(refusals, lands, a, r[a].status)
            else (a in r <==> a in rows) && (a in rows ==> r[a] == rows[a])
  {
    if refusals != [] {
      var n := |refusals| - 1;
      RecordedAt(rows, refusals[..n], lands, now, a);
      if k: nat :| k < |refusals| && lands(k) && Norm(refusals[k].address) == a {
        if k < n { assert refusals[..n][k] == refusals[k]; }
      }
      if k: nat :| k < n && lands(k) && Norm(refusals[..n][k].address) == a {
        assert refusals[k] == refusals[..n][k];
      }
      var before := RecordRefusals(rows, refusals[..n], lands, now).0;
      if a in before && WrittenAs(refusals[..n], lands, a, before[a].status) {
        var k: nat :| k < n && lands(k) && Norm(refusals[..n][k].address) == a
            && RecordsAs(refusals[..n][k].outcome, before[a].status);
        assert refusals[k] == refusals[..n][k];
      }
    }
  }

  /** An address written `a` in lower case was taken, and the write of that landed. */
  ghost predicate AcceptWritten(accepted: set<Email>, lands: Email -> bool, a: string) {
    exists x :: x in accepted && Norm(x) == a && lands(x)
  }

  /** The final record of any address: accepted now, if it was taken, was not on record
      as accepted and the write landed; otherwise refused now, if the fuse was quiet and
      a refusal of it was written; otherwise as it was before the run. */
  lemma RowAtRunsEnd(s: RunState, store: StatusStore, writes: Writes, now: int, a: string)
    ensures var statuses := ReadStatuses(store.rows, None, now);
            var rows := WriteDown(s, statuses, store, false, writes, now).0.rows;
            var tripped := RefusalFuse(store.bootstrapped, News(s.refusals, statuses.Lapsed()));
            if AcceptWritten(s.accepted, writes.accepts, a) && a !in statuses.accepted then
              a in rows && rows[a] == StatusRow(Accepted, now)
            else if !tripped && RefusedWritten(s.refusals, writes.refusals, a) then
              && a in rows && !rows[a].status.Accepted? && rows[a].observedAt == now
              && WrittenAs(s.refusals, writes.refusals, a, rows[a].status)
            else (a in rows <==> a in store.rows) && (a in rows ==> rows[a] == store.rows[a])
  {
    RecordedAt(store.rows, s.refusals, writes.refusals, now, a);
    var newly := NewlyAccepted(s.accepted, ReadStatuses(store.rows, None, now));
    if x :| x in newly && Norm(x) == a && writes.accepts(x) {
      assert AcceptWritten(s.accepted, writes.accepts, a);
    }
    hide RefusedWritten, WrittenAs, RecordRefusals, ReadStatuses, Norm, News;
  }

  /** The same of a run whose addresses are in lower case, as they are in every audience. */
  lemma NormalRowAtRunsEnd(s: RunState, store: StatusStore, writes: Writes, now: int, a: string)
    requires forall x :: x in s.accepted ==> Norm(x) == x
    ensures var statuses := ReadStatuses(store.rows, None, now);
            var rows := WriteDown(s, statuses, store, false, writes, now).0.rows;
            var tripped := RefusalFuse(store.bootstrapped, News(s.refusals, statuses.Lapsed()));
            if a in s.accepted && a !in statuses.accepted && writes.accepts(a) then
              a in rows && rows[a] == StatusRow(Accepted, now)
            else if !tripped && RefusedWritten(s.refusals, writes.refusals, a) then
              && a in rows && !rows[a].status.Accepted? && rows[a].observedAt == now
              && WrittenAs(s.refusals, writes.refusals, a, rows[a].status)
            else (a in rows <==> a in store.rows) && (a in rows ==> rows[a] == store.rows[a])
  {
    RowAtRunsEnd(s, store, writes, now, a);
    assert AcceptWritten(s.accepted, writes.accepts, a) <==> a in s.accepted && writes.accepts(a);
    hide RefusedWritten, WrittenAs, WriteDown, ReadStatuses, Norm, News, AcceptWritten;
  }

  /** Whether an address some group took ends on record as accepted. One recorded so
      before the run does unless a refusal of it was written, the fuse being quiet: its
      acceptance is not written again. Any other does exactly when the write of its
      acceptance landed. */
  lemma AcceptOutranksRefuse(s: RunState, store: StatusStore, writes: Writes, now: int, a: Email)
    requires a in s.accepted && forall x :: x in s.accepted ==> Norm(x) == x
    ensures var statuses := ReadStatuses(store.rows, None, now);
            var rows := WriteDown(s, statuses, store, false, writes, now).0.rows;
            var tripped := RefusalFuse(store.bootstrapped, News(s.refusals, statuses.Lapsed()));
            a in rows && rows[a].status.Accepted? <==>
                if a in statuses.accepted then tripped || !RefusedWritten(s.refusals, writes.refusals, a)
                else writes.accepts(a)
  {
    NormalRowAtRunsEnd(s, store, writes, now, a);
    assert var statuses := ReadStatuses(store.rows, None, now);
        a in statuses.accepted <==> a in store.rows && store.rows[a].status.Accepted?;
    hide RefusedWritten, WrittenAs, WriteDown, ReadStatuses;
  }
}
