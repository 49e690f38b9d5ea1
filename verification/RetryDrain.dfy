/** A lapsed cohort drains: run after run within one retry window, at a Google that
    answers definitively, each run settles the next 25 lapsed addresses over all the
    groups, and a settled one never comes back. */
module RetryDrain {
  import opened Basics
  import opened GroupSync
  import opened EmailStatus
  import opened Plan
  import opened Apply
  import opened Sweep
  import opened SweepSteps
  import opened SweepTheorems
  import opened Convergence
  import opened WholeConvergence

  /** What lasts from one run to the next: the status store and the groups' lists. */
  datatype Standing = Standing(store: StatusStore, lists: Email -> seq<Entry>)

  /** The fixed surroundings: the groups' desired addresses - each member has only the
      one - and those Google refuses. */
  datatype Setting = Setting(audiences: Audiences, refuses: Verdicts, allow: bool)

  /** What a run finds; the records do not change while it runs. */
  function SceneOf(env: Setting, d: Standing): Scene {
    Scene(d.lists, env.refuses, env.audiences,
      (log: Log, g: Email) => if g in env.audiences then env.audiences[g] else map[], env.allow)
  }

  function EndOfRun(env: Setting, d: Standing, now: int): RunState {
    RunGroups(WorldAt(SceneOf(env, d)), env.audiences, ReadStatuses(d.store.rows, None, now), env.allow)
  }

  /** One whole run, every write landing. */
  function RunOnce(env: Setting, d: Standing, now: int): Standing {
    var s := EndOfRun(env, d, now);
    Standing(WriteDown(s, ReadStatuses(d.store.rows, None, now), d.store, false, EVERY, now).0,
             NextScene(SceneOf(env, d), s).bases)
  }

  function RunAll(env: Setting, d: Standing, times: seq<int>): Standing
    decreases |times|
  {
    if times == [] then d else RunAll(env, RunOnce(env, d, times[0]), times[1..])
  }

  // ------------------------------------------------------------------ measures

  predicate RefusedRow(rows: StatusTable, a: string) {
    a in rows && !rows[a].status.Accepted?
  }

  /** The addresses some group lacks. */
  function Lacking(env: Setting, d: Standing): set<string> {
    Wanting(SceneOf(env, d))
  }

  /** Those whose refusal is no newer than `cutoff`. */
  function Undecided(env: Setting, d: Standing, cutoff: int): set<string> {
    set a | a in Lacking(env, d) && RefusedRow(d.store.rows, a) && d.store.rows[a].observedAt <= cutoff
  }

  /** Those never refused that Google will refuse: what the fuse will count as news. */
  function Unlearned(env: Setting, d: Standing): set<string> {
    set a | a in Lacking(env, d) && !RefusedRow(d.store.rows, a) && a in env.refuses
  }

  /** No refusal lapses between `first` and `last`. */
  ghost predicate OneWindow(rows: StatusTable, first: int, last: int) {
    && first <= last && last - RETRY_AFTER < first
    && forall a :: a in rows && !rows[a].status.Accepted? ==>
         rows[a].observedAt <= first - RETRY_AFTER || rows[a].observedAt > last - RETRY_AFTER
  }

  ghost predicate Sound(env: Setting) {
    AllVerdicts(env.refuses) && NormalAudiences(env.audiences)
  }

  // ------------------------------------------------------------------- one run

  /** The lapsed addresses a run retries. */
  function Retried(env: Setting, d: Standing, now: int): set<string> {
    ReadStatuses(d.store.rows, None, now).Lapsed() - EndOfRun(env, d, now).lapsed
  }

  /** The addresses a run offers: all that is lacking and was never refused, and the
      retried. */
  function Offers(env: Setting, d: Standing, now: int): set<string> {
    set a | a in Lacking(env, d) && (!RefusedRow(d.store.rows, a) || a in Retried(env, d, now))
  }

  lemma StatusesRead(rows: StatusTable, now: int)
    ensures var st := ReadStatuses(rows, None, now);
            && (forall a :: a in st.Lapsed() <==> RefusedRow(rows, a) && !IsLive(rows[a], now))
            && (forall a :: a in st.live <==> RefusedRow(rows, a) && IsLive(rows[a], now))
            && (forall a :: a in st.accepted <==> a in rows && rows[a].status.Accepted?)
  {
  }

  lemma RunHalfway(env: Setting, d: Standing, now: int)
    requires Sound(env)
    ensures var statuses := ReadStatuses(d.store.rows, None, now);
            var s := EndOfRun(env, d, now);
            && Halfway(SceneOf(env, d), statuses, env.audiences.Keys, s)
            && RefusalInv(s) && RetryInv(statuses.Lapsed(), s)
  {
    var c, statuses := SceneOf(env, d), ReadStatuses(d.store.rows, None, now);
    hide RunGroups, RetryInv, RefusalInv, LiveInv, SafeInv, CertInv, Halfway, ReadStatuses;
    OneRunOffers(c, statuses);
    RunKeepsInv(WorldAt(c), c.audiences, statuses, c.allow);
  }

  lemma LackingMeans(env: Setting, d: Standing, k: string)
    ensures k in Lacking(env, d) <==> exists g :: Missing(SceneOf(env, d), g, k)
  {
    hide Keys;
    if g :| Missing(SceneOf(env, d), g, k) { MissingIsWanting(SceneOf(env, d), g, k); }
    if k in Lacking(env, d) {
      var g :| g in env.audiences && k in env.audiences[g] && k !in Keys(d.lists(g));
      assert Missing(SceneOf(env, d), g, k);
    }
  }

  /** A run spends its retries on undecided addresses, 25 at most, all of them if it
      has slots to spare. */
  lemma RetriesSpent(env: Setting, d: Standing, now: int, cutoff: int)
    requires Sound(env) && WindowAt(d.store.rows, now, cutoff)
    ensures var retried := Retried(env, d, now);
            && retried <= Undecided(env, d, cutoff) && |retried| <= RETRIES_PER_RUN
            && (|retried| < RETRIES_PER_RUN ==> retried == Undecided(env, d, cutoff))
  {
    var c, s, retried := SceneOf(env, d), EndOfRun(env, d, now), Retried(env, d, now);
    RunHalfway(env, d, now);
    StatusesRead(d.store.rows, now);
    hide EndOfRun, ReadStatuses, Knows, Missing, Shows, RefusedIn, EntriesAt, Wanting, IsLive, SceneOf, Sound;
    assert retried <= Undecided(env, d, cutoff);
    if |retried| < RETRIES_PER_RUN {
      forall a | a in Undecided(env, d, cutoff) ensures a in retried {
        LackingMeans(env, d, a);
        var g :| Missing(c, g, a);
        MissingInAudience(c, g, a);
      }
    }
  }

  lemma MissingInAudience(c: Scene, g: Email, k: string)
    ensures Missing(c, g, k) ==> g in c.audiences
  {
  }

  /** The verdicts of a run, from what it withheld. */
  lemma HalfwayMeans(c: Scene, statuses: EmailStatuses, s: RunState)
    requires Halfway(c, statuses, c.audiences.Keys, s)
    ensures forall a :: a in RefusedIn(s) <==>
        a in Wanting(c) && a in c.refuses && a !in statuses.live && a !in s.lapsed
    ensures forall a :: a in s.accepted <==>
        a in Wanting(c) && a !in c.refuses && a !in statuses.live && a !in s.lapsed
  {
    hide Keys, Shows, RefusedIn, EntriesAt;
    forall a | a in Wanting(c) && a !in statuses.live && a !in s.lapsed
      ensures if a in c.refuses then a in RefusedIn(s) else a in s.accepted
    {
      var g :| g in c.audiences && a in c.audiences[g] && a !in Keys(c.bases(g));
      assert Missing(c, g, a);
    }
  }

  /** The offers are what was lacking and not withheld. */
  lemma OffersMean(env: Setting, d: Standing, now: int)
    requires Sound(env)
    ensures var statuses, s := ReadStatuses(d.store.rows, None, now), EndOfRun(env, d, now);
            forall a :: a in Offers(env, d, now) <==>
              a in Lacking(env, d) && a !in statuses.live && a !in s.lapsed
  {
    RunHalfway(env, d, now);
    StatusesRead(d.store.rows, now);
    hide EndOfRun, ReadStatuses, IsLive, Lacking, Halfway, RefusalInv, Sound;
  }

  /** Google refused what it would of the offers and took the rest. */
  lemma VerdictsMet(env: Setting, d: Standing, now: int)
    requires Sound(env)
    ensures var s, offers := EndOfRun(env, d, now), Offers(env, d, now);
            && (forall a :: a in RefusedIn(s) <==> a in offers && a in env.refuses)
            && (forall a :: a in s.accepted <==> a in offers && a !in env.refuses)
  {
    RunHalfway(env, d, now);
    OffersMean(env, d, now);
    HalfwayMeans(SceneOf(env, d), ReadStatuses(d.store.rows, None, now), EndOfRun(env, d, now));
    hide EndOfRun, ReadStatuses, Halfway, RefusedIn, Offers, Wanting, RefusalInv, RetryInv, Sound;
  }

  /** What the groups still lack: all but the offers Google took. */
  lemma LackingAfter(env: Setting, d: Standing, now: int)
    requires Sound(env)
    ensures forall a :: a in Lacking(env, RunOnce(env, d, now)) <==>
        a in Lacking(env, d) && !(a in Offers(env, d, now) && a !in env.refuses)
  {
    var c, s, after := SceneOf(env, d), EndOfRun(env, d, now), RunOnce(env, d, now);
    RunHalfway(env, d, now);
    StatusesRead(d.store.rows, now);
    forall a ensures a in Lacking(env, after) <==>
        a in Lacking(env, d) && !(a in Offers(env, d, now) && a !in env.refuses)
    {
      LackingMeans(env, d, a);
      LackingMeans(env, after, a);
      forall g ensures Missing(SceneOf(env, after), g, a) <==>
          Missing(c, g, a) && !(a in Offers(env, d, now) && a !in env.refuses)
      {
        LackedAfter(env, d, now, g, a);
      }
    }
  }

  lemma LackedAfter(env: Setting, d: Standing, now: int, g: Email, a: string)
    requires Sound(env)
    ensures Missing(SceneOf(env, RunOnce(env, d, now)), g, a) <==>
        Missing(SceneOf(env, d), g, a) && !(a in Offers(env, d, now) && a !in env.refuses)
  {
    var c, s, live := SceneOf(env, d), EndOfRun(env, d, now), ReadStatuses(d.store.rows, None, now).live;
    RunHalfway(env, d, now);
    OffersMean(env, d, now);
    MissingIsWanting(c, g, a);
    hide EndOfRun, ReadStatuses, EntriesAt, Wanting, Sound, WriteDown, Keys, Knows, Sought, Offers, RefusalInv,
        RetryInv;
    if g in c.audiences && a in c.audiences[g] {
      assert Shows(c, live, s.lapsed, g, EntriesAt(c, g, s.log));
    }
  }

  // ----------------------------------------------------------------- the writes

  lemma {:induction false} RefusalsWritten(rows: StatusTable, refusals: seq<Refusal>, now: int)
    requires forall k :: 0 <= k < |refusals| ==> Norm(refusals[k].address) == refusals[k].address
    ensures WroteRefusals(rows, RecordRefusals(rows, refusals, EVERY.refusals, now).0, AddressesOf(refusals), now)
  {
    if refusals != [] {
      var n := |refusals| - 1;
      var last := refusals[n];
      assert refusals == refusals[..n] + [last];
      RefusalsWritten(rows, refusals[..n], now);
      var before, r :=
          RecordRefusals(rows, refusals[..n], EVERY.refusals, now).0,
          RecordRefusals(rows, refusals, EVERY.refusals, now).0;
      assert r == Record(before, last.address, StatusOf(last.outcome), now);
      FoundNext(refusals[..n], last);
    }
  }

  /** A status table after a run that offered `offers`. */
  ghost predicate Wrote(rows: StatusTable, after: StatusTable, offers: set<Email>, refuses: Verdicts, now: int) {
    && (forall a :: a in rows ==> a in after)
    && (forall a :: a in offers && a in refuses ==> RefusedRow(after, a) && after[a].observedAt == now)
    && (forall a :: a in offers && a !in refuses ==> a in after && after[a].status.Accepted?)
    && (forall a :: a in after && a !in offers ==> a in rows && after[a] == rows[a])
  }

  ghost predicate WroteRefusals(rows: StatusTable, after: StatusTable, refused: set<Email>, now: int) {
    forall a ::
      && (a in after <==> a in rows || a in refused)
      && (a in refused ==> !after[a].status.Accepted? && after[a].observedAt == now)
      && (a in rows && a !in refused ==> after[a] == rows[a])
  }

  ghost predicate WroteAccepts(rows: StatusTable, after: StatusTable, accepted: set<Email>, now: int) {
    forall a ::
      && (a in after <==> a in rows || a in accepted)
      && (a in accepted ==> after[a] == StatusRow(Accepted, now))
      && (a in rows && a !in accepted ==> after[a] == rows[a])
  }

  lemma BothWrites(rows: StatusTable, committed: StatusTable, after: StatusTable, offers: set<Email>, refuses: Verdicts,
      refused: set<Email>, newly: set<Email>, now: int)
    requires WroteRefusals(rows, committed, refused, now) && WroteAccepts(committed, after, newly, now)
    requires forall a :: a in refused <==> a in offers && a in refuses
    requires forall a :: a in newly <==> a in offers && a !in refuses && !(a in rows && rows[a].status.Accepted?)
    ensures Wrote(rows, after, offers, refuses, now)
  {
  }

  /** The status table after a run whose fuse stayed quiet. */
  lemma RowsAfter(env: Setting, d: Standing, now: int)
    requires Sound(env)
    requires !RefusalFuse(d.store.bootstrapped,
        News(EndOfRun(env, d, now).refusals, ReadStatuses(d.store.rows, None, now).Lapsed()))
    ensures Wrote(d.store.rows, RunOnce(env, d, now).store.rows, Offers(env, d, now), env.refuses, now)
  {
    var s, statuses := EndOfRun(env, d, now), ReadStatuses(d.store.rows, None, now);
    VerdictsMet(env, d, now);
    RunHalfway(env, d, now);
    StatusesRead(d.store.rows, now);
    RefusalsWritten(d.store.rows, s.refusals, now);
    var committed := RecordRefusals(d.store.rows, s.refusals, EVERY.refusals, now).0;
    WrittenRows(env, d, now);
    var newly := NewlyAccepted(s.accepted, statuses);
    hide RunOnce, EndOfRun, ReadStatuses, RecordRefusals, Offers, Remembered, WroteRefusals, WroteAccepts, Wrote,
        Halfway, RetryInv, Lasting;
    assert forall a :: a in newly <==>
        a in Offers(env, d, now) && a !in env.refuses && !(a in d.store.rows && d.store.rows[a].status.Accepted?);
    AcceptedWritten(committed, newly, now);
    BothWrites(d.store.rows, committed, RunOnce(env, d, now).store.rows, Offers(env, d, now), env.refuses,
        AddressesOf(s.refusals), newly, now);
  }

  lemma WrittenRows(env: Setting, d: Standing, now: int)
    requires !RefusalFuse(d.store.bootstrapped,
        News(EndOfRun(env, d, now).refusals, ReadStatuses(d.store.rows, None, now).Lapsed()))
    ensures var s, statuses := EndOfRun(env, d, now), ReadStatuses(d.store.rows, None, now);
            RunOnce(env, d, now).store.rows ==
              Remembered(RecordRefusals(d.store.rows, s.refusals, EVERY.refusals, now).0,
                  NewlyAccepted(s.accepted, statuses), EVERY.accepts, now)
  {
    hide EndOfRun, ReadStatuses, RecordRefusals, Remembered, EntriesAt;
  }

  lemma AcceptedWritten(rows: StatusTable, accepted: set<Email>, now: int)
    requires forall a :: a in accepted ==> Norm(a) == a
    ensures WroteAccepts(rows, Remembered(rows, accepted, EVERY.accepts, now), accepted, now)
  {
    var landed := set x | x in accepted && EVERY.accepts(x) :: Norm(x);
    forall a ensures a in landed <==> a in accepted {
      if a in accepted { assert Norm(a) == a; }
    }
  }

  // ------------------------------------------------------- what one run changes

  /** Of refusals for distinct addresses, the news is those not already known. */
  lemma {:induction false} NewsCounted(refusals: seq<Refusal>, known: set<string>)
    requires forall k :: 0 <= k < |refusals| ==> Norm(refusals[k].address) == refusals[k].address
    requires forall j, k :: 0 <= j < k < |refusals| ==> refusals[j].address != refusals[k].address
    ensures News(refusals, known) == |AddressesOf(refusals) - known|
  {
    if refusals == [] {
      assert AddressesOf(refusals) == {};
    } else {
      var n := |refusals| - 1;
      var before, last := refusals[..n], refusals[n];
      var addresses := AddressesOf(before);
      NewsCounted(before, known);
      assert refusals == before + [last];
      FoundNext(before, last);
      assert last.address !in addresses;
      OneMoreOutside(addresses, last.address, known);
      assert News(refusals, known) == News(before, known) + (if last.address in known then 0 else 1);
    }
  }

  lemma OneMoreOutside(xs: set<string>, x: string, known: set<string>)
    requires x !in xs
    ensures |(xs + {x}) - known| == |xs - known| + (if x in known then 0 else 1)
  {
    assert (xs + {x}) - known == (xs - known) + (if x in known then {} else {x});
  }

  ghost predicate WindowAt(rows: StatusTable, now: int, cutoff: int) {
    forall a :: RefusedRow(rows, a) ==> (rows[a].observedAt <= cutoff <==> !IsLive(rows[a], now))
  }

  /** Few enough unlearned refusals for the fuse to stay quiet. */
  ghost predicate FuseQuiet(env: Setting, d: Standing) {
    !d.store.bootstrapped || |Unlearned(env, d)| <= REFUSAL_FUSE_CEILING
  }

  /** The fuse trips on exactly the unlearned refusals. */
  lemma FuseCountsUnlearned(env: Setting, d: Standing, now: int, cutoff: int)
    requires Sound(env) && WindowAt(d.store.rows, now, cutoff)
    ensures RefusalFuse(d.store.bootstrapped,
        News(EndOfRun(env, d, now).refusals, ReadStatuses(d.store.rows, None, now).Lapsed()))
            <==> !FuseQuiet(env, d)
  {
    var s, lapsed := EndOfRun(env, d, now), ReadStatuses(d.store.rows, None, now).Lapsed();
    RunHalfway(env, d, now);
    RefusedAreNews(env, d, now, cutoff);
    hide EndOfRun, ReadStatuses, Halfway, RetryInv, Lasting, Unlearned, Offers, Retried;
    NewsCounted(s.refusals, lapsed);
  }

  lemma RefusedAreNews(env: Setting, d: Standing, now: int, cutoff: int)
    requires Sound(env) && WindowAt(d.store.rows, now, cutoff)
    ensures RefusedIn(EndOfRun(env, d, now)) - ReadStatuses(d.store.rows, None, now).Lapsed() == Unlearned(env, d)
  {
    VerdictsMet(env, d, now);
    StatusesRead(d.store.rows, now);
    RetriesSpent(env, d, now, cutoff);
    hide EndOfRun, ReadStatuses, RefusedIn, Lacking, IsLive, Sound, WindowAt;
  }

  /** The address was decided at or after `since`: no group lacks it, or Google's
      refusal of it is that recent. */
  ghost predicate Redecided(env: Setting, d: Standing, a: string, since: int) {
    a !in Lacking(env, d) || (RefusedRow(d.store.rows, a) && d.store.rows[a].observedAt >= since)
  }

  /** What a run does to the two standing records, told address by address. */
  ghost predicate RanOnce(env: Setting, d: Standing, after: Standing, offers: set<Email>, now: int) {
    && Wrote(d.store.rows, after.store.rows, offers, env.refuses, now)
    && (forall a :: a in Lacking(env, after) <==> a in Lacking(env, d) && !(a in offers && a !in env.refuses))
  }

  ghost predicate Spent(env: Setting, d: Standing, offers: set<Email>, retried: set<Email>, cutoff: int) {
    && retried <= Undecided(env, d, cutoff)
    && |retried| <= RETRIES_PER_RUN && (|retried| < RETRIES_PER_RUN ==> retried == Undecided(env, d, cutoff))
    && (forall a :: a in offers <==> a in Lacking(env, d) && (!RefusedRow(d.store.rows, a) || a in retried))
  }

  lemma UndecidedAfter(env: Setting, d: Standing, after: Standing, offers: set<Email>, retried: set<Email>, now: int,
      cutoff: int)
    requires RanOnce(env, d, after, offers, now) && Spent(env, d, offers, retried, cutoff) && cutoff < now
    ensures Undecided(env, after, cutoff) == Undecided(env, d, cutoff) - retried
    ensures |Undecided(env, after, cutoff)| == Max(0, |Undecided(env, d, cutoff)| - RETRIES_PER_RUN)
    ensures Unlearned(env, after) == {}
  {
    hide Lacking;
    var was, left := Undecided(env, d, cutoff), Undecided(env, after, cutoff);
    forall a ensures a in left <==> a in was && a !in retried {
      if a in left || (a in was && a !in retried) {
        assert a in offers ==> a in after.store.rows;
      }
    }
    assert left == was - retried;
    forall a | a in Lacking(env, after) && a in env.refuses ensures RefusedRow(after.store.rows, a) {
      if a !in offers { assert a in after.store.rows; }
    }
  }

  lemma RedecidedAfter(env: Setting, d: Standing, after: Standing, offers: set<Email>, retried: set<Email>, now: int,
      cutoff: int, since: int, a: string)
    requires RanOnce(env, d, after, offers, now) && Spent(env, d, offers, retried, cutoff)
    requires since <= now && cutoff < since
    requires Redecided(env, d, a, since) || a in retried
    ensures Redecided(env, after, a, since)
  {
    hide Lacking;
    if a in retried {
      assert a in Undecided(env, d, cutoff) && a in offers;
    } else if a in Lacking(env, d) {
      assert a !in offers;
      assert a in after.store.rows;
    }
  }

  /** From `d` to `after` in so many runs of one window: 25 fewer undecided
      addresses each, those decided at or after `since`, and so decided still. */
  ghost predicate Drained(env: Setting, d: Standing, after: Standing, since: int, runs: nat) {
    var was, left := Undecided(env, d, since - RETRY_AFTER), Undecided(env, after, since - RETRY_AFTER);
    && left <= was && |left| == Max(0, |was| - RETRIES_PER_RUN * runs)
    && (forall a :: Redecided(env, d, a, since) ==> Redecided(env, after, a, since))
    && (forall a :: a in was && a !in left ==> Redecided(env, after, a, since))
  }

  lemma WindowAfter(env: Setting, d: Standing, after: Standing, offers: set<Email>, first: int, now: int, last: int)
    requires RanOnce(env, d, after, offers, now) && OneWindow(d.store.rows, first, last) && first <= now <= last
    ensures OneWindow(after.store.rows, first, last)
  {
    hide Lacking;
    forall a | a in after.store.rows && !after.store.rows[a].status.Accepted?
      ensures after.store.rows[a].observedAt <= first - RETRY_AFTER
          || after.store.rows[a].observedAt > last - RETRY_AFTER
    {
      if a !in offers { assert a in d.store.rows && after.store.rows[a] == d.store.rows[a]; }
    }
  }

  lemma SpentDrains(env: Setting, d: Standing, after: Standing, offers: set<Email>, retried: set<Email>, now: int,
      since: int)
    requires since <= now
    requires RanOnce(env, d, after, offers, now) && Spent(env, d, offers, retried, since - RETRY_AFTER)
    ensures Drained(env, d, after, since, 1) && Unlearned(env, after) == {}
  {
    hide Unlearned, Undecided, RanOnce, Spent, Redecided;
    UndecidedAfter(env, d, after, offers, retried, now, since - RETRY_AFTER);
    forall a | Redecided(env, d, a, since) || a in retried ensures Redecided(env, after, a, since) {
      RedecidedAfter(env, d, after, offers, retried, now, since - RETRY_AFTER, since, a);
    }
  }

  lemma RunIsRanOnce(env: Setting, d: Standing, now: int, cutoff: int)
    requires Sound(env) && WindowAt(d.store.rows, now, cutoff) && FuseQuiet(env, d)
    ensures RanOnce(env, d, RunOnce(env, d, now), Offers(env, d, now), now)
    ensures Spent(env, d, Offers(env, d, now), Retried(env, d, now), cutoff)
  {
    hide RunOnce, EndOfRun, Lacking, ReadStatuses, Wrote, Undecided, Retried, FuseQuiet, RefusalFuse, News, Sound;
    FuseCountsUnlearned(env, d, now, cutoff);
    RetriesSpent(env, d, now, cutoff);
    RowsAfter(env, d, now);
    LackingAfter(env, d, now);
  }

  /** One run of the drain. */
  lemma RunDrains(env: Setting, d: Standing, first: int, now: int, last: int)
    requires Sound(env) && OneWindow(d.store.rows, first, last) && FuseQuiet(env, d) && first <= now <= last
    ensures var after := RunOnce(env, d, now);
            OneWindow(after.store.rows, first, last) && FuseQuiet(env, after) && Drained(env, d, after, first, 1)
  {
    OneWindowAt(d.store.rows, first, now, last);
    RunIsRanOnce(env, d, now, first - RETRY_AFTER);
    hide RunOnce, Offers, Retried, RanOnce, Spent, Drained, WindowAt, OneWindow, Unlearned;
    SpentDrains(env, d, RunOnce(env, d, now), Offers(env, d, now), Retried(env, d, now), now, first);
    WindowAfter(env, d, RunOnce(env, d, now), Offers(env, d, now), first, now, last);
  }

  lemma NoRunDrainsNone(env: Setting, d: Standing, since: int)
    ensures Drained(env, d, d, since, 0)
  {
    hide Undecided, Redecided;
  }

  lemma DrainedTogether(env: Setting, d: Standing, mid: Standing, after: Standing, since: int, m: nat, n: nat)
    requires Drained(env, d, mid, since, m) && Drained(env, mid, after, since, n)
    ensures Drained(env, d, after, since, m + n)
  {
    hide Undecided, Redecided;
  }

  /** The drain: while the runs stay within one retry window and no more than 25
      refusals are yet to be learned, each run takes 25 lapsed addresses off the
      undecided ones - so `n` of them are all decided afresh within `ceil(n / 25)`
      runs - and one decided afresh stays so. */
  lemma {:induction false} LapsedCohortDrains(env: Setting, d: Standing, times: seq<int>, first: int, last: int)
    requires Sound(env) && OneWindow(d.store.rows, first, last) && FuseQuiet(env, d)
    requires forall k :: 0 <= k < |times| ==> first <= times[k] <= last
    ensures Drained(env, d, RunAll(env, d, times), first, |times|)
    decreases |times|
  {
    hide RunOnce, OneWindow, FuseQuiet, Drained, Sound;
    if times == [] {
      NoRunDrainsNone(env, d, first);
    } else {
      var next := RunOnce(env, d, times[0]);
      RunDrains(env, d, first, times[0], last);
      LapsedCohortDrains(env, next, times[1..], first, last);
      DrainedTogether(env, d, next, RunAll(env, next, times[1..]), first, 1, |times| - 1);
    }
  }

  /** `ceil(n / 25)` runs decide all `n` of them afresh. */
  lemma DrainCompletes(env: Setting, d: Standing, times: seq<int>, first: int, last: int)
    requires Sound(env) && OneWindow(d.store.rows, first, last) && FuseQuiet(env, d)
    requires forall k :: 0 <= k < |times| ==> first <= times[k] <= last
    requires |times| >= (|Undecided(env, d, first - RETRY_AFTER)| + RETRIES_PER_RUN - 1) / RETRIES_PER_RUN
    ensures forall a :: a in Undecided(env, d, first - RETRY_AFTER) ==> Redecided(env, RunAll(env, d, times), a, first)
  {
    LapsedCohortDrains(env, d, times, first, last);
    hide RunAll, Undecided, Redecided;
  }

  // ------------------------------------------------------ when the fuse trips

  lemma TrippedRows(env: Setting, d: Standing, now: int)
    requires RefusalFuse(d.store.bootstrapped,
        News(EndOfRun(env, d, now).refusals, ReadStatuses(d.store.rows, None, now).Lapsed()))
    ensures var s, statuses, after :=
        EndOfRun(env, d, now), ReadStatuses(d.store.rows, None, now), RunOnce(env, d, now);
            && after.store.bootstrapped == d.store.bootstrapped
            && after.store.rows == Remembered(d.store.rows, NewlyAccepted(s.accepted, statuses), EVERY.accepts, now)
  {
    hide EndOfRun, ReadStatuses, RecordRefusals, Remembered, EntriesAt;
  }

  /** A run over the ceiling records no refusal, new or old, and so the next run
      meets the same ones. */
  lemma TrippedRunLearnsNothing(env: Setting, d: Standing, now: int, cutoff: int)
    requires Sound(env) && WindowAt(d.store.rows, now, cutoff) && !FuseQuiet(env, d)
    ensures var after := RunOnce(env, d, now);
            && Unlearned(env, after) == Unlearned(env, d) && !FuseQuiet(env, after)
            && (forall a ::
                   RefusedRow(after.store.rows, a) ==> a in d.store.rows && after.store.rows[a] == d.store.rows[a])
            && (forall a :: a in env.refuses && RefusedRow(d.store.rows, a) ==> RefusedRow(after.store.rows, a))
            && (forall a :: a in env.refuses && a in Lacking(env, d) ==> a in Lacking(env, after))
  {
    var s, statuses, after := EndOfRun(env, d, now), ReadStatuses(d.store.rows, None, now), RunOnce(env, d, now);
    var newly := NewlyAccepted(s.accepted, statuses);
    FuseCountsUnlearned(env, d, now, cutoff);
    TrippedRows(env, d, now);
    RunHalfway(env, d, now);
    VerdictsMet(env, d, now);
    LackingAfter(env, d, now);
    hide RunOnce, Offers, EndOfRun, Lacking, ReadStatuses, Halfway, Remembered, RefusalFuse, WroteAccepts, WindowAt,
        RetryInv, Lasting;
    assert forall a :: a in newly ==> Norm(a) == a && a !in env.refuses;
    AcceptedWritten(d.store.rows, newly, now);
    TrippedStanding(env, d, after, newly, now);
  }

  lemma TrippedStanding(env: Setting, d: Standing, after: Standing, newly: set<Email>, now: int)
    requires WroteAccepts(d.store.rows, after.store.rows, newly, now)
        && after.store.bootstrapped == d.store.bootstrapped
    requires forall a :: a in newly ==> a !in env.refuses
    requires forall a :: a in env.refuses ==> (a in Lacking(env, after) <==> a in Lacking(env, d))
    ensures Unlearned(env, after) == Unlearned(env, d)
    ensures FuseQuiet(env, after) == FuseQuiet(env, d)
    ensures forall a :: RefusedRow(after.store.rows, a) ==> a in d.store.rows && after.store.rows[a] == d.store.rows[a]
    ensures forall a :: a in env.refuses && RefusedRow(d.store.rows, a) ==> RefusedRow(after.store.rows, a)
  {
    hide Lacking;
    forall a | a in env.refuses ensures RefusedRow(after.store.rows, a) <==> RefusedRow(d.store.rows, a) {
      assert a !in newly;
      assert a in after.store.rows <==> a in d.store.rows;
    }
    forall a | RefusedRow(after.store.rows, a) ensures a in d.store.rows && after.store.rows[a] == d.store.rows[a] {
      assert a !in newly;
    }
    assert Unlearned(env, after) == Unlearned(env, d);
  }

  /** What stays undecided for good while the fuse trips. */
  ghost predicate Starved(env: Setting, d: Standing, after: Standing, cutoff: int) {
    && !FuseQuiet(env, after)
    && forall a :: a in Undecided(env, d, cutoff) && a in env.refuses ==> a in Undecided(env, after, cutoff)
  }

  lemma OneWindowAt(rows: StatusTable, first: int, now: int, last: int)
    requires OneWindow(rows, first, last) && first <= now <= last
    ensures WindowAt(rows, now, first - RETRY_AFTER)
  {
  }

  lemma WindowStands(rows: StatusTable, after: StatusTable, first: int, last: int)
    requires OneWindow(rows, first, last)
    requires forall a :: RefusedRow(after, a) ==> a in rows && after[a] == rows[a]
    ensures OneWindow(after, first, last)
  {
    forall a | a in after && !after[a].status.Accepted?
      ensures after[a].observedAt <= first - RETRY_AFTER || after[a].observedAt > last - RETRY_AFTER
    {
      assert RefusedRow(after, a);
    }
  }

  lemma TrippedRunStarves(env: Setting, d: Standing, first: int, now: int, last: int)
    requires Sound(env) && OneWindow(d.store.rows, first, last) && !FuseQuiet(env, d) && first <= now <= last
    ensures var after := RunOnce(env, d, now);
            Starved(env, d, after, first - RETRY_AFTER) && OneWindow(after.store.rows, first, last)
  {
    hide RunOnce, WindowAt, OneWindow, Sound, FuseQuiet, Unlearned, Lacking;
    OneWindowAt(d.store.rows, first, now, last);
    TrippedRunLearnsNothing(env, d, now, first - RETRY_AFTER);
    var after := RunOnce(env, d, now);
    WindowStands(d.store.rows, after.store.rows, first, last);
    forall a | a in Undecided(env, d, first - RETRY_AFTER) && a in env.refuses
        ensures a in Undecided(env, after, first - RETRY_AFTER) {
      assert RefusedRow(after.store.rows, a);
    }
  }

  /** Past the ceiling the drain stops: however many runs the window holds, no
      lapsed address Google still refuses is ever decided afresh. */
  lemma {:induction false} TrippedDrainStarves(env: Setting, d: Standing, times: seq<int>, first: int, last: int)
    requires Sound(env) && OneWindow(d.store.rows, first, last) && !FuseQuiet(env, d)
    requires forall k :: 0 <= k < |times| ==> first <= times[k] <= last
    ensures Starved(env, d, RunAll(env, d, times), first - RETRY_AFTER)
    decreases |times|
  {
    hide RunOnce, OneWindow, FuseQuiet, Sound, Undecided;
    if times != [] {
      TrippedRunStarves(env, d, first, times[0], last);
      TrippedDrainStarves(env, RunOnce(env, d, times[0]), times[1..], first, last);
    }
  }

  /** With enough runs in the window, every lapsed address Google still refuses is
      decided afresh if and only if there is none, or the refusals yet to be learned
      are few enough for the fuse. */
  lemma DrainCompletesExactly(env: Setting, d: Standing, times: seq<int>, first: int, last: int)
    requires Sound(env) && OneWindow(d.store.rows, first, last)
    requires forall k :: 0 <= k < |times| ==> first <= times[k] <= last
    requires |times| >= (|Undecided(env, d, first - RETRY_AFTER)| + RETRIES_PER_RUN - 1) / RETRIES_PER_RUN
    ensures (forall a ::
        a in Undecided(env, d, first - RETRY_AFTER) && a in env.refuses ==>
        Redecided(env, RunAll(env, d, times), a, first))
            <==> FuseQuiet(env, d) || forall a :: a in Undecided(env, d, first - RETRY_AFTER) ==> a !in env.refuses
  {
    var after, cutoff := RunAll(env, d, times), first - RETRY_AFTER;
    if FuseQuiet(env, d) {
      DrainCompletes(env, d, times, first, last);
    } else {
      TrippedDrainStarves(env, d, times, first, last);
      hide RunAll, FuseQuiet, Sound;
      assert forall a :: a in Undecided(env, after, cutoff) ==> !Redecided(env, after, a, first);
    }
  }

  // ------------------------------------------------------------- a starved cohort

  /** The k-th address of a cohort. */
  function Address(k: nat): (r: string)
    ensures |r| == k && Norm(r) == r
  {
    var r := seq(k, _ => 'a');
    assert Norm(r) == r;
    r
  }

  function Cohort(n: nat): set<string> {
    set k: nat | 1 <= k <= n :: Address(k)
  }

  lemma {:induction false} CohortSize(n: nat)
    ensures |Cohort(n)| == n
    ensures forall a :: a in Cohort(n) ==> |a| <= n
  {
    if n == 0 {
      assert Cohort(0) == {};
    } else {
      CohortSize(n - 1);
      assert Cohort(n) == Cohort(n - 1) + {Address(n)};
    }
  }

  /** 27 members Google has no account for, in no group yet. */
  const REFUSED_27 := Setting(
    map["g@dsa.org" := map a | a in Cohort(27) :: 1], map a | a in Cohort(27) :: NoGoogleAccount, false)

  /** The last of them was refused at time 0; the other 26 have never been offered. */
  const ONE_LAPSED := Standing(StatusStore(map[Address(27) := StatusRow(RefusedNoAccount, 0)], true), (g: Email) => [])

  lemma CohortLacking()
    ensures Lacking(REFUSED_27, ONE_LAPSED) == Cohort(27)
  {
    hide Cohort;
    var audience := map a | a in Cohort(27) :: 1;
    assert audience.Keys == Cohort(27);
    assert REFUSED_27.audiences["g@dsa.org"] == audience;
    forall a ensures a in Lacking(REFUSED_27, ONE_LAPSED) <==> a in Cohort(27) {
      assert a !in Keys([]);
      if a in Cohort(27) {
        assert Missing(SceneOf(REFUSED_27, ONE_LAPSED), "g@dsa.org", a);
        MissingIsWanting(SceneOf(REFUSED_27, ONE_LAPSED), "g@dsa.org", a);
      }
    }
  }

  lemma CohortStands()
    ensures Sound(REFUSED_27) && OneWindow(ONE_LAPSED.store.rows, RETRY_AFTER, RETRY_AFTER + 30 * 24 * 3600)
    ensures !FuseQuiet(REFUSED_27, ONE_LAPSED)
    ensures Address(27) in Undecided(REFUSED_27, ONE_LAPSED, 0) && Address(27) in REFUSED_27.refuses
  {
    CohortSize(26);
    CohortSize(27);
    CohortLacking();
    hide Lacking;
    assert Address(27) in Cohort(27);
    forall a | a in Cohort(27) ensures Norm(a) == a {
      var k: nat :| 1 <= k <= 27 && Address(k) == a;
    }
    forall a ensures a in Unlearned(REFUSED_27, ONE_LAPSED) <==> a in Cohort(26) {
      assert Cohort(27) == Cohort(26) + {Address(27)};
    }
    assert Unlearned(REFUSED_27, ONE_LAPSED) == Cohort(26);
  }

  /** One refusal too many: run however often in the window, the 26 unlearned refusals
      keep the lapsed one from ever being decided afresh. */
  lemma CohortStarves(times: seq<int>)
    requires forall k :: 0 <= k < |times| ==> RETRY_AFTER <= times[k] <= RETRY_AFTER + 30 * 24 * 3600
    ensures Address(27) in Undecided(REFUSED_27, RunAll(REFUSED_27, ONE_LAPSED, times), 0)
  {
    hide Sound, OneWindow, FuseQuiet, Undecided, RunAll;
    CohortStands();
    TrippedDrainStarves(REFUSED_27, ONE_LAPSED, times, RETRY_AFTER, RETRY_AFTER + 30 * 24 * 3600);
  }
}
