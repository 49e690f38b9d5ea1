/** A member with two addresses: if Google takes one of them, two runs bring the member
    into every group the records put them in. */
module TwoAddresses {
  import opened Basics
  import opened Database
  import opened GroupSync
  import opened EmailStatus
  import opened Apply
  import opened Sweep
  import opened SweepTheorems
  import Plan
  import opened Audience
  import opened EndToEnd
  import opened WholeConvergence
  import opened Convergence
  import opened RetryDrain

  // ----------------------------------------------------------------- the target

  /** What a run at `now` that offered `offers` makes of the statuses: the refused are
      refused latest of all, the taken accepted, and the rest as they were. */
  ghost predicate Learned(before: EmailStatuses, after: EmailStatuses, offers: set<Email>, refuses: Verdicts,
      now: int) {
    && (forall a :: a in offers && a in refuses ==>
          a !in after.accepted && a in after.refusedAt && after.refusedAt[a] == now)
    && (forall a :: a in offers && a !in refuses ==> a in after.accepted && a !in after.refusedAt)
    && (forall a :: a !in offers ==> Alike(before, after, a))
  }

  ghost predicate Alike(before: EmailStatuses, after: EmailStatuses, a: string) {
    && (a in after.accepted <==> a in before.accepted) && (a in after.refusedAt <==> a in before.refusedAt)
    && (a in before.refusedAt && a in after.refusedAt ==> after.refusedAt[a] == before.refusedAt[a])
  }

  /** The next target is one Google takes, or the address offered nowhere by the run. */
  lemma TargetArrives(email: Email, alternate: Option<Email>, before: EmailStatuses, after: EmailStatuses,
      offers: set<Email>, refuses: Verdicts, now: int, taken: Email)
    requires !IsExample(email) && StatusesWell(before) && StatusesWell(after)
    requires Learned(before, after, offers, refuses, now)
    requires forall a :: a in before.refusedAt ==> before.refusedAt[a] < now
    requires taken in Candidates(email, alternate) && Norm(taken) !in refuses
    ensures var first, next := SyncTarget(email, alternate, before), SyncTarget(email, alternate, after);
            Norm(next) !in refuses || (next == first && Norm(first) !in offers)
  {
    var first, next := SyncTarget(email, alternate, before), SyncTarget(email, alternate, after);
    var candidates := Candidates(email, alternate);
    CandidatesAre(email, alternate);
    SyncTargetIsBest(email, alternate, before);
    SyncTargetIsBest(email, alternate, after);
    hide Candidates, Norm, IsExample, SyncTarget;
    if Norm(next) in refuses {
      assert !Beats(after, taken, next);
      assert next == first || taken == first;
      assert !Beats(before, next, first);
    }
  }

  // ------------------------------------------------------------------- two runs

  /** The records, how their queries return them, and what Google refuses. */
  datatype Place = Place(t: Tables, f: Fetched, main: Email, refuses: Verdicts, allow: bool)

  ghost predicate Kept(p: Place) {
    Valid(p.t) && FetchedFrom(p.f, p.t) && AllVerdicts(p.refuses)
  }

  /** A run sweeps the audiences it reads with the statuses on record. */
  function SettingAt(p: Place, d: RetryDrain.Standing, now: int): Setting {
    Setting(AudiencesOf(p.f, p.main, ReadStatuses(d.store.rows, None, now)), p.refuses, p.allow)
  }

  function After(p: Place, d: RetryDrain.Standing, now: int): RetryDrain.Standing {
    RunOnce(SettingAt(p, d, now), d, now)
  }

  /** The run's refusal fuse was quiet and no missing address was left without a slot. */
  ghost predicate Smooth(p: Place, d: RetryDrain.Standing, now: int) {
    var env := SettingAt(p, d, now);
    var s := EndOfRun(env, d, now);
    && !RefusalFuse(d.store.bootstrapped, News(s.refusals, ReadStatuses(d.store.rows, None, now).Lapsed()))
    && forall a :: a in Lacking(env, d) ==> a !in s.lapsed
  }

  lemma SettingIsSound(p: Place, d: RetryDrain.Standing, now: int)
    requires Kept(p)
    ensures Sound(SettingAt(p, d, now))
  {
    hide Valid, FetchedFrom, AudiencesOf, ReadStatuses;
    AudiencesAreNormal(p.t, p.f, p.main, ReadStatuses(d.store.rows, None, now));
  }

  lemma StatusesLearn(env: Setting, d: RetryDrain.Standing, now: int, later: int)
    requires Sound(env)
    requires !RefusalFuse(d.store.bootstrapped,
        News(EndOfRun(env, d, now).refusals, ReadStatuses(d.store.rows, None, now).Lapsed()))
    ensures Learned(ReadStatuses(d.store.rows, None, now),
        ReadStatuses(RunOnce(env, d, now).store.rows, None, later), Offers(env, d, now), env.refuses, now)
  {
    RowsAfter(env, d, now);
    var rows, after, offers := d.store.rows, RunOnce(env, d, now).store.rows, Offers(env, d, now);
    hide RunOnce, Offers, EndOfRun, Sound, News, RefusalFuse;
    RowsLearn(rows, after, offers, env.refuses, now, later);
  }

  lemma RowsLearn(rows: StatusTable, after: StatusTable, offers: set<Email>, refuses: Verdicts, now: int, later: int)
    requires Wrote(rows, after, offers, refuses, now)
    ensures Learned(ReadStatuses(rows, None, now), ReadStatuses(after, None, later), offers, refuses, now)
  {
    assert forall a :: a !in offers ==> (a in after <==> a in rows) && (a in rows ==> after[a] == rows[a]);
  }

  /** The member's key is in the audience of every group that wants them. */
  lemma KeyIsDesired(p: Place, d: RetryDrain.Standing, now: int, i: Uuid, g: Email)
    requires Kept(p) && Wants(p.t, p.main, g, i) && !IsExample(PersonOf(p.t, i).email)
    ensures var env, a :=
        SettingAt(p, d, now), Norm(TargetOf(PersonOf(p.t, i), ReadStatuses(d.store.rows, None, now)));
            g in env.audiences && a in env.audiences[g]
  {
    var statuses := ReadStatuses(d.store.rows, None, now);
    var person := PersonOf(p.t, i);
    TargetIsReal(person, statuses);
    AudienceExactness(p.t, p.f, p.main, statuses);
    hide AudiencesOf, ReadStatuses, FetchedFrom, Valid, IsExample, SyncTarget;
    assert MirroredAs(p.t, statuses, i, Norm(TargetOf(person, statuses)));
    if g != p.main {
      var b :| Places(p.t, g, i, b);
    }
  }

  lemma TargetIsReal(person: Person, statuses: EmailStatuses)
    requires !IsExample(person.email)
    ensures !IsExample(TargetOf(person, statuses))
  {
    SyncTargetIsBest(person.email, person.alternate, statuses);
    hide SyncTarget;
    assert forall c :: c in Candidates(person.email, person.alternate) ==> !IsExample(c);
  }

  /** What a smooth run leaves in a group: what it had, and what is neither refused nor
      withheld. */
  lemma SmoothShows(p: Place, d: RetryDrain.Standing, now: int, g: Email, a: string)
    requires Kept(p) && Smooth(p, d, now)
    requires g in SettingAt(p, d, now).audiences && a in SettingAt(p, d, now).audiences[g]
    ensures var env := SettingAt(p, d, now);
            var live := ReadStatuses(d.store.rows, None, now).live;
            && (a in Plan.Keys(After(p, d, now).lists(g)) <==>
                  a in Plan.Keys(d.lists(g)) || (a !in live && a !in env.refuses))
            && (a !in Plan.Keys(d.lists(g)) && a !in live ==> a in Offers(env, d, now))
  {
    var env := SettingAt(p, d, now);
    var c, s, live := SceneOf(env, d), EndOfRun(env, d, now), ReadStatuses(d.store.rows, None, now).live;
    SettingIsSound(p, d, now);
    RunHalfway(env, d, now);
    OffersMean(env, d, now);
    MissingIsWanting(c, g, a);
    hide EndOfRun, ReadStatuses, Plan.Keys, Offers, Wanting, Sound, AudiencesOf, Knows, Sought, RefusalInv, RetryInv,
        News, RefusalFuse, Kept;
    assert Shows(c, live, s.lapsed, g, EntriesAt(c, g, s.log));
    hide EntriesAt, Shows;
  }

  /** At a Google that answers definitively and takes one of the member's addresses, two
      smooth runs bring the member into each group the records put them in, under the
      address the second run mirrors them as - provided no refusal of one of their
      addresses was live at first, and the first run is later than every refusal. */
  lemma TwoRunsBringThemIn(p: Place, d: RetryDrain.Standing, now: int, later: int, i: Uuid, taken: Email)
    requires Kept(p) && now <= later && i in p.t.members && !IsExample(PersonOf(p.t, i).email)
    requires taken in Candidates(PersonOf(p.t, i).email, PersonOf(p.t, i).alternate) && Norm(taken) !in p.refuses
    requires forall c :: c in Candidates(PersonOf(p.t, i).email, PersonOf(p.t, i).alternate) ==>
        Norm(c) !in ReadStatuses(d.store.rows, None, now).live
    requires forall a :: RefusedRow(d.store.rows, a) ==> d.store.rows[a].observedAt < now
    requires Smooth(p, d, now) && Smooth(p, After(p, d, now), later)
    ensures var mid := After(p, d, now);
            var a := Norm(TargetOf(PersonOf(p.t, i), ReadStatuses(mid.store.rows, None, later)));
            forall g :: Wants(p.t, p.main, g, i) ==> a in Plan.Keys(After(p, mid, later).lists(g))
  {
    var person, mid := PersonOf(p.t, i), After(p, d, now);
    var env := SettingAt(p, d, now);
    var before, after := ReadStatuses(d.store.rows, None, now), ReadStatuses(mid.store.rows, None, later);
    var first, next := TargetOf(person, before), TargetOf(person, after);
    hide Smooth, After, ReadStatuses, RetryDrain.Offers, Kept, SyncTarget, Wants, IsExample, Norm, Candidates, Learned,
        News, RefusalFuse, AudiencesOf;
    SmoothLearns(p, d, now, later);
    EarlierRefusals(d.store.rows, now);
    NotLiveLater(d.store.rows, mid.store.rows, RetryDrain.Offers(env, d, now), p.refuses, now, later, Norm(taken));
    LiveTargetOnlyIfAllLive(person.email, person.alternate, before);
    LiveTargetOnlyIfAllLive(person.email, person.alternate, after);
    TargetArrives(person.email, person.alternate, before, after, RetryDrain.Offers(env, d, now), p.refuses, now, taken);
    assert Norm(first) !in before.live && Norm(next) !in after.live;
    forall g | Wants(p.t, p.main, g, i) ensures Norm(next) in Plan.Keys(After(p, mid, later).lists(g)) {
      hide Plan.Keys;
      KeyIsDesired(p, d, now, i, g);
      KeyIsDesired(p, mid, later, i, g);
      SmoothShows(p, d, now, g, Norm(first));
      SmoothShows(p, mid, later, g, Norm(next));
    }
  }

  lemma SmoothLearns(p: Place, d: RetryDrain.Standing, now: int, later: int)
    requires Kept(p) && Smooth(p, d, now)
    ensures var env := SettingAt(p, d, now);
            Learned(ReadStatuses(d.store.rows, None, now), ReadStatuses(After(p, d, now).store.rows, None, later),
                RetryDrain.Offers(env, d, now), p.refuses, now)
  {
    hide ReadStatuses, RetryDrain.Offers, Kept, Learned, RunOnce, EndOfRun, News, RefusalFuse, AudiencesOf;
    SettingIsSound(p, d, now);
    StatusesLearn(SettingAt(p, d, now), d, now, later);
  }

  /** An address Google takes has no live refusal later if it had none before. */
  lemma NotLiveLater(rows: StatusTable, after: StatusTable, offers: set<Email>, refuses: Verdicts, now: int,
      later: int, a: string)
    requires Learned(ReadStatuses(rows, None, now), ReadStatuses(after, None, later), offers, refuses, now)
    requires now <= later && a !in refuses && a !in ReadStatuses(rows, None, now).live
    ensures a !in ReadStatuses(after, None, later).live
  {
    if a in offers {
      assert a !in ReadStatuses(after, None, later).refusedAt;
    } else {
      assert Alike(ReadStatuses(rows, None, now), ReadStatuses(after, None, later), a);
    }
  }

  lemma EarlierRefusals(rows: StatusTable, now: int)
    requires forall a :: RefusedRow(rows, a) ==> rows[a].observedAt < now
    ensures var st := ReadStatuses(rows, None, now); forall a :: a in st.refusedAt ==> st.refusedAt[a] < now
  {
  }
}
