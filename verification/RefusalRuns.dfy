/** Any number of whole runs, over whatever tables each finds: the first real run that
    records a refusal is the last that may record more than 25 new ones. */
module RefusalRuns {
  import opened Basics
  import opened Database
  import opened GroupSync
  import opened EmailStatus
  import opened Apply
  import opened Sweep
  import opened SweepTheorems
  import opened Audience
  import opened EndToEnd
  import opened WholeRun

  /** One run, and the tables and provisioning marker it finds. */
  datatype Attempt = Attempt(t: Tables, provisioned: bool, setup: Setup)

  ghost predicate WellKept(attempts: seq<Attempt>) {
    forall k :: 0 <= k < |attempts| ==> Valid(attempts[k].t)
  }

  function Result(a: Attempt, store: StatusStore): RunResult
    requires Valid(a.t)
  {
    Swept(Stored(a.t, a.provisioned, store), a.setup)
  }

  /** What Google's answers leave on record once these runs are over. */
  function StoreAfter(attempts: seq<Attempt>, store: StatusStore): StatusStore
    requires WellKept(attempts)
  {
    if attempts == [] then store
    else Result(attempts[|attempts| - 1], StoreAfter(attempts[..|attempts| - 1], store)).after.statuses
  }

  /** What the k-th run comes to. */
  function ResultAt(attempts: seq<Attempt>, store: StatusStore, k: nat): RunResult
    requires WellKept(attempts) && k < |attempts|
  {
    Result(attempts[k], StoreAfter(attempts[..k], store))
  }

  /** The refusals a run reports recorded. */
  function Recorded(r: RunResult): nat {
    if r.ending.Reported? && r.ending.report.refusals.Some? then r.ending.report.refusals.value.recorded else 0
  }

  ghost predicate Records(attempts: seq<Attempt>, store: StatusStore, k: nat)
    requires WellKept(attempts) && k < |attempts|
  {
    Recorded(ResultAt(attempts, store, k)) > 0
  }

  // --------------------------------------------------------------- the marker

  /** A run sets the marker exactly by recording a refusal. */
  lemma RunMarks(d: Stored, setup: Setup)
    requires Valid(d.t)
    ensures var r := Swept(d, setup);
            r.after.statuses.bootstrapped <==> d.statuses.bootstrapped || Recorded(r) > 0
  {
    hide Swept, Valid, AudiencesOf, RunGroups, StepsOf, Remembered, Committed;
    var r := Swept(d, setup);
    if r.ending.Reported? {
      ReportedRun(d, setup);
      if setup.listerAvailable {
        SweepMarks(r.after.(statuses := d.statuses), setup, r);
      }
    } else {
      NoReportNoCalls(d, setup);
    }
  }

  lemma SweepMarks(d: Stored, setup: Setup, r: RunResult)
    requires r.ending.Reported? && setup.listerAvailable
    requires r == FromStatuses(d, setup, r.asked, r.ending.pull, r.ending.provision)
    ensures r.after.statuses.bootstrapped <==> d.statuses.bootstrapped || Recorded(r) > 0
  {
    var statuses := ReadStatuses(d.statuses.rows, None, setup.now);
    var s := RunGroups(setup.world, AudiencesOf(setup.fetch(d.t), setup.main, statuses), statuses, setup.allow);
    hide AudiencesOf, RunGroups, ReadStatuses, Remembered, Committed, NewsIn;
    CommitExactly(d.statuses, s.refusals, statuses.Lapsed(), setup.dryRun, setup.writes.refusals, setup.now);
  }

  /** The marker remembers: it is set exactly when it was at first or some real run has
      recorded a refusal since. */
  lemma {:induction false} MarkerRemembers(attempts: seq<Attempt>, store: StatusStore)
    requires WellKept(attempts)
    ensures StoreAfter(attempts, store).bootstrapped <==>
        store.bootstrapped || exists k: nat :: k < |attempts| && Records(attempts, store, k)
  {
    hide Swept, Valid;
    if attempts != [] {
      var n := |attempts| - 1;
      var earlier, last := attempts[..n], attempts[n];
      var before := StoreAfter(earlier, store);
      MarkerRemembers(earlier, store);
      RunMarks(Stored(last.t, last.provisioned, before), last.setup);
      forall k: nat | k < n ensures Records(attempts, store, k) <==> Records(earlier, store, k) {
        assert attempts[..n][..k] == attempts[..k];
      }
      assert StoreAfter(attempts, store).bootstrapped <==> before.bootstrapped || Records(attempts, store, n);
      if k: nat :| k < |attempts| && Records(attempts, store, k) {
        assert k == n || Records(earlier, store, k);
      }
      if k: nat :| k < n && Records(earlier, store, k) {
        assert Records(attempts, store, k);
      }
    }
  }

  // -------------------------------------------------------------- the ceiling

  /** Addresses refused on record after a run that were not before. */
  function NewlyRefused(before: StatusTable, after: StatusTable): set<string> {
    set a | a in after && after[a].status != Accepted && !(a in before && before[a].status != Accepted)
  }

  function NewsOf(refusals: seq<Refusal>, known: set<string>): set<string> {
    set k: nat | k in NewsIn(refusals, known) :: Norm(refusals[k].address)
  }

  lemma {:induction false} ImageSize(ks: set<nat>, f: nat -> string, image: set<string>)
    requires image == set k | k in ks :: f(k)
    ensures |image| <= |ks|
    decreases |ks|
  {
    if ks == {} {
      assert image == {};
    } else {
      var k :| k in ks;
      var rest := set j | j in ks - {k} :: f(j);
      ImageSize(ks - {k}, f, rest);
      assert image == rest + {f(k)};
    }
  }

  lemma NewsOfSize(refusals: seq<Refusal>, known: set<string>)
    ensures |NewsOf(refusals, known)| <= |NewsIn(refusals, known)|
  {
    var f := (k: nat) => if k < |refusals| then Norm(refusals[k].address) else [];
    hide Norm;
    assert NewsOf(refusals, known) == set k | k in NewsIn(refusals, known) :: f(k);
    ImageSize(NewsIn(refusals, known), f, NewsOf(refusals, known));
  }

  /** An address newly refused on record was news. */
  lemma NewlyRefusedIsNews(s: RunState, store: StatusStore, writes: Writes, now: int)
    requires forall x :: x in s.accepted ==> Norm(x) == x
    ensures var statuses := ReadStatuses(store.rows, None, now);
            var after := WriteDown(s, statuses, store, false, writes, now).0.rows;
            && NewlyRefused(store.rows, after) <= NewsOf(s.refusals, statuses.Lapsed())
            && (store.bootstrapped && |NewsIn(s.refusals, statuses.Lapsed())| > 25 ==>
                  NewlyRefused(store.rows, after) == {})
  {
    var statuses := ReadStatuses(store.rows, None, now);
    var after := WriteDown(s, statuses, store, false, writes, now).0.rows;
    StatusesExactly(store.rows, now);
    NewsCount(s.refusals, statuses.Lapsed());
    hide ReadStatuses, WriteDown, News, Norm;
    forall a | a in NewlyRefused(store.rows, after)
      ensures a in NewsOf(s.refusals, statuses.Lapsed())
      ensures !RefusalFuse(store.bootstrapped, News(s.refusals, statuses.Lapsed()))
    {
      NormalRowAtRunsEnd(s, store, writes, now, a);
      assert RefusedWritten(s.refusals, writes.refusals, a);
      var k: nat :| k < |s.refusals| && writes.refusals(k) && Norm(s.refusals[k].address) == a;
      assert k in NewsIn(s.refusals, statuses.Lapsed());
    }
  }

  /** An armed run's records grow by 25 new refusals at most, and it writes 50 at most. */
  lemma ArmedRunBound(d: Stored, setup: Setup)
    requires Valid(d.t) && d.statuses.bootstrapped
    requires FetchedFrom(setup.fetch(Swept(d, setup).after.t), Swept(d, setup).after.t)
    ensures var r := Swept(d, setup);
            |NewlyRefused(d.statuses.rows, r.after.statuses.rows)| <= 25 && Recorded(r) <= 50
  {
    var r := Swept(d, setup);
    hide Swept, Valid, AudiencesOf, RunGroups, StepsOf, FetchedFrom, Committed, Remembered, ReadStatuses;
    if r.ending.Reported? {
      ReportedRun(d, setup);
      if setup.listerAvailable {
        var statuses := ReadStatuses(d.statuses.rows, None, setup.now);
        AudiencesAreNormal(r.after.t, setup.fetch(r.after.t), setup.main, statuses);
        ArmedSweepBound(r.after.(statuses := d.statuses), setup, r);
      }
    } else {
      NoReportNoCalls(d, setup);
    }
    NoneNew(d.statuses.rows);
  }

  lemma NoneNew(rows: StatusTable)
    ensures NewlyRefused(rows, rows) == {}
  {
  }

  lemma ArmedSweepBound(d: Stored, setup: Setup, r: RunResult)
    requires d.statuses.bootstrapped && r.ending.Reported? && setup.listerAvailable
    requires NormalAudiences(AudiencesOf(setup.fetch(d.t), setup.main, ReadStatuses(d.statuses.rows, None, setup.now)))
    requires r == FromStatuses(d, setup, r.asked, r.ending.pull, r.ending.provision)
    ensures |NewlyRefused(d.statuses.rows, r.after.statuses.rows)| <= 25 && Recorded(r) <= 50
  {
    var statuses := ReadStatuses(d.statuses.rows, None, setup.now);
    var audiences := AudiencesOf(setup.fetch(d.t), setup.main, statuses);
    var s := RunGroups(setup.world, audiences, statuses, setup.allow);
    hide AudiencesOf, RunGroups, ReadStatuses, Remembered, NewsIn, NormalAudiences, Committed, NewlyRefused, NewsOf,
        Changed;
    WholeRunWriteBound(setup.world, audiences, d.statuses, setup.allow, setup.dryRun, setup.writes, setup.now);
    AcceptedNormal(setup.world, audiences, statuses, setup.allow);
    CommitExactly(d.statuses, s.refusals, statuses.Lapsed(), setup.dryRun, setup.writes.refusals, setup.now);
    NewlyRefusedIsNews(s, d.statuses, setup.writes, setup.now);
    NewsOfSize(s.refusals, statuses.Lapsed());
    NoneNew(d.statuses.rows);
    var after := WriteDown(s, statuses, d.statuses, false, setup.writes, setup.now).0.rows;
    SubsetSize(NewlyRefused(d.statuses.rows, after), NewsOf(s.refusals, statuses.Lapsed()));
  }

  lemma AcceptedNormal(w: World, audiences: Audiences, statuses: EmailStatuses, allow: bool)
    requires NormalAudiences(audiences)
    ensures forall x :: x in RunGroups(w, audiences, statuses, allow).accepted ==> Norm(x) == x
  {
    hide RunGroups, RetryInv, LiveInv, SafeInv, CertInv, Lasting;
    RunKeepsInv(w, audiences, statuses, allow);
  }

  /** Once a real run has recorded a refusal, no later run puts more than 25 new ones on
      record, or reports more than 50 recorded. */
  lemma CeilingEverAfter(attempts: seq<Attempt>, store: StatusStore, j: nat, k: nat)
    requires WellKept(attempts) && j < k < |attempts| && Records(attempts, store, j)
    requires var t := ResultAt(attempts, store, k).after.t; FetchedFrom(attempts[k].setup.fetch(t), t)
    ensures var before, r := StoreAfter(attempts[..k], store), ResultAt(attempts, store, k);
            |NewlyRefused(before.rows, r.after.statuses.rows)| <= 25 && Recorded(r) <= 50
  {
    hide Swept, Valid, FetchedFrom, NewlyRefused, Recorded;
    var a, before := attempts[k], StoreAfter(attempts[..k], store);
    MarkerRemembers(attempts[..k], store);
    assert attempts[..k][..j] == attempts[..j];
    assert Records(attempts[..k], store, j);
    ArmedRunBound(Stored(a.t, a.provisioned, before), a.setup);
  }

  /** So at most one run ever puts more than 25 new refusals on record: the first that
      records any, and only if the marker was not set at first. */
  lemma AtMostOneLearnsMany(attempts: seq<Attempt>, store: StatusStore, k: nat)
    requires WellKept(attempts) && k < |attempts|
    requires var t := ResultAt(attempts, store, k).after.t; FetchedFrom(attempts[k].setup.fetch(t), t)
    requires var before, r := StoreAfter(attempts[..k], store), ResultAt(attempts, store, k);
             |NewlyRefused(before.rows, r.after.statuses.rows)| > 25
    ensures !store.bootstrapped && forall j: nat :: j < k ==> !Records(attempts, store, j)
  {
    hide Swept, Valid, FetchedFrom, NewlyRefused, Records;
    var a, before := attempts[k], StoreAfter(attempts[..k], store);
    if before.bootstrapped {
      ArmedRunBound(Stored(a.t, a.provisioned, before), a.setup);
      assert false;
    }
    MarkerRemembers(attempts[..k], store);
    forall j: nat | j < k ensures Records(attempts[..k], store, j) <==> Records(attempts, store, j) {
      RecordsInPrefix(attempts, store, j, k);
    }
  }

  lemma RecordsInPrefix(attempts: seq<Attempt>, store: StatusStore, j: nat, n: nat)
    requires WellKept(attempts) && j < n <= |attempts|
    ensures Records(attempts[..n], store, j) <==> Records(attempts, store, j)
  {
    hide Swept, Valid;
    assert attempts[..n][..j] == attempts[..j];
  }
}
