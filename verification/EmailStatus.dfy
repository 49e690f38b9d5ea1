/** Google's latest answer on each address, as recorded, and the fuse on how
    many refusals one run may write to it. */
module EmailStatus {
  import opened Basics
  import opened GroupSync

  /** 90 days, in seconds. */
  const RETRY_AFTER := 90 * 24 * 3600
  const RETRIES_PER_RUN := 25
  const REFUSAL_FUSE_CEILING := 25

  datatype AddressStatus = Accepted | RefusedNoAccount | RefusedNotFound

  datatype StatusRow = StatusRow(status: AddressStatus, observedAt: int)

  type StatusTable = map<string, StatusRow>

  /** The status table and the refusal-learning bootstrap marker. */
  datatype StatusStore = StatusStore(rows: StatusTable, bootstrapped: bool)

  datatype Refusal = Refusal(address: Email, memberId: Uuid, groupEmail: Email, outcome: SyncOutcome)

  datatype RefusalReport = RefusalReport(received: nat, retries: nat, recorded: nat, refused: nat) {
    predicate HasFailures() {
      refused > 0 || recorded < received - refused
    }
  }

  // ------------------------------------------------------------------ reading

  function IsLive(row: StatusRow, now: int): bool {
    row.observedAt > now - RETRY_AFTER
  }

  /** The statuses of the selected addresses; `None` selects every row. */
  function ReadStatuses(rows: StatusTable, selected: Option<set<string>>, now: int): (r: EmailStatuses)
    ensures StatusesWell(r)
    ensures r.accepted + r.refusedAt.Keys <= rows.Keys
  {
    var keys := if selected.None? then rows.Keys else rows.Keys * selected.value;
    var r := EmailStatuses(
      set a | a in keys && rows[a].status.Accepted?,
      map a | a in keys && !rows[a].status.Accepted? :: rows[a].observedAt,
      set a | a in keys && !rows[a].status.Accepted? && IsLive(rows[a], now));
    assert LiveAfter(r, now - RETRY_AFTER);
    r
  }

  /** A fetch: the selected rows in some order. */
  ghost predicate Fetches(fetched: seq<(string, StatusRow)>, rows: StatusTable, selected: Option<set<string>>) {
    forall a, row :: (a, row) in fetched <==> a in rows && rows[a] == row && (selected.Some? ==> a in selected.value)
  }

  /** `email_statuses`: sorts the fetched rows into the three collections, and
      whatever their order the result is the same. */
  method EmailStatusesOf(fetched: seq<(string, StatusRow)>, now: int, ghost rows: StatusTable,
      ghost selected: Option<set<string>>)
    returns (r: EmailStatuses)
    requires Fetches(fetched, rows, selected)
    ensures r == ReadStatuses(rows, selected, now)
  {
    var accepted: set<string>, live: set<string> := {}, {};
    var refusedAt: map<string, int> := map[];
    for k := 0 to |fetched|
      invariant accepted == set i | 0 <= i < k && fetched[i].1.status.Accepted? :: fetched[i].0
      invariant live == set i | 0 <= i < k && !fetched[i].1.status.Accepted? && IsLive(fetched[i].1, now) ::
          fetched[i].0
      invariant forall a :: a in refusedAt <==> exists i ::
          0 <= i < k && fetched[i].0 == a && !fetched[i].1.status.Accepted?
      invariant forall a :: a in refusedAt ==> a in rows && refusedAt[a] == rows[a].observedAt
    {
      var (address, row) := fetched[k];
      assert (address, row) in fetched;
      if row.status.Accepted? {
        accepted := accepted + {address};
      } else {
        refusedAt := refusedAt[address := row.observedAt];
        if IsLive(row, now) {
          live := live + {address};
        }
      }
    }
    r := EmailStatuses(accepted, refusedAt, live);
    FetchedAll(fetched, rows, selected);
    assert r.accepted == ReadStatuses(rows, selected, now).accepted;
    assert r.live == ReadStatuses(rows, selected, now).live;
    assert r.refusedAt == ReadStatuses(rows, selected, now).refusedAt;
  }

  lemma FetchedAll(fetched: seq<(string, StatusRow)>, rows: StatusTable, selected: Option<set<string>>)
    requires Fetches(fetched, rows, selected)
    ensures forall i :: 0 <= i < |fetched| ==>
              var a := fetched[i].0; a in rows && rows[a] == fetched[i].1 && (selected.Some? ==> a in selected.value)
    ensures forall a :: a in rows && (selected.Some? ==> a in selected.value) ==>
              exists i :: 0 <= i < |fetched| && fetched[i].0 == a && fetched[i].1 == rows[a]
  {
    forall i | 0 <= i < |fetched|
      ensures var a := fetched[i].0; a in rows && rows[a] == fetched[i].1 && (selected.Some? ==> a in selected.value)
    {
      assert (fetched[i].0, fetched[i].1) in fetched;
    }
    forall a | a in rows && (selected.Some? ==> a in selected.value)
      ensures exists i :: 0 <= i < |fetched| && fetched[i].0 == a && fetched[i].1 == rows[a]
    {
      assert (a, rows[a]) in fetched;
    }
  }

  // ------------------------------------------------------------------ writing

  /** INSERT ... ON CONFLICT (address) DO UPDATE. */
  function Record(rows: StatusTable, address: Email, status: AddressStatus, now: int): StatusTable {
    rows[Norm(address) := StatusRow(status, now)]
  }

  function StatusOf(outcome: SyncOutcome): AddressStatus {
    if outcome.NoGoogleAccount? then RefusedNoAccount else RefusedNotFound
  }

  /** The refusals written in turn; `lands(k)` says whether the k-th write reaches
      the store, which may refuse any of them. */
  function RecordRefusals(rows: StatusTable, refusals: seq<Refusal>, lands: nat -> bool,
      now: int): (r: (StatusTable, nat))
    ensures r.1 <= |refusals|
  {
    if refusals == [] then (rows, 0)
    else
      var n := |refusals| - 1;
      var (before, recorded) := RecordRefusals(rows, refusals[..n], lands, now);
      if lands(n) then (Record(before, refusals[n].address, StatusOf(refusals[n].outcome), now), recorded + 1)
      else (before, recorded)
  }

  /** The refusals not already known as lapsed. */
  function News(refusals: seq<Refusal>, known: set<string>): nat {
    if refusals == [] then 0
    else News(refusals[..|refusals| - 1], known) + (if Norm(refusals[|refusals| - 1].address) in known then 0 else 1)
  }

  predicate RefusalFuse(bootstrapped: bool, news: nat) {
    bootstrapped && news > REFUSAL_FUSE_CEILING
  }

  function Committed(store: StatusStore, refusals: seq<Refusal>, known: set<string>, dryRun: bool,
      lands: nat -> bool, now: int)
    : (r: (StatusStore, RefusalReport))
  {
    var received, news := |refusals|, News(refusals, known);
    NewsBound(refusals, known);
    var retries := received - news;
    if dryRun then (store, RefusalReport(received, retries, 0, 0))
    else if RefusalFuse(store.bootstrapped, news) then (store, RefusalReport(received, retries, 0, received))
    else
      var (rows, recorded) := RecordRefusals(store.rows, refusals, lands, now);
      (StatusStore(rows, store.bootstrapped || recorded > 0), RefusalReport(received, retries, recorded, 0))
  }

  lemma NewsBound(refusals: seq<Refusal>, known: set<string>)
    ensures News(refusals, known) <= |refusals|
  {
  }

  /** The accepted addresses whose write landed, whatever order they were written in. */
  function Remembered(rows: StatusTable, addresses: set<Email>, lands: Email -> bool, now: int): StatusTable {
    var landed := set a | a in addresses && lands(a) :: Norm(a);
    map k | k in rows.Keys + landed :: if k in landed then StatusRow(Accepted, now) else rows[k]
  }

  /** The store in place. */
  class Store {
    var rows: StatusTable
    var bootstrapped: bool

    ghost function State(): StatusStore
      reads this
    {
      StatusStore(rows, bootstrapped)
    }

    constructor (store: StatusStore)
      ensures State() == store
    {
      rows, bootstrapped := store.rows, store.bootstrapped;
    }

    /** `commit_refusals`. */
    method CommitRefusals(refusals: seq<Refusal>, known: set<string>, dryRun: bool, lands: nat -> bool, now: int)
      returns (report: RefusalReport)
      modifies this
      ensures (State(), report) == Committed(old(State()), refusals, known, dryRun, lands, now)
    {
      hide Record, StatusOf, Norm;
      var received, news := |refusals|, 0;
      for k := 0 to |refusals|
        invariant news == News(refusals[..k], known)
      {
        assert refusals[..k + 1][..k] == refusals[..k];
        if Norm(refusals[k].address) !in known {
          news := news + 1;
        }
      }
      assert refusals[..|refusals|] == refusals;
      NewsBound(refusals, known);
      if dryRun {
        return RefusalReport(received, received - news, 0, 0);
      }
      if bootstrapped && news > REFUSAL_FUSE_CEILING {
        return RefusalReport(received, received - news, 0, received);
      }
      var recorded := 0;
      for k := 0 to |refusals|
        invariant (rows, recorded) == RecordRefusals(old(rows), refusals[..k], lands, now)
        modifies `rows
      {
        assert refusals[..k + 1][..k] == refusals[..k];
        if lands(k) {
          rows := Record(rows, refusals[k].address, StatusOf(refusals[k].outcome), now);
          recorded := recorded + 1;
        }
      }
      if !bootstrapped && recorded > 0 {
        bootstrapped := true;
      }
      report := RefusalReport(received, received - news, recorded, 0);
    }

    /** `remember_accepted`: best effort, one address at a time. */
    method RememberAccepted(addresses: set<Email>, lands: Email -> bool, now: int)
      modifies `rows
      ensures rows == Remembered(old(rows), addresses, lands, now)
    {
      var todo := addresses;
      ghost var done: set<Email> := {};
      assert Remembered(rows, {}, lands, now) == rows;
      while todo != {}
        invariant done + todo == addresses && done !! todo
        invariant rows == Remembered(old(rows), done, lands, now)
        decreases |todo|
      {
        var a :| a in todo;
        RememberOne(old(rows), done, a, lands, now);
        hide Remembered;
        if lands(a) {
          rows := Record(rows, a, Accepted, now);
        }
        todo, done := todo - {a}, done + {a};
      }
      assert done == addresses;
    }
  }

  lemma RememberOne(rows: StatusTable, done: set<Email>, a: Email, lands: Email -> bool, now: int)
    ensures Remembered(rows, done + {a}, lands, now) ==
            if lands(a) then Record(Remembered(rows, done, lands, now), a, Accepted, now)
                else Remembered(rows, done, lands, now)
  {
  }

  // ----------------------------------------------------------------- the fuse

  lemma {:induction false} RecordedRows(rows: StatusTable, refusals: seq<Refusal>, lands: nat -> bool, now: int)
    ensures var r := RecordRefusals(rows, refusals, lands, now).0;
            && (forall a :: a in rows ==> a in r)
            && (forall a ::
                   a in r && (forall k :: 0 <= k < |refusals| ==> Norm(refusals[k].address) != a) ==>
                   a in rows && r[a] == rows[a])
            && (forall a ::
                   a in r && (a !in rows || r[a] != rows[a]) ==> !r[a].status.Accepted? && r[a].observedAt == now)
  {
    if refusals != [] {
      var n := |refusals| - 1;
      RecordedRows(rows, refusals[..n], lands, now);
      forall a | a in RecordRefusals(rows, refusals, lands, now).0
          && (forall k :: 0 <= k < |refusals| ==> Norm(refusals[k].address) != a)
        ensures a in rows && RecordRefusals(rows, refusals, lands, now).0[a] == rows[a]
      {
        assert forall k :: 0 <= k < n ==> refusals[..n][k] == refusals[k];
        assert Norm(refusals[n].address) != a;
      }
    }
  }

  /** The rows a commit changed. */
  function Changed(before: StatusTable, after: StatusTable): set<string> {
    set a | a in after && (a !in before || after[a] != before[a])
  }

  lemma {:induction false} ChangedBound(rows: StatusTable, refusals: seq<Refusal>, lands: nat -> bool, now: int)
    ensures var (after, recorded) := RecordRefusals(rows, refusals, lands, now); |Changed(rows, after)| <= recorded
  {
    if refusals == [] {
      assert Changed(rows, rows) == {};
    } else {
      var n := |refusals| - 1;
      ChangedBound(rows, refusals[..n], lands, now);
      RecordedRows(rows, refusals[..n], lands, now);
      var (before, recorded) := RecordRefusals(rows, refusals[..n], lands, now);
      var after := RecordRefusals(rows, refusals, lands, now).0;
      var changed := Changed(rows, before) + {Norm(refusals[n].address)};
      assert Changed(rows, after) <= changed;
      SubsetSize(Changed(rows, after), changed);
    }
  }

  // -------------------------------------------------- what is read and committed

  /** What a read makes of the rows: a refusal is live for ninety days. */
  lemma StatusesExactly(rows: StatusTable, now: int)
    ensures var st := ReadStatuses(rows, None, now);
            && (forall a :: a in st.accepted <==> a in rows && rows[a].status == Accepted)
            && (forall a :: a in st.refusedAt <==> a in rows && rows[a].status != Accepted)
            && (forall a :: a in st.refusedAt ==> st.refusedAt[a] == rows[a].observedAt)
            && (forall a :: a in st.live <==>
                  a in rows && rows[a].status != Accepted && now - rows[a].observedAt < 90 * 24 * 60 * 60)
            && (forall a :: a in st.Lapsed() <==>
                  a in rows && rows[a].status != Accepted && now - rows[a].observedAt >= 90 * 24 * 60 * 60)
  {
  }

  /** The refusals of addresses not known already, by position. */
  function NewsIn(refusals: seq<Refusal>, known: set<string>): set<nat> {
    set k: nat | k < |refusals| && Norm(refusals[k].address) !in known
  }

  lemma {:induction false} NewsCount(refusals: seq<Refusal>, known: set<string>)
    ensures News(refusals, known) == |NewsIn(refusals, known)|
  {
    if refusals == [] {
      assert NewsIn(refusals, known) == {};
    } else {
      var n := |refusals| - 1;
      NewsCount(refusals[..n], known);
      assert NewsIn(refusals, known) ==
          NewsIn(refusals[..n], known) + (if Norm(refusals[n].address) in known then {} else {n});
    }
  }

  lemma {:induction false} LandedCount(rows: StatusTable, refusals: seq<Refusal>, lands: nat -> bool, now: int)
    ensures RecordRefusals(rows, refusals, lands, now).1 == |set k: nat | k < |refusals| && lands(k)|
  {
    var landed := set k: nat | k < |refusals| && lands(k);
    if refusals == [] {
      assert landed == {};
    } else {
      var n := |refusals| - 1;
      LandedCount(rows, refusals[..n], lands, now);
      assert landed == (set k: nat | k < n && lands(k)) + (if lands(n) then {n} else {});
    }
  }

  /** What a run's refusals come to. A rehearsal writes nothing. An armed run refuses the
      whole batch if more than 25 are news. Any other writes each refusal whose write
      lands; and that is what arms the store. */
  lemma CommitExactly(store: StatusStore, refusals: seq<Refusal>, known: set<string>, dryRun: bool,
      lands: nat -> bool, now: int)
    ensures var (after, report) := Committed(store, refusals, known, dryRun, lands, now);
            var news, landed := |NewsIn(refusals, known)|, |set k: nat | k < |refusals| && lands(k)|;
            && report.received == |refusals| && report.retries == |refusals| - news
            && (after.bootstrapped <==> store.bootstrapped || report.recorded > 0)
            && (if dryRun then after == store && report.recorded == 0 && report.refused == 0
                else if store.bootstrapped && news > 25 then
                  after == store && report.recorded == 0 && report.refused == |refusals|
                else report.recorded == landed && report.refused == 0)
            && (report.HasFailures() <==> report.refused > 0 || report.recorded < |refusals|)
  {
    NewsCount(refusals, known);
    LandedCount(store.rows, refusals, lands, now);
    hide RecordRefusals, NewsIn;
  }
}
