/** What one whole pull guarantees, for every valid database and every roster. */
module RosterTheorems {
  import opened Basics
  import opened Database
  import opened RosterPull
  import opened RosterKeeps
  import opened RosterLeaders
  import opened RosterMerges

  // ---------------------------------------------------------------- it commits

  /** With distinct st_ids the pull's leader statement neither touches a row twice
      nor refers to a row that is gone: the transaction always commits. */
  lemma PullCommits(t0: Tables, members: seq<Member>, dryRun: bool)
    requires Valid(t0) && WellFormed(members)
    ensures PulledIn(t0, members, dryRun).Committed?
  {
    LoopTracks(t0, members, dryRun);
    var s := Looped(t0, members, dryRun);
    hide Valid, Looped;
    assert PairsWell(s);
    forall p | p in s.pairs ensures p.0 in s.t.members && p.1 in s.t.bodies {
      assert p.0 in s.present;
    }
  }

  const ZINE := Leadership("Branch", "Zine")
  const TWICE := Member(1, "a@b.org", None, GoodStanding, None, None, None, None, true, [ZINE])

  /** The state once one such record is stored in empty tables. */
  const STORED_ONCE := PullState(
    Tables(map[0 := RowOf(TWICE)], map[1 := BodyRow("Zine", "Branch", None, None)], map[], map[], 2),
    map[ZINE := 1], [(0, 1)], [0], [], [], map[])

  lemma FirstStored(roster: set<int>)
    requires TWICE.stId in roster
    ensures PulledMember(Start(Tables(map[], map[], map[], map[], 0)), TWICE, roster, true) == STORED_ONCE
  {
    var t0 := Tables(map[], map[], map[], map[], 0);
    var s0 := Start(Tables(map[0 := RowOf(TWICE)], map[], map[], map[], 1));
    assert FindMember(t0.members, 1) == None;
    assert UpsertMember(t0, TWICE) == (s0.t, 0);
    assert FindBody(s0.t.bodies, ZINE) == None;
    assert NameLead(s0, 0, ZINE).t == STORED_ONCE.t;
    assert TWICE.leads[1..] == [];
    assert NameLeads(s0, 0, TWICE.leads) == STORED_ONCE.(present := []);
  }

  lemma SecondStored(roster: set<int>)
    requires TWICE.stId in roster
    ensures Valid(STORED_ONCE.t)
    ensures PulledMember(STORED_ONCE, TWICE, roster, true) == STORED_ONCE.(pairs := [(0, 1), (0, 1)], present := [0, 0])
  {
    var t1 := STORED_ONCE.t;
    assert t1.members == map[0 := RowOf(TWICE)] && RowOf(TWICE).stId == 1 && TWICE.stId == 1;
    assert !Clashes(t1.members, TWICE);
    assert 0 in t1.members && t1.members[0] == RowOf(TWICE);
    assert FindMember(t1.members, TWICE.stId).Some?;
    assert FindMember(t1.members, TWICE.stId).value == 0;
    SameUpdate(t1.members, 0);
    assert UpsertMember(t1, TWICE).1 == 0;
    assert UpsertMember(t1, TWICE).0 == t1;
    assert TWICE.leads[1..] == [];
    assert NameLead(STORED_ONCE, 0, ZINE) == STORED_ONCE.(pairs := [(0, 1), (0, 1)]);
    assert NameLeads(STORED_ONCE, 0, TWICE.leads) == STORED_ONCE.(pairs := [(0, 1), (0, 1)]);
  }

  lemma SameUpdate<K, V>(m: map<K, V>, k: K)
    requires k in m
    ensures m[k := m[k]] == m
  {
  }

  lemma BothStored(roster: set<int>)
    requires TWICE.stId in roster
    ensures PulledAll(Start(Tables(map[], map[], map[], map[], 0)), [TWICE, TWICE], roster, true) ==
            STORED_ONCE.(pairs := [(0, 1), (0, 1)], present := [0, 0])
  {
    FirstStored(roster);
    SecondStored(roster);
    var t0 := Tables(map[], map[], map[], map[], 0);
    hide PulledMember, RowOf, MembersUnique, BodiesUnique;
    var s2 := STORED_ONCE.(pairs := [(0, 1), (0, 1)], present := [0, 0]);
    assert [TWICE, TWICE][1..] == [TWICE] && [TWICE][1..] == [];
    assert PulledAll(s2, [], roster, true) == s2;
    assert PulledAll(STORED_ONCE, [TWICE], roster, true) == s2;
  }

  /** Two records with one st_id that name one body abort the whole pull: the
      roster's distinct ids are a real requirement. */
  lemma RepeatedStIdAborts()
    ensures PulledIn(Tables(map[], map[], map[], map[], 0), [TWICE, TWICE], false) == Aborted(RepeatedLeaderPair)
  {
    var t0 := Tables(map[], map[], map[], map[], 0);
    var roster := RosterIds([TWICE, TWICE]);
    assert TWICE in [TWICE, TWICE];
    NobodyAbsent(roster);
    BothStored(roster);
    hide PulledAll, RowOf, FuseTripped, MembersUnique, BodiesUnique, RosterIds, Absent;
    assert [(0, 1), (0, 1)][0] == [(0, 1), (0, 1)][1];
  }

  lemma NobodyAbsent(roster: set<int>)
    ensures !FuseTripped(Tables(map[], map[], map[], map[], 0), roster)
  {
    var none: map<Uuid, MemberRow> := map[];
    assert Absent(none, roster) == {};
  }

  // -------------------------------------------------------- the stored rows last

  /** The rows of the loop, as the transaction commits them. */
  lemma CommittedRows(t0: Tables, members: seq<Member>, dryRun: bool)
    requires Valid(t0) && WellFormed(members)
    ensures var s, r := Looped(t0, members, dryRun), PulledIn(t0, members, dryRun);
            && r.Committed?
            && r.t.bans == s.t.bans && r.t.bodies == s.t.bodies && r.t.nextId == s.t.nextId
            && r.t.memberships == Reconciled(s).memberships
            && r.t.members.Keys == s.t.members.Keys
            && (forall i :: i in s.t.members ==> r.t.members[i].stId == s.t.members[i].stId)
            && (forall i ::
                   i in s.t.members && s.t.members[i].stId in RosterIds(members) ==>
                   r.t.members[i] == s.t.members[i])
            && r.report.merges == s.merges && r.report.skippedStIds == s.skipped
            && r.report.membersUpserted == |s.present| && r.report.leaderRows == |s.pairs|
  {
    hide Valid, WellFormed, Looped, Absent, LapseAbsent, Reconciled, RosterIds, FuseTripped;
    var s := Looped(t0, members, dryRun);
    PullCommits(t0, members, dryRun);
    LapsedRows(Reconciled(s), RosterIds(members));
    ReconciledRest(s);
  }

  /** A lapse changes the standing of rows the roster does not name, and nothing else. */
  lemma LapsedRows(t: Tables, roster: set<int>)
    ensures var r := LapseAbsent(t, roster);
            && r == t.(members := r.members) && r.members.Keys == t.members.Keys
            && forall i :: i in t.members ==>
                 r.members[i].stId == t.members[i].stId
                     && (t.members[i].stId in roster ==> r.members[i] == t.members[i])
  {
  }

  lemma ReconciledRest(s: PullState)
    ensures Reconciled(s) == s.t.(memberships := Reconciled(s).memberships)
  {
  }

  /** The records a pull stored, in order; the k-th sits in row `present[k]`. */
  function StoredBy(t0: Tables, members: seq<Member>, dryRun: bool): seq<Member>
    requires Valid(t0)
  {
    StoredMembers(members, Looped(t0, members, dryRun).skipped)
  }

  /** A row says what a record says, column by column, and assesses it. */
  ghost predicate Carries(row: MemberRow, m: Member) {
    && row.stId == m.stId && row.email == m.email && row.alternateEmail == m.alternateEmail
    && row.firstName == m.firstName && row.lastName == m.lastName && row.alternateName == m.alternateName
    && row.discordId == m.discordId && row.standing == m.standing && row.isChapterLeader == m.isChapterLeader
    && (m.isChapterLeader && m.leads != [] ==> row.assessment == Leader)
    && (m.isChapterLeader && m.leads == [] ==> row.assessment == EmptyLeader)
    && (!m.isChapterLeader && m.leads != [] ==> row.assessment == UnmarkedLeader)
    && (!m.isChapterLeader && m.leads == [] ==> row.assessment == NonLeader)
  }

  lemma RowCarries(m: Member)
    ensures Carries(RowOf(m), m)
  {
  }

  /** Every record is skipped or stored; the stored rows are distinct, still there
      at commit, and carry exactly what the roster says. */
  lemma StoredRowsSurvive(t0: Tables, members: seq<Member>, dryRun: bool)
    requires Valid(t0) && WellFormed(members)
    ensures var s, r, stored :=
        Looped(t0, members, dryRun), PulledIn(t0, members, dryRun), StoredBy(t0, members, dryRun);
            && r.Committed?
            && r.report.membersUpserted + |r.report.skippedStIds| == |members|
            && (forall m :: m in members ==> m in stored || m.stId in r.report.skippedStIds)
            && Tracks(stored, r.t.members, s.present)
            && (forall k :: 0 <= k < |s.present| ==> Carries(r.t.members[s.present[k]], stored[k]))
  {
    CommittedRows(t0, members, dryRun);
    LoopTracks(t0, members, dryRun);
    var s, r := Looped(t0, members, dryRun), PulledIn(t0, members, dryRun);
    hide Valid, PulledIn, Looped, PairsWell, PairsExact, RowOf;
    StoredMembersIn(members, s.skipped);
    var stored := StoredBy(t0, members, dryRun);
    forall k | 0 <= k < |s.present|
      ensures r.t.members[s.present[k]] == RowOf(stored[k]) && Carries(r.t.members[s.present[k]], stored[k])
    {
      RowCarries(stored[k]);
      assert stored[k] in stored;
      assert s.t.members[s.present[k]].stId in RosterIds(members) by {
        RowOfStId(stored[k]);
        assert stored[k] in members;
      }
    }
  }

  lemma RowOfStId(m: Member)
    ensures RowOf(m).stId == m.stId
  {
  }

  // ------------------------------------------------------------- the leader rows

  predicate IsLeaderRow(ms: Memberships, id: Uuid, b: Uuid) {
    (id, b) in ms && ms[(id, b)].role.AsLeader?
  }

  ghost predicate Reconciles(ms: Memberships, r: Memberships, pairs: seq<(Uuid, Uuid)>, present: seq<Uuid>) {
    && (forall k :: k in pairs ==> k in r && r[k] == BodyMembership(AsLeader, None, None))
    && (forall k :: k !in pairs ==> (k in r <==> k in ms && !(ms[k].role.AsLeader? && k.0 in present)))
    && (forall k :: k in r && k !in pairs ==> r[k] == ms[k])
  }

  lemma ReconciledRows(s: PullState)
    ensures Reconciles(s.t.memberships, Reconciled(s).memberships, s.pairs, s.present)
  {
  }

  /** After a pull a stored member leads exactly the bodies their record names. */
  lemma LeaderExactness(t0: Tables, members: seq<Member>, dryRun: bool)
    requires Valid(t0) && WellFormed(members)
    ensures var s, r, stored :=
        Looped(t0, members, dryRun), PulledIn(t0, members, dryRun), StoredBy(t0, members, dryRun);
            && r.Committed? && |stored| == |s.present|
            && (forall k, l :: 0 <= k < |stored| && l in stored[k].leads ==> Named(r.t.bodies, l))
            && (forall k, b :: 0 <= k < |stored| && b in r.t.bodies ==>
                  (IsLeaderRow(r.t.memberships, s.present[k], b) <==> LeadershipOf(r.t.bodies[b]) in stored[k].leads))
  {
    CommittedRows(t0, members, dryRun);
    LoopTracks(t0, members, dryRun);
    var s, r, stored := Looped(t0, members, dryRun), PulledIn(t0, members, dryRun), StoredBy(t0, members, dryRun);
    ReconciledRows(s);
    hide Valid, PulledIn, Looped, Tracked, PairsWell, Reconciled;
    forall k, b | 0 <= k < |stored| && b in r.t.bodies
      ensures IsLeaderRow(r.t.memberships, s.present[k], b) <==> LeadershipOf(r.t.bodies[b]) in stored[k].leads
    {
      assert PairsName(s.t.bodies, s.pairs, stored[k], s.present[k]);
      assert (s.present[k], b).0 in s.present;
    }
    forall k, l | 0 <= k < |stored| && l in stored[k].leads ensures Named(r.t.bodies, l) {
      assert PairsName(s.t.bodies, s.pairs, stored[k], s.present[k]);
    }
  }

  /** Every heir is a row this pull stored. */
  ghost predicate HeirsIn(heirs: map<Uuid, Uuid>, present: seq<Uuid>) {
    forall d :: d in heirs ==> heirs[d] in present
  }

  lemma HeirStored(s: PullState, m: Member, roster: set<int>, merging: bool)
    requires Valid(s.t) && m.stId in roster && HeirsIn(s.heirs, s.present)
    ensures var r := PulledMember(s, m, roster, merging); HeirsIn(r.heirs, r.present)
  {
    hide MembersUnique, BodiesUnique, MembershipsRefer, UpsertMember, MergedDuplicates;
    if UpsertedOne(s, m).Stored? {
      NamesLeads(s.(t := UpsertMember(s.t, m).0), UpsertMember(s.t, m).1, m.leads);
    } else if merging {
      var merged := MergedDuplicates(s.t, m, roster);
      var s' := WithMerge(s, merged);
      MergesDuplicates(s.t, m, roster);
      if UpsertedOne(s', m).Stored? {
        var (t, id) := UpsertMember(s'.t, m);
        NamesLeads(s'.(t := t), id, m.leads);
        forall d | d in merged.heirs ensures merged.heirs[d] == id {
          SameRow(s'.t, m, merged.heirs[d]);
        }
      }
    }
  }

  lemma SameRow(t: Tables, m: Member, id: Uuid)
    requires Valid(t) && !Clashes(t.members, m) && id in t.members && t.members[id].stId == m.stId
    ensures UpsertMember(t, m).1 == id
  {
  }

  lemma {:induction false} HeirsStored(s: PullState, members: seq<Member>, roster: set<int>, merging: bool)
    requires Valid(s.t) && HeirsIn(s.heirs, s.present) && forall m :: m in members ==> m.stId in roster
    ensures var r := PulledAll(s, members, roster, merging); HeirsIn(r.heirs, r.present)
    decreases |members|
  {
    hide Valid, HeirsIn, StoredMember, PulledMember;
    if members != [] {
      HeirStored(s, members[0], roster, merging);
      HeirsStored(PulledMember(s, members[0], roster, merging), members[1..], roster, merging);
    }
  }

  lemma LoopHeirsStored(t0: Tables, members: seq<Member>, dryRun: bool)
    requires Valid(t0)
    ensures var s := Looped(t0, members, dryRun); HeirsIn(s.heirs, s.present)
  {
    var roster := RosterIds(members);
    HeirsStored(Start(t0), members, roster, !(dryRun || FuseTripped(t0, roster)));
  }

  /** The rows of members this pull did not store are left alone, leader rows too;
      a plain member row of anyone not folded stays, or is promoted in place exactly
      when the records name them. */
  lemma OtherRowsStand(t0: Tables, members: seq<Member>, dryRun: bool)
    requires Valid(t0) && WellFormed(members)
    ensures var s, r := Looped(t0, members, dryRun), PulledIn(t0, members, dryRun);
            && r.Committed?
            && (forall k :: k in t0.memberships && k.0 !in s.heirs && k.0 !in s.present ==>
                  k in r.t.memberships && r.t.memberships[k] == Attributed(s.heirs, t0.memberships[k]))
            && (forall k :: k in r.t.memberships && k.0 !in s.present ==> k in t0.memberships)
            && (forall k :: k in t0.memberships && k.0 !in s.heirs && t0.memberships[k].role.AsMember? ==>
                  && k in r.t.memberships
                  && r.t.memberships[k] == if k in s.pairs then BodyMembership(AsLeader, None, None)
                                           else Attributed(s.heirs, t0.memberships[k]))
  {
    CommittedRows(t0, members, dryRun);
    LoopTracks(t0, members, dryRun);
    LoopKeeps(t0, members, dryRun);
    LoopHeirsStored(t0, members, dryRun);
    var s, r := Looped(t0, members, dryRun), PulledIn(t0, members, dryRun);
    ReconciledRows(s);
    hide Valid, PulledIn, Looped, Tracked, PairsExact, Reconciled, Reconciles, KeepsMembers, KeepsBans, KeepsBodies,
        KeepsMemberships, HeirsIn;
    OthersReconciled(t0.memberships, s.t.memberships, r.t.memberships, s.heirs, s.pairs, s.present);
  }

  lemma OthersReconciled(ms0: Memberships, ms: Memberships, r: Memberships, heirs: map<Uuid, Uuid>,
      pairs: seq<(Uuid, Uuid)>, present: seq<Uuid>)
    requires KeepsMemberships(ms0, ms, heirs) && Reconciles(ms, r, pairs, present)
    requires HeirsIn(heirs, present) && forall k :: k in pairs ==> k.0 in present
    ensures forall k :: k in ms0 && k.0 !in heirs && k.0 !in present ==>
              k in r && r[k] == Attributed(heirs, ms0[k])
    ensures forall k :: k in r && k.0 !in present ==> k in ms0
    ensures forall k :: k in ms0 && k.0 !in heirs && ms0[k].role.AsMember? ==>
              && k in r
              && r[k] == if k in pairs then BodyMembership(AsLeader, None, None) else Attributed(heirs, ms0[k])
  {
    forall k | k in r && k.0 !in present ensures k in ms0 {
      assert k in ms;
    }
  }

  // ------------------------------------------------------------ account merges

  /** Row `id` led body `b` before the pull, and the roster's record with the row's
      st_id does not name it. */
  ghost predicate StaleLeaderRow(t0: Tables, members: seq<Member>, after: Tables, id: Uuid, b: Uuid) {
    && IsLeaderRow(t0.memberships, id, b) && b in t0.bodies && id in after.members
    && exists m :: m in members && m.stId == after.members[id].stId && LeadershipOf(t0.bodies[b]) !in m.leads
  }

  /** For a row the pull stored, that is what its pair list says. */
  lemma StaleMeans(t0: Tables, members: seq<Member>, dryRun: bool, id: Uuid, b: Uuid)
    requires Valid(t0) && WellFormed(members) && PulledIn(t0, members, dryRun).Committed?
    requires id in Looped(t0, members, dryRun).present
    ensures StaleLeaderRow(t0, members, PulledIn(t0, members, dryRun).t, id, b) <==>
            IsLeaderRow(t0.memberships, id, b) && (id, b) !in Looped(t0, members, dryRun).pairs
  {
    var s, r, stored := Looped(t0, members, dryRun), PulledIn(t0, members, dryRun), StoredBy(t0, members, dryRun);
    CommittedRows(t0, members, dryRun);
    LoopTracks(t0, members, dryRun);
    LoopKeeps(t0, members, dryRun);
    StoredMembersIn(members, s.skipped);
    assert IsLeaderRow(t0.memberships, id, b) ==> b in t0.bodies;
    hide Valid, PulledIn, Looped, PairsWell, KeepsMembers, KeepsBans, KeepsMemberships, RowOf, StoredMembers;
    var k :| 0 <= k < |s.present| && s.present[k] == id;
    RowOfStId(stored[k]);
    assert stored[k] in stored && stored[k] in members;
    assert PairsName(s.t.bodies, s.pairs, stored[k], id);
    forall m | m in members && m.stId == r.t.members[id].stId ensures m == stored[k] {
      OneRecord(members, m, stored[k]);
    }
  }

  lemma OneRecord(members: seq<Member>, a: Member, b: Member)
    requires WellFormed(members) && a in members && b in members && a.stId == b.stId
    ensures a == b
  {
    var i :| 0 <= i < |members| && members[i] == a;
    var j :| 0 <= j < |members| && members[j] == b;
    assert !(i < j) && !(j < i);
  }

  /** Nothing of a folded row is lost: its ban stands on the heir and no one else is
      banned; every attribution is kept or moves to the heir; and each manual add is
      held by the heir, except exactly where the heir led that body before and its
      record names it no longer. */
  lemma MergeConservation(t0: Tables, members: seq<Member>, dryRun: bool)
    requires Valid(t0) && WellFormed(members)
    ensures var s, r := Looped(t0, members, dryRun), PulledIn(t0, members, dryRun);
            && r.Committed?
            && KeepsBans(t0.bans, r.t.bans, s.heirs)
            && (forall k :: k in r.t.memberships && k !in s.pairs ==>
                  if k in t0.memberships then r.t.memberships[k] == Attributed(s.heirs, t0.memberships[k])
                  else exists d :: CarriedFrom(t0.memberships, s.heirs, d, k, r.t.memberships[k]))
            && (forall k :: k in t0.memberships && k.0 in s.heirs && t0.memberships[k].role.AsMember? ==>
                  ((s.heirs[k.0], k.1) in r.t.memberships <==> !StaleLeaderRow(t0, members, r.t, s.heirs[k.0], k.1)))
  {
    CommittedRows(t0, members, dryRun);
    LoopKeeps(t0, members, dryRun);
    LoopHeirsStored(t0, members, dryRun);
    var s, r := Looped(t0, members, dryRun), PulledIn(t0, members, dryRun);
    ReconciledRows(s);
    hide MembersUnique, BodiesUnique, PulledIn, Looped, Reconciled, Reconciles, KeepsBans, KeepsBodies,
        KeepsMemberships, HeirsIn;
    assert forall k :: k in s.t.memberships ==> k.0 !in s.heirs;
    CarriedReconciled(t0.memberships, s.t.memberships, r.t.memberships, s.heirs, s.pairs, s.present);
    hide Valid, StaleLeaderRow;
    forall k | k in t0.memberships && k.0 in s.heirs && t0.memberships[k].role.AsMember?
      ensures (s.heirs[k.0], k.1) in r.t.memberships <==> !StaleLeaderRow(t0, members, r.t, s.heirs[k.0], k.1)
    {
      HeirPresent(s, k.0);
      StaleMeans(t0, members, dryRun, s.heirs[k.0], k.1);
    }
  }

  lemma HeirPresent(s: PullState, d: Uuid)
    requires HeirsIn(s.heirs, s.present) && d in s.heirs
    ensures s.heirs[d] in s.present
  {
  }

  lemma CarriedReconciled(ms0: Memberships, ms: Memberships, r: Memberships, heirs: map<Uuid, Uuid>,
      pairs: seq<(Uuid, Uuid)>, present: seq<Uuid>)
    requires KeepsMemberships(ms0, ms, heirs) && Reconciles(ms, r, pairs, present)
    requires HeirsIn(heirs, present) && forall k :: k in ms ==> k.0 !in heirs
    ensures forall k :: k in r && k !in pairs ==>
              if k in ms0 then r[k] == Attributed(heirs, ms0[k])
              else exists d :: CarriedFrom(ms0, heirs, d, k, r[k])
    ensures forall k :: k in ms0 && k.0 in heirs && ms0[k].role.AsMember? ==>
              ((heirs[k.0], k.1) in r <==> !(IsLeaderRow(ms0, heirs[k.0], k.1) && (heirs[k.0], k.1) !in pairs))
  {
    forall k | k in ms0 && k.0 in heirs && ms0[k].role.AsMember?
      ensures (heirs[k.0], k.1) in r <==> !(IsLeaderRow(ms0, heirs[k.0], k.1) && (heirs[k.0], k.1) !in pairs)
    {
      var j := (heirs[k.0], k.1);
      assert j in ms && j.0 in present;
      if j !in ms0 {
        var d :| CarriedFrom(ms0, heirs, d, j, ms[j]);
        assert ms[j].role.AsMember?;
      }
    }
  }

  /** The merges reported are the rows folded or re-keyed: each once, and all. */
  lemma MergesReported(t0: Tables, members: seq<Member>, dryRun: bool)
    requires Valid(t0) && WellFormed(members)
    ensures var s, r := Looped(t0, members, dryRun), PulledIn(t0, members, dryRun);
            r.Committed? && Accounts(t0, r.t.members, s.heirs, r.report.merges, RosterIds(members))
  {
    CommittedRows(t0, members, dryRun);
    LoopAccounts(t0, members, dryRun);
    var s, r := Looped(t0, members, dryRun), PulledIn(t0, members, dryRun);
    hide Valid, PulledIn, Looped, Keeps, Accounts;
    AccountsByStId(t0, s.t.members, r.t.members, s.heirs, s.merges, RosterIds(members));
  }

  lemma AccountsByStId(t0: Tables, members: map<Uuid, MemberRow>, r: map<Uuid, MemberRow>, heirs: map<Uuid, Uuid>,
                       merges: seq<AccountMerge>, roster: set<int>)
    requires Accounts(t0, members, heirs, merges, roster)
    requires r.Keys == members.Keys && forall i :: i in members ==> r[i].stId == members[i].stId
    ensures Accounts(t0, r, heirs, merges, roster)
  {
    forall k | 0 <= k < |merges| ensures MergeHolds(t0, r, heirs, roster, merges[k]) {
      assert MergeHolds(t0, members, heirs, roster, merges[k]);
    }
  }

  // ------------------------------------------------------------------- the fuse

  /** The good-standing rows no record names. */
  function Missing(t: Tables, members: seq<Member>): set<Uuid> {
    set i | i in t.members && t.members[i].standing == GoodStanding
            && forall m :: m in members ==> m.stId != t.members[i].stId
  }

  function GoodStandingIn(t: Tables): set<Uuid> {
    set i | i in t.members && t.members[i].standing == GoodStanding
  }

  /** The fuse trips when more than five good-standing rows are missing from the roster
      and they are more than a tenth of all in good standing, rounded up. */
  lemma FuseTripsExactly(t: Tables, members: seq<Member>)
    ensures Absent(t.members, RosterIds(members)) == Missing(t, members)
    ensures var missing, all := |Missing(t, members)|, |GoodStandingIn(t)|;
            FuseTripped(t, RosterIds(members)) <==> missing > 5 && 10 * (missing - 1) >= all
  {
    assert forall st :: st in RosterIds(members) <==> exists m :: m in members && m.stId == st;
    assert Absent(t.members, RosterIds(members)) == Missing(t, members);
    assert InGoodStanding(t.members) == GoodStandingIn(t);
  }

  // -------------------------------------------------------------------- lapses

  /** The merged duplicates that were in good standing. */
  function MergedInGoodStanding(t0: Tables, merges: seq<AccountMerge>): set<Uuid> {
    set i | i in t0.members && i in DuplicateIds(merges) && t0.members[i].standing.GoodStanding?
  }

  /** With the fuse quiet, every good-standing row the roster lacks either lapses or
      is merged; that is no more than the budget, and no other good-standing row is
      left outside the roster. */
  lemma LapseConservation(t0: Tables, members: seq<Member>, dryRun: bool)
    requires Valid(t0) && WellFormed(members) && !FuseTripped(t0, RosterIds(members))
    ensures var r := PulledIn(t0, members, dryRun);
            && r.Committed? && r.report.lapseRefused == 0
            && |Missing(t0, members)| == r.report.absentLapsed + |MergedInGoodStanding(t0, r.report.merges)|
            && (|Missing(t0, members)| <= 5 || 10 * (|Missing(t0, members)| - 1) < |GoodStandingIn(t0)|)
            && Missing(r.t, members) == {}
  {
    var s, r, roster := Looped(t0, members, dryRun), PulledIn(t0, members, dryRun), RosterIds(members);
    PullCommits(t0, members, dryRun);
    LoopAccounts(t0, members, dryRun);
    assert r.t == LapseAbsent(Reconciled(s), roster) && Reconciled(s).members == s.t.members;
    LapseEmpties(Reconciled(s), roster);
    FuseTripsExactly(t0, members);
    FuseTripsExactly(r.t, members);
    hide Valid, Looped, KeepsBans, KeepsBodies, KeepsMemberships, KeepsMembers, Reconciled, PulledIn, Absent,
        LapseAbsent;
    var lapsed, merged := Absent(s.t.members, roster), MergedInGoodStanding(t0, s.merges);
    assert forall i :: i in DuplicateIds(s.merges) ==> i in t0.members && t0.members[i].stId !in roster by {
      forall i | i in DuplicateIds(s.merges) ensures i in t0.members && t0.members[i].stId !in roster {
        var k :| 0 <= k < |s.merges| && DuplicateIds(s.merges)[k] == i;
        assert MergeHolds(t0, s.t.members, s.heirs, roster, s.merges[k]);
      }
    }
    AbsentSplit(t0, s, roster);
    DisjointSizes(lapsed, merged, Absent(t0.members, roster));
  }

  lemma LapseEmpties(t: Tables, roster: set<int>)
    ensures Absent(LapseAbsent(t, roster).members, roster) == {}
  {
  }

  lemma AbsentSplit(t0: Tables, s: PullState, roster: set<int>)
    requires KeepsMembers(t0, s.t.members, s.heirs, roster) && Accounts(t0, s.t.members, s.heirs, s.merges, roster)
    requires forall i :: i in DuplicateIds(s.merges) ==> i in t0.members && t0.members[i].stId !in roster
    ensures Absent(s.t.members, roster) !! MergedInGoodStanding(t0, s.merges)
    ensures Absent(s.t.members, roster) + MergedInGoodStanding(t0, s.merges) == Absent(t0.members, roster)
  {
  }

  lemma CommittedUnlapsed(t0: Tables, members: seq<Member>, dryRun: bool)
    requires Valid(t0) && FuseTripped(t0, RosterIds(members)) && PulledIn(t0, members, dryRun).Committed?
    ensures var s, r := Looped(t0, members, dryRun), PulledIn(t0, members, dryRun);
            && r.t.members == s.t.members && r.report.merges == s.merges
            && r.report.absentLapsed == 0 && r.report.lapseRefused == |Absent(t0.members, RosterIds(members))|
  {
    hide Valid, Looped, Absent, RosterIds;
  }

  /** A tripped fuse refuses the lapse and every merge: no absent row changes at all,
      and no row is folded, re-keyed or deleted. */
  lemma FuseRefuses(t0: Tables, members: seq<Member>, dryRun: bool)
    requires Valid(t0) && FuseTripped(t0, RosterIds(members)) && PulledIn(t0, members, dryRun).Committed?
    ensures var r, roster := PulledIn(t0, members, dryRun), RosterIds(members);
            && r.report.merges == []
            && r.report.absentLapsed == 0 && r.report.lapseRefused == |Missing(t0, members)| > 0
            && (forall i :: i in t0.members ==> i in r.t.members && r.t.members[i].stId == t0.members[i].stId)
            && (forall i :: i in t0.members && t0.members[i].stId !in roster ==> r.t.members[i] == t0.members[i])
  {
    hide Valid, PulledAll, PulledIn, Absent;
    CommittedUnlapsed(t0, members, dryRun);
    FuseTripsExactly(t0, members);
    assert forall m :: m in members ==> m.stId in RosterIds(members);
    NoMerging(Start(t0), members, RosterIds(members));
  }

  /** The step from `s` to `r` folded, re-keyed and reported nothing, and changed no
      row the roster does not name. */
  ghost predicate Unmerged(s: PullState, r: PullState, roster: set<int>) {
    && r.heirs == s.heirs && r.merges == s.merges
    && (forall i :: i in s.t.members ==> i in r.t.members && r.t.members[i].stId == s.t.members[i].stId)
    && (forall i :: i in s.t.members && s.t.members[i].stId !in roster ==> r.t.members[i] == s.t.members[i])
  }

  lemma UnmergedStep(s: PullState, m: Member, roster: set<int>)
    requires Valid(s.t) && m.stId in roster
    ensures Unmerged(s, PulledMember(s, m, roster, false), roster)
  {
    hide MembersUnique, BodiesUnique, MembershipsRefer, NameLeads, Clashes;
    if !Clashes(s.t.members, m) {
      NamesLeads(s.(t := UpsertMember(s.t, m).0), UpsertMember(s.t, m).1, m.leads);
    }
  }

  /** With merging off no step folds, re-keys or reports anything. */
  lemma {:induction false} NoMerging(s: PullState, members: seq<Member>, roster: set<int>)
    requires Valid(s.t) && forall m :: m in members ==> m.stId in roster
    ensures Unmerged(s, PulledAll(s, members, roster, false), roster)
    decreases |members|
  {
    hide Valid, PulledMember;
    if members != [] {
      UnmergedStep(s, members[0], roster);
      NoMerging(PulledMember(s, members[0], roster, false), members[1..], roster);
    }
  }
}
