/** What a whole pull does to the member rows and says in its report, told by columns
    and numbers alone. */
module RosterPlain {
  import opened Basics
  import opened Database
  import opened RosterPull
  import opened RosterKeeps
  import opened RosterLeaders
  import opened RosterMerges
  import opened RosterTheorems

  // ------------------------------------------------------------- rostered rows

  /** The row says what some record of the roster says, or its record was skipped. */
  ghost predicate Said(done: seq<Member>, skipped: seq<int>, row: MemberRow) {
    || (exists m :: m in done && Carries(row, m))
    || (forall m :: m in done && m.stId == row.stId ==> m.stId in skipped)
  }

  ghost predicate AllSaid(done: seq<Member>, s: PullState, roster: set<int>) {
    forall i :: i in s.t.members && s.t.members[i].stId in roster ==> Said(done, s.skipped, s.t.members[i])
  }

  lemma SaidStill(done: seq<Member>, skipped: seq<int>, m: Member, after: seq<int>, row: MemberRow)
    requires Said(done, skipped, row) && skipped <= after && (m.stId == row.stId ==> m.stId in after)
    ensures Said(done + [m], after, row)
  {
    hide Carries;
    if d :| d in done && Carries(row, d) {
      assert d in done + [m];
    }
  }

  /** Where a stored record leaves the rostered rows: its own, and those before it. */
  lemma RosteredAfter(s: PullState, m: Member, roster: set<int>, merging: bool)
    requires Valid(s.t) && m.stId in roster && StoredMember(s, m, roster, merging).Stored?
    ensures var r := StoredMember(s, m, roster, merging);
            && r.id in r.s.t.members && Carries(r.s.t.members[r.id], m) && r.s.skipped == s.skipped
            && forall i :: i in r.s.t.members && i != r.id && r.s.t.members[i].stId in roster ==>
                 i in s.t.members && s.t.members[i] == r.s.t.members[i] && r.s.t.members[i].stId != m.stId
  {
    var r := StoredMember(s, m, roster, merging);
    var merged := WithMerge(s, MergedDuplicates(s.t, m, roster));
    var from := if UpsertedOne(s, m).Stored? then s else merged;
    assert r == UpsertedOne(from, m);
    hide BodiesUnique, MembershipsRefer, LinksUnique, MergedDuplicates, UpsertedOne, StoredMember, Carries, Holds,
        MembersUnique, RowOf;
    UpsertedRows(from, m, roster);
    MergeRows(s.t, m, roster);
    RowCarries(m);
    RowOfStId(m);
    RosteredMerged(s.t.members, from.t.members, r.s.t.members, m, r.id, roster);
  }

  lemma RosteredMerged(members: map<Uuid, MemberRow>, merged: map<Uuid, MemberRow>, r: map<Uuid, MemberRow>,
      m: Member, id: Uuid, roster: set<int>)
    requires merged == members || MergesRows(members, merged, m, roster)
    requires r == merged[id := RowOf(m)] && RowOf(m).stId == m.stId && MembersUnique(r)
    ensures forall i :: i in r && i != id && r[i].stId in roster ==>
        i in members && members[i] == r[i] && r[i].stId != m.stId
  {
    hide RowOf, Holds;
    forall i | i in r && i != id && r[i].stId in roster
      ensures i in members && members[i] == r[i] && r[i].stId != m.stId
    {
      assert r[i].stId != r[id].stId;
    }
  }

  lemma AllSaidNext(done: seq<Member>, s: PullState, m: Member, roster: set<int>, merging: bool)
    requires Valid(s.t) && m.stId in roster && AllSaid(done, s, roster)
    ensures AllSaid(done + [m], PulledMember(s, m, roster, merging), roster)
  {
    hide Valid, StoredMember, Said, Carries;
    var out, r := StoredMember(s, m, roster, merging), PulledMember(s, m, roster, merging);
    if out.Stored? {
      RosteredAfter(s, m, roster, merging);
      forall i | i in r.t.members && r.t.members[i].stId in roster
        ensures Said(done + [m], r.skipped, r.t.members[i])
      {
        if i == out.id {
          JustSaid(done, m, r.skipped, r.t.members[i]);
        } else {
          SaidStill(done, s.skipped, m, r.skipped, r.t.members[i]);
        }
      }
    } else {
      SkipExactly(s, m, roster, merging);
      assert m.stId in r.skipped;
      forall i | i in r.t.members && r.t.members[i].stId in roster
        ensures Said(done + [m], r.skipped, r.t.members[i])
      {
        SaidStill(done, s.skipped, m, r.skipped, r.t.members[i]);
      }
    }
  }

  lemma JustSaid(done: seq<Member>, m: Member, skipped: seq<int>, row: MemberRow)
    requires Carries(row, m)
    ensures Said(done + [m], skipped, row)
  {
    assert m in done + [m];
  }

  lemma {:induction false} AllSaidOn(done: seq<Member>, s: PullState, rest: seq<Member>, roster: set<int>,
      merging: bool)
    requires Valid(s.t) && AllSaid(done, s, roster) && forall m :: m in rest ==> m.stId in roster
    ensures AllSaid(done + rest, PulledAll(s, rest, roster, merging), roster)
    decreases |rest|
  {
    hide Valid, AllSaid, PulledMember;
    if rest == [] {
      assert done + rest == done;
    } else {
      AllSaidNext(done, s, rest[0], roster, merging);
      AllSaidOn(done + [rest[0]], PulledMember(s, rest[0], roster, merging), rest[1..], roster, merging);
      assert (done + [rest[0]]) + rest[1..] == done + rest;
    }
  }

  /** After any pull that commits, whatever the roster repeats: a row with a record's
      st_id says, column by column, what a record with that st_id says, unless the pull
      skipped that st_id. */
  lemma RosteredRowsSay(t: Tables, members: seq<Member>, dryRun: bool, i: Uuid)
    requires Valid(t) && PulledIn(t, members, dryRun).Committed?
    requires var r := PulledIn(t, members, dryRun);
             i in r.t.members && r.t.members[i].stId in RosterIds(members)
    ensures var r := PulledIn(t, members, dryRun);
            exists m :: m in members && m.stId == r.t.members[i].stId
                        && (Carries(r.t.members[i], m) || m.stId in r.report.skippedStIds)
  {
    hide Valid, PulledAll, Carries, Absent, FuseTripped, PulledIn, AllSaid;
    var roster := RosterIds(members);
    NothingStored(t, roster);
    AllSaidOn([], Start(t), members, roster, !(dryRun || FuseTripped(t, roster)));
    assert [] + members == members;
    var s, r := Looped(t, members, dryRun), PulledIn(t, members, dryRun);
    CommittedAnyway(t, members, dryRun);
    assert AllSaid(members, s, roster);
    OneSaid(members, s, roster, i);
    hide Looped, Said, RosterIds;
    SaidMeans(members, s.skipped, r.t.members[i]);
  }

  lemma OneSaid(members: seq<Member>, s: PullState, roster: set<int>, i: Uuid)
    requires AllSaid(members, s, roster) && i in s.t.members && s.t.members[i].stId in roster
    ensures Said(members, s.skipped, s.t.members[i])
  {
  }

  lemma SaidMeans(members: seq<Member>, skipped: seq<int>, row: MemberRow)
    requires Said(members, skipped, row) && row.stId in RosterIds(members)
    ensures exists m :: m in members && m.stId == row.stId && (Carries(row, m) || m.stId in skipped)
  {
    hide Carries;
    var m :| m in members && m.stId == row.stId;
    if d :| d in members && Carries(row, d) {
      CarriesStId(row, d);
    }
  }

  lemma CarriesStId(row: MemberRow, m: Member)
    requires Carries(row, m)
    ensures m.stId == row.stId
  {
  }

  lemma NothingStored(t: Tables, roster: set<int>)
    ensures AllSaid([], Start(t), roster)
  {
  }

  /** The rows a commit leaves, whatever the roster repeats. */
  lemma CommittedAnyway(t: Tables, members: seq<Member>, dryRun: bool)
    requires Valid(t) && PulledIn(t, members, dryRun).Committed?
    ensures var s, r := Looped(t, members, dryRun), PulledIn(t, members, dryRun);
            && r.report.skippedStIds == s.skipped && r.report.merges == s.merges
            && r.t.members.Keys == s.t.members.Keys
            && (forall i :: i in r.t.members && s.t.members[i].stId in RosterIds(members) ==>
                  r.t.members[i] == s.t.members[i])
            && (forall i :: i in r.t.members ==> r.t.members[i].stId == s.t.members[i].stId)
  {
    hide Valid, Looped, FuseTripped, Absent, RosterIds;
    LapsedRows(Reconciled(Looped(t, members, dryRun)), RosterIds(members));
    ReconciledRest(Looped(t, members, dryRun));
  }

  // ----------------------------------------------------------- unrostered rows

  /** A row no record names, and no merge took, keeps every column but its standing; and
      that lapses exactly if the fuse is quiet. */
  lemma UnrosteredRowsStand(t: Tables, members: seq<Member>, dryRun: bool, i: Uuid)
    requires Valid(t) && PulledIn(t, members, dryRun).Committed?
    requires i in t.members && forall m :: m in members ==> m.stId != t.members[i].stId
    requires forall k :: 0 <= k < |PulledIn(t, members, dryRun).report.merges| ==>
        PulledIn(t, members, dryRun).report.merges[k].duplicateMemberId != i
    ensures var r, before := PulledIn(t, members, dryRun), t.members[i];
            var missing, all := |Missing(t, members)|, |GoodStandingIn(t)|;
            && i in r.t.members
            && r.t.members[i] == (if missing > 5 && 10 * (missing - 1) >= all then before
                                  else before.(standing := Lapsed))
  {
    FuseTripsExactly(t, members);
    LoopAccounts(t, members, dryRun);
    var s, r, roster := Looped(t, members, dryRun), PulledIn(t, members, dryRun), RosterIds(members);
    CommittedAnyway(t, members, dryRun);
    LapsedExactly(t, members, dryRun);
    hide Valid, Looped, PulledIn, KeepsBans, KeepsBodies, KeepsMemberships, FuseTripped, Absent;
    assert i !in DuplicateIds(s.merges);
  }

  lemma LapsedExactly(t: Tables, members: seq<Member>, dryRun: bool)
    requires Valid(t) && PulledIn(t, members, dryRun).Committed?
    ensures var s, r := Looped(t, members, dryRun), PulledIn(t, members, dryRun);
            forall i :: i in r.t.members && s.t.members[i].stId !in RosterIds(members) ==>
              r.t.members[i] == (if FuseTripped(t, RosterIds(members)) then s.t.members[i]
                                 else s.t.members[i].(standing := Lapsed))
  {
    hide Valid, Looped, FuseTripped, RosterIds, Absent, LapseAbsent, Reconciled;
    ReconciledRest(Looped(t, members, dryRun));
    LapsesTheRest(Reconciled(Looped(t, members, dryRun)), RosterIds(members));
  }

  lemma LapsesTheRest(t: Tables, roster: set<int>)
    ensures var r := LapseAbsent(t, roster);
            && r.members.Keys == t.members.Keys
            && forall i :: i in t.members && t.members[i].stId !in roster ==>
                 r.members[i] == t.members[i].(standing := Lapsed)
  {
  }

  // -------------------------------------------------------------------- merges

  /** The merged row had the email of a record with the survivor's st_id, or the Discord
      id it carries. */
  ghost predicate MergeShares(t: Tables, members: seq<Member>, merge: AccountMerge) {
    && merge.duplicateMemberId in t.members
    && exists m :: m in members && m.stId == merge.survivorStId && Shares(t.members[merge.duplicateMemberId], m)
  }

  ghost predicate AllShare(t: Tables, members: seq<Member>, merges: seq<AccountMerge>) {
    forall k :: 0 <= k < |merges| ==> MergeShares(t, members, merges[k])
  }

  lemma NewMergesShare(t0: Tables, members: seq<Member>, s: PullState, m: Member, roster: set<int>)
    requires Valid(s.t) && m in members && m.stId in roster && KeepsMembers(t0, s.t.members, s.heirs, roster)
    ensures AllShare(t0, members, MergedDuplicates(s.t, m, roster).merges)
  {
    hide MembersUnique, BodiesUnique, MembershipsRefer, MergedDuplicates, DuplicatesInOrder;
    var duplicates, merges := DuplicatesInOrder(s.t.members, m, roster), MergedDuplicates(s.t, m, roster).merges;
    if duplicates == [] {
      NoneMerged(s.t, m, roster);
    } else {
      MergedParts(s.t, m, roster);
      HoldsShares(s.t.members, m);
      hide Holds, Shares;
      forall k | 0 <= k < |merges| ensures MergeShares(t0, members, merges[k]) {
        assert duplicates[k] in duplicates;
        assert merges[k].duplicateMemberId == duplicates[k] && merges[k].survivorStId == m.stId;
      }
    }
  }

  lemma SharesNext(t0: Tables, members: seq<Member>, s: PullState, m: Member, roster: set<int>, merging: bool)
    requires Valid(s.t) && m in members && m.stId in roster && KeepsMembers(t0, s.t.members, s.heirs, roster)
    requires AllShare(t0, members, s.merges)
    ensures AllShare(t0, members, PulledMember(s, m, roster, merging).merges)
  {
    NewMergesShare(t0, members, s, m, roster);
    hide MembersUnique, BodiesUnique, MembershipsRefer, MergedDuplicates, MergeShares, Clashes, UpsertMember;
    var merged := WithMerge(s, MergedDuplicates(s.t, m, roster));
    if UpsertedOne(s, m).Stored? {
      UpsertKeepsMerges(s, m);
    } else if merging && UpsertedOne(merged, m).Stored? {
      UpsertKeepsMerges(merged, m);
    }
  }

  lemma UpsertKeepsMerges(s: PullState, m: Member)
    requires Valid(s.t) && UpsertedOne(s, m).Stored?
    ensures UpsertedOne(s, m).s.merges == s.merges
  {
    hide Valid, Clashes;
    NamesLeads(s.(t := UpsertMember(s.t, m).0), UpsertMember(s.t, m).1, m.leads);
  }

  lemma {:induction false} SharesOn(t0: Tables, members: seq<Member>, s: PullState, rest: seq<Member>, roster: set<int>,
      merging: bool)
    requires Keeps(t0, s.t, s.heirs, roster) && AllShare(t0, members, s.merges)
    requires forall m :: m in rest ==> m in members && m.stId in roster
    ensures AllShare(t0, members, PulledAll(s, rest, roster, merging).merges)
    decreases |rest|
  {
    hide Valid, PulledMember, AllShare, KeepsBans, KeepsBodies, KeepsMemberships, KeepsMembers;
    if rest != [] {
      SharesNext(t0, members, s, rest[0], roster, merging);
      PulledMemberKeeps(t0, s, roster, merging, rest[0]);
      SharesOn(t0, members, PulledMember(s, rest[0], roster, merging), rest[1..], roster, merging);
    }
  }

  /** Only a row with a record's own email or Discord id is ever merged into that
      record's; and a rehearsal merges none. */
  lemma MergesShareContact(t: Tables, members: seq<Member>, dryRun: bool)
    requires Valid(t) && PulledIn(t, members, dryRun).Committed?
    ensures AllShare(t, members, PulledIn(t, members, dryRun).report.merges)
    ensures dryRun ==> PulledIn(t, members, dryRun).report.merges == []
  {
    var roster := RosterIds(members);
    CommittedAnyway(t, members, dryRun);
    KeepsStart(t, roster);
    hide Keeps, Valid, PulledIn, FuseTripped;
    SharesOn(t, members, Start(t), members, roster, !(dryRun || FuseTripped(t, roster)));
    if dryRun {
      NoMerging(Start(t), members, roster);
    }
  }

  // ---------------------------------------------------------------- the counts

  /** The leaderships these records name. */
  function Led(stored: seq<Member>): set<Leadership> {
    set m, l | m in stored && l in m.leads :: l
  }

  lemma {:induction false} CachedLeads(s: PullState, id: Uuid, leads: seq<Leadership>)
    requires Valid(s.t)
    ensures NameLeads(s, id, leads).bodyIds.Keys == s.bodyIds.Keys + ToSet(leads)
    decreases |leads|
  {
    hide Valid;
    if leads == [] {
      assert ToSet(leads) == {};
    } else {
      CachedLeads(NameLead(s, id, leads[0]), id, leads[1..]);
      assert leads == [leads[0]] + leads[1..];
      assert ToSet(leads) == {leads[0]} + ToSet(leads[1..]);
    }
  }

  lemma CachedOne(s: PullState, m: Member)
    requires Valid(s.t) && UpsertedOne(s, m).Stored?
    ensures UpsertedOne(s, m).s.bodyIds.Keys == s.bodyIds.Keys + ToSet(m.leads)
  {
    hide MembersUnique, BodiesUnique, MembershipsRefer, Clashes;
    CachedLeads(s.(t := UpsertMember(s.t, m).0), UpsertMember(s.t, m).1, m.leads);
  }

  lemma CachedNext(s: PullState, m: Member, roster: set<int>, merging: bool)
    requires Valid(s.t) && m.stId in roster
    ensures var r := PulledMember(s, m, roster, merging);
            r.bodyIds.Keys ==
                if StoredMember(s, m, roster, merging).Stored? then s.bodyIds.Keys + ToSet(m.leads) else s.bodyIds.Keys
  {
    hide MembersUnique, BodiesUnique, MembershipsRefer, MergedDuplicates, UpsertedOne;
    if UpsertedOne(s, m).Stored? {
      CachedOne(s, m);
    } else if merging && UpsertedOne(WithMerge(s, MergedDuplicates(s.t, m, roster)), m).Stored? {
      CachedOne(WithMerge(s, MergedDuplicates(s.t, m, roster)), m);
    }
  }

  lemma {:induction false} CachedOn(done: seq<Member>, s: PullState, rest: seq<Member>, roster: set<int>, merging: bool)
    requires Valid(s.t) && (forall m :: m in rest ==> m.stId in roster) && NoDup(Ids(done + rest))
    requires s.bodyIds.Keys == Led(StoredMembers(done, s.skipped))
    requires forall st :: st in s.skipped ==> exists d :: d in done && d.stId == st
    ensures var r := PulledAll(s, rest, roster, merging);
            r.bodyIds.Keys == Led(StoredMembers(done + rest, r.skipped))
    decreases |rest|
  {
    hide Valid, StoredMember, PulledMember, StoredMembers, Led, NoDup;
    if rest == [] {
      assert done + rest == done;
    } else {
      var m, r := rest[0], PulledMember(s, rest[0], roster, merging);
      assert (done + [m]) + rest[1..] == done + rest;
      CachedNext(s, m, roster, merging);
      SkippedNext(done, s, m, rest, roster, merging);
      CachedOn(done + [m], r, rest[1..], roster, merging);
    }
  }

  function Ids(members: seq<Member>): seq<int> {
    seq(|members|, k requires 0 <= k < |members| => members[k].stId)
  }

  lemma SkippedNext(done: seq<Member>, s: PullState, m: Member, rest: seq<Member>, roster: set<int>, merging: bool)
    requires Valid(s.t) && m.stId in roster && rest != [] && rest[0] == m && NoDup(Ids(done + rest))
    requires s.bodyIds.Keys == Led(StoredMembers(done, s.skipped))
    requires forall st :: st in s.skipped ==> exists d :: d in done && d.stId == st
    ensures var r := PulledMember(s, m, roster, merging);
            && (forall st :: st in r.skipped ==> exists d :: d in done + [m] && d.stId == st)
            && Led(StoredMembers(done + [m], r.skipped)) ==
                 if StoredMember(s, m, roster, merging).Stored?
                 then Led(StoredMembers(done, s.skipped)) + ToSet(m.leads)
                 else Led(StoredMembers(done, s.skipped))
  {
    var r := PulledMember(s, m, roster, merging);
    StoredRows(s, m, roster, merging);
    hide Valid, StoredMember, StoredMembers, StoresRow;
    forall d | d in done ensures d.stId != m.stId {
      var k :| 0 <= k < |done| && done[k] == d;
      assert Ids(done + rest)[k] == d.stId && Ids(done + rest)[|done|] == m.stId;
    }
    assert forall d :: d in done ==> d in done + [m];
    assert m in done + [m];
    StoredMembersNext(done, m, r.skipped);
    if r.skipped == s.skipped + [m.stId] {
      StoredMembersSkip(done, s.skipped, m.stId);
    }
    LedMore(StoredMembers(done, s.skipped), m);
  }

  lemma LedMore(stored: seq<Member>, m: Member)
    ensures Led(stored + [m]) == Led(stored) + ToSet(m.leads) && Led(stored + []) == Led(stored)
  {
    assert stored + [] == stored;
    assert forall d :: d in stored + [m] <==> d in stored || d == m;
  }

  /** The leader rows a set of members holds. */
  function LeaderRowsOf(t: Tables, present: seq<Uuid>): set<(Uuid, Uuid)> {
    set k | k in t.memberships && t.memberships[k].role == AsLeader && k.0 in present
  }

  /** The report counts the records stored, the distinct bodies they lead, and the
      leader rows they hold at the end. */
  lemma ReportCounts(t: Tables, members: seq<Member>, dryRun: bool)
    requires Valid(t) && WellFormed(members)
    ensures var s, r, stored := Looped(t, members, dryRun), PulledIn(t, members, dryRun), StoredBy(t, members, dryRun);
            && r.Committed?
            && r.report.membersUpserted == |stored| && r.report.bodiesUpserted == |Led(stored)|
            && r.report.leaderRows == |LeaderRowsOf(r.t, s.present)|
  {
    hide Valid, WellFormed, PulledIn, Looped, StoredMembers, Led, LeaderRowsOf;
    CommittedRows(t, members, dryRun);
    LoopTracksCount(t, members, dryRun);
    BodiesReported(t, members, dryRun);
    CachedAll(t, members, dryRun);
    LeaderRowsReported(t, members, dryRun);
  }

  lemma LoopTracksCount(t: Tables, members: seq<Member>, dryRun: bool)
    requires Valid(t) && WellFormed(members)
    ensures |StoredBy(t, members, dryRun)| == |Looped(t, members, dryRun).present|
  {
    hide Valid, WellFormed, Looped, StoredMembers;
    LoopTracks(t, members, dryRun);
  }

  lemma CachedAll(t: Tables, members: seq<Member>, dryRun: bool)
    requires Valid(t) && WellFormed(members)
    ensures Looped(t, members, dryRun).bodyIds.Keys == Led(StoredBy(t, members, dryRun))
  {
    var roster := RosterIds(members);
    assert NoDup(Ids([] + members));
    assert Led(StoredMembers([], [])) == {};
    hide Valid, WellFormed, PulledAll, StoredMembers, Led, FuseTripped, NoDup, Ids;
    CachedOn([], Start(t), members, roster, !(dryRun || FuseTripped(t, roster)));
    assert [] + members == members;
  }

  lemma LeaderRowsReported(t: Tables, members: seq<Member>, dryRun: bool)
    requires Valid(t) && WellFormed(members)
    ensures var s, r := Looped(t, members, dryRun), PulledIn(t, members, dryRun);
            r.Committed? && |s.pairs| == |LeaderRowsOf(r.t, s.present)|
  {
    hide Valid, WellFormed, PulledIn, Looped, CacheRight, StoredMembers, Reconciled, FuseTripped, PairsExact, Tracked;
    var s, r := Looped(t, members, dryRun), PulledIn(t, members, dryRun);
    CommittedRows(t, members, dryRun);
    LoopTracks(t, members, dryRun);
    ReconciledRows(s);
    NoDupSize(s.pairs);
    assert ToSet(s.pairs) == LeaderRowsOf(r.t, s.present);
  }

  lemma BodiesReported(t: Tables, members: seq<Member>, dryRun: bool)
    requires Valid(t) && PulledIn(t, members, dryRun).Committed?
    ensures PulledIn(t, members, dryRun).report.bodiesUpserted == |Looped(t, members, dryRun).bodyIds.Keys|
  {
    hide Valid, Looped, FuseTripped, Absent, RosterIds;
  }

  // ------------------------------------------------------------ the merge order

  /** A merge takes the duplicates by st_id: it reports them in that order, and one that
      stands in for a survivor without a row is the first. */
  lemma MergesByStId(t: Tables, m: Member, roster: set<int>)
    requires Valid(t) && m.stId in roster && DuplicatesInOrder(t.members, m, roster) != []
    ensures var ids, plan := DuplicatesInOrder(t.members, m, roster), PlanMerge(t, m, roster);
            && (forall i, j :: 0 <= i < j < |ids| ==> t.members[ids[i]].stId < t.members[ids[j]].stId)
            && DuplicateIds(MergedDuplicates(t, m, roster).merges) == ids
            && (if exists i :: i in t.members && t.members[i].stId == m.stId then
                  plan.into in t.members && t.members[plan.into].stId == m.stId && plan.froms == ids && plan.t == t
                else plan.into == ids[0] && plan.froms == ids[1..])
  {
    var ids := DuplicatesInOrder(t.members, m, roster);
    ByStIdTotal(t.members, Duplicates(t.members, m, roster));
    forall i, j | 0 <= i < j < |ids| ensures t.members[ids[i]].stId < t.members[ids[j]].stId {
      assert ids[i] in ids && ids[j] in ids;
      assert ids == Sorted(ByStId(t.members), Duplicates(t.members, m, roster));
      assert ByStId(t.members)(ids[i], ids[j]);
    }
    hide Duplicates, Sorted, BodiesUnique, MembershipsRefer;
    MergedParts(t, m, roster);
  }

  lemma ByStIdTotal(members: map<Uuid, MemberRow>, ids: set<Uuid>)
    requires MembersUnique(members) && forall i :: i in ids ==> i in members
    ensures TotalOn(ByStId(members), ids)
  {
  }
}
