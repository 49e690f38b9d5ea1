/** The one way a pull loses a manual add, at an input: a leader who steps down takes
    over the address of an account that a leader had added to the same body by hand. */
module LostAdd {
  import opened Basics
  import opened Database
  import opened RosterPull
  import opened RosterKeeps
  import opened RosterLeaders
  import opened RosterTheorems

  const BODY := BodyRow("Zine", "Branch", None, None)

  /** The leader's row, the other account's row, and the record that unites them: the
      leader's st_id, the other account's address, and no leadership. */
  const LEADER_ROW := MemberRow(1, None, None, None, "a@b.org", None, None, GoodStanding, true, Leader)
  const OTHER_ROW := MemberRow(2, None, None, None, "c@d.org", None, None, GoodStanding, false, NonLeader)
  const RECORD := Member(1, "c@d.org", None, GoodStanding, None, None, None, None, false, [])

  /** Row 0 leads body 10; row 1 was added to it by hand, by row 0. */
  const BEFORE := Tables(
    map[0 := LEADER_ROW, 1 := OTHER_ROW], map[10 := BODY],
    map[(0, 10) := BodyMembership(AsLeader, None, None), (1, 10) := BodyMembership(AsMember, Some(0), Some(5))],
    map[], 11)

  lemma BeforeIsValid()
    ensures Valid(BEFORE) && WellFormed([RECORD])
  {
  }

  lemma RosterIsOne()
    ensures RosterIds([RECORD]) == {1}
  {
    assert RECORD in [RECORD];
  }

  lemma FuseIsQuiet()
    ensures !FuseTripped(BEFORE, {1})
  {
    assert Absent(BEFORE.members, {1}) == {1};
  }

  /** Row 1 is the one duplicate, and row 0 the survivor's own. */
  lemma MergesIntoLeader()
    ensures Valid(BEFORE)
    ensures MergedDuplicates(BEFORE, RECORD, {1}).heirs == map[1 := 0]
    ensures Clashes(BEFORE.members, RECORD) && !HeldByRoster(BEFORE.members, RECORD, {1})
  {
    BeforeIsValid();
    hide Valid, FoldAll, MergeReport;
    var members := BEFORE.members;
    assert 0 in members && members[0] == LEADER_ROW && 1 in members && members[1] == OTHER_ROW;
    assert Duplicates(members, RECORD, {1}) == {1};
    var duplicates := DuplicatesInOrder(members, RECORD, {1});
    NoDupSize(duplicates);
    assert ToSet(duplicates) == {1};
    assert duplicates == [1];
    assert FindMember(members, 1).Some?;
    assert FindMember(members, 1).value == 0;
    assert PlanMerge(BEFORE, RECORD, {1}) == MergePlan(BEFORE, [1], 0);
    assert HeirsOf([1], 0) == map[1 := 0];
  }

  lemma RecordFolds()
    ensures Valid(BEFORE) && PulledMember(Start(BEFORE), RECORD, {1}, true).heirs == map[1 := 0]
  {
    hide Valid, MergedDuplicates, Clashes, HeldByRoster, UpsertedOne, StoredMember;
    MergesIntoLeader();
    SkipExactly(Start(BEFORE), RECORD, {1}, true);
    StoredAfterMerge(BEFORE, RECORD, {1});
    UpsertedHeirs(WithMerge(Start(BEFORE), MergedDuplicates(BEFORE, RECORD, {1})), RECORD);
    assert map[] + map[1 := 0] == map[1 := 0];
  }

  lemma OneRecordPulled(s: PullState, m: Member, roster: set<int>, merging: bool)
    requires Valid(s.t) && m.stId in roster
    ensures PulledAll(s, [m], roster, merging) == PulledMember(s, m, roster, merging)
  {
    hide Valid, PulledMember;
    assert [m][1..] == [];
    assert PulledAll(PulledMember(s, m, roster, merging), [], roster, merging) == PulledMember(s, m, roster, merging);
  }

  lemma FoldedIntoLeader()
    ensures Valid(BEFORE) && Looped(BEFORE, [RECORD], false).heirs == map[1 := 0]
  {
    hide Valid, PulledMember, PulledAll, FuseTripped, RosterIds;
    RecordFolds();
    RosterIsOne();
    FuseIsQuiet();
    OneRecordPulled(Start(BEFORE), RECORD, {1}, true);
  }

  lemma StoredAfterMerge(t: Tables, m: Member, roster: set<int>)
    requires Valid(t) && m.stId in roster && Clashes(t.members, m)
    ensures StoredMember(Start(t), m, roster, true) ==
        UpsertedOne(WithMerge(Start(t), MergedDuplicates(t, m, roster)), m)
  {
    hide Valid, MergedDuplicates, Clashes, NameLeads;
  }

  lemma UpsertedHeirs(s: PullState, m: Member)
    requires Valid(s.t)
    ensures UpsertedOne(s, m).Stored? ==> UpsertedOne(s, m).s.heirs == s.heirs
  {
    hide MembersUnique, BodiesUnique, MembershipsRefer, NameLeads;
    if !Clashes(s.t.members, m) {
      NamesLeads(s.(t := UpsertMember(s.t, m).0), UpsertMember(s.t, m).1, m.leads);
    }
  }

  /** A pull of that one record folds row 1 into row 0 and leaves no one in the body:
      the hand-made add is gone. */
  lemma ManualAddLost()
    ensures Valid(BEFORE)
    ensures var s, r := Looped(BEFORE, [RECORD], false), PulledIn(BEFORE, [RECORD], false);
            && r.Committed? && HeirOf(s.heirs, 1) == 0
            && (1, 10) in BEFORE.memberships && BEFORE.memberships[(1, 10)].manuallyAddedAt.Some?
            && (0, 10) !in r.t.memberships && (1, 10) !in r.t.memberships
  {
    hide Valid, WellFormed, Looped, PulledIn, KeepsBans, KeepsBodies, KeepsMemberships, RosterIds, StoredBy;
    BeforeIsValid();
    FoldedIntoLeader();
    MergeConservation(BEFORE, [RECORD], false);
    CommittedRows(BEFORE, [RECORD], false);
    LoopKeeps(BEFORE, [RECORD], false);
    PullKeepsRows();
    var s, r := Looped(BEFORE, [RECORD], false), PulledIn(BEFORE, [RECORD], false);
    RosterIsOne();
    assert (1, 10) in BEFORE.memberships && (1, 10).0 in s.heirs;
    assert BEFORE.members[0].stId == 1 && RECORD in [RECORD] && RECORD.stId == 1 && RECORD.leads == [];
    assert StaleLeaderRow(BEFORE, [RECORD], r.t, 0, 10);
  }

  /** A folded row has no membership left. */
  lemma PullKeepsRows()
    ensures Valid(BEFORE)
    ensures var s, r := Looped(BEFORE, [RECORD], false), PulledIn(BEFORE, [RECORD], false);
            r.Committed? ==> forall k :: k in r.t.memberships ==> k.0 !in s.heirs
  {
    hide WellFormed, Looped, PulledIn, Reconciled, KeepsBans, KeepsBodies, KeepsMemberships, PairsExact;
    BeforeIsValid();
    LoopKeeps(BEFORE, [RECORD], false);
    LoopTracks(BEFORE, [RECORD], false);
    CommittedRows(BEFORE, [RECORD], false);
    var s, r := Looped(BEFORE, [RECORD], false), PulledIn(BEFORE, [RECORD], false);
    ReconciledRows(s);
    assert forall k :: k in s.t.memberships ==> k.0 in s.t.members;
    forall k | k in r.t.memberships ensures k.0 !in s.heirs {
      if k in s.pairs {
        assert k.0 in s.present;
        PresentIsThere([RECORD], s, k.0);
      }
    }
  }

  lemma PresentIsThere(done: seq<Member>, s: PullState, id: Uuid)
    requires Tracked(done, s) && id in s.present
    ensures id in s.t.members
  {
  }
}
