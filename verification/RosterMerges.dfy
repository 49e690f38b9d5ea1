/** The merge report against the tables: each merge names a row the pull really
    folded or re-keyed, once, and no such row goes unreported. */
module RosterMerges {
  import opened Basics
  import opened Database
  import opened RosterPull
  import opened RosterKeeps
  import opened RosterLeaders

  function DuplicateIds(merges: seq<AccountMerge>): seq<Uuid> {
    seq(|merges|, k requires 0 <= k < |merges| => merges[k].duplicateMemberId)
  }

  /** Where a merge says its duplicate went. */
  ghost predicate MergeHolds(t0: Tables, members: map<Uuid, MemberRow>, heirs: map<Uuid, Uuid>, roster: set<int>,
      merge: AccountMerge) {
    var id := merge.duplicateMemberId;
    && id in t0.members && t0.members[id].stId == merge.duplicateStId && merge.duplicateStId !in roster
    && merge.survivorStId in roster
    && HeirOf(heirs, id) in members && members[HeirOf(heirs, id)].stId == merge.survivorStId
  }

  ghost predicate Accounts(t0: Tables, members: map<Uuid, MemberRow>, heirs: map<Uuid, Uuid>,
      merges: seq<AccountMerge>, roster: set<int>) {
    && NoDup(DuplicateIds(merges))
    && (forall k :: 0 <= k < |merges| ==> MergeHolds(t0, members, heirs, roster, merges[k]))
    && (forall i :: i in t0.members && t0.members[i].stId !in roster ==>
          (i in DuplicateIds(merges) <==> i in heirs || (i in members && members[i].stId in roster)))
  }

  /** A merge takes every duplicate out of the unrostered rows, into one rostered row. */
  ghost predicate Merges(members: map<Uuid, MemberRow>, r: map<Uuid, MemberRow>, heirs: map<Uuid, Uuid>,
                         merges: seq<AccountMerge>, m: Member, roster: set<int>) {
    && NoDup(DuplicateIds(merges))
    && (forall i :: i in DuplicateIds(merges) ==> i in members && members[i].stId !in roster)
    && (forall k :: 0 <= k < |merges| ==>
          && merges[k].survivorStId == m.stId
          && merges[k].duplicateMemberId in members
          && merges[k].duplicateStId == members[merges[k].duplicateMemberId].stId)
    && (forall i :: i in heirs ==> i in DuplicateIds(merges) && i !in r && heirs[i] in r && r[heirs[i]].stId == m.stId)
    && (forall i :: i in DuplicateIds(merges) && i !in heirs ==> i in r && r[i].stId == m.stId)
    && (forall i :: i in members && i !in DuplicateIds(merges) ==> i in r && r[i] == members[i])
    && (forall i :: i in r ==> i in members)
  }

  lemma MergedParts(t: Tables, m: Member, roster: set<int>)
    requires Valid(t) && m.stId in roster && DuplicatesInOrder(t.members, m, roster) != []
    ensures var duplicates, plan := DuplicatesInOrder(t.members, m, roster), PlanMerge(t, m, roster);
            var r := MergedDuplicates(t, m, roster);
            && r.t.members == plan.t.members - ToSet(plan.froms)
            && r.heirs == HeirsOf(plan.froms, plan.into)
            && DuplicateIds(r.merges) == duplicates
            && r.merges == MergeReport(t.members, m, duplicates)
            && (forall i :: i in duplicates <==> i in plan.froms || (i == plan.into && plan.t.members != t.members))
  {
    hide MembersUnique, BodiesUnique, MembershipsRefer, Foldable, NoDup, Holds, RowOf;
  }

  /** What a merge does to the member rows, from its plan. */
  lemma MergesPlanned(members: map<Uuid, MemberRow>, r: map<Uuid, MemberRow>, heirs: map<Uuid, Uuid>,
      duplicates: seq<Uuid>, m: Member, roster: set<int>, into: Uuid)
    requires NoDup(duplicates) && m.stId in roster && forall i :: i in duplicates ==> i in members
    requires forall i :: i in duplicates ==> members[i].stId !in roster
    requires forall i :: i in heirs ==> i in duplicates && i !in r && heirs[i] == into
    requires forall i :: i in duplicates && i !in heirs ==> i == into
    requires into in r && r[into].stId == m.stId
    requires forall i :: i in members && i !in duplicates ==> i in r && r[i] == members[i]
    requires forall i :: i in r ==> i in members
    ensures DuplicateIds(MergeReport(members, m, duplicates)) == duplicates
    ensures Merges(members, r, heirs, MergeReport(members, m, duplicates), m, roster)
  {
    hide NoDup;
    assert DuplicateIds(MergeReport(members, m, duplicates)) == duplicates;
  }

  lemma MergesDuplicates(t: Tables, m: Member, roster: set<int>)
    requires Valid(t) && m.stId in roster
    ensures var r := MergedDuplicates(t, m, roster);
            Merges(t.members, r.t.members, r.heirs, r.merges, m, roster)
  {
    hide MembersUnique, BodiesUnique, MembershipsRefer, PlanMerge, DuplicatesInOrder, MergedDuplicates, Merges,
        DuplicateIds, MergeReport, Holds, NoDup;
    var duplicates := DuplicatesInOrder(t.members, m, roster);
    if duplicates != [] {
      var r, plan := MergedDuplicates(t, m, roster), PlanMerge(t, m, roster);
      MergedParts(t, m, roster);
      MergesPlanned(t.members, r.t.members, r.heirs, duplicates, m, roster, plan.into);
    } else {
      NoneMerged(t, m, roster);
      NothingMerges(t.members, m, roster);
    }
  }

  lemma NothingMerges(members: map<Uuid, MemberRow>, m: Member, roster: set<int>)
    ensures Merges(members, members, map[], [], m, roster)
  {
  }

  lemma NoneMerged(t: Tables, m: Member, roster: set<int>)
    requires Valid(t) && m.stId in roster && DuplicatesInOrder(t.members, m, roster) == []
    ensures MergedDuplicates(t, m, roster) == Merged(t, map[], [])
  {
    hide Valid, DuplicatesInOrder;
  }

  lemma MergeAccounts(t0: Tables, members: map<Uuid, MemberRow>, heirs: map<Uuid, Uuid>, merges: seq<AccountMerge>,
      roster: set<int>, r: map<Uuid, MemberRow>, heirs': map<Uuid, Uuid>, merges': seq<AccountMerge>, m: Member)
    requires KeepsMembers(t0, members, heirs, roster) && Accounts(t0, members, heirs, merges, roster)
    requires Merges(members, r, heirs', merges', m, roster) && m.stId in roster
    ensures Accounts(t0, r, heirs + heirs', merges + merges', roster)
  {
    var old', new' := DuplicateIds(merges), DuplicateIds(merges');
    assert DuplicateIds(merges + merges') == old' + new';
    forall i | i in old' ensures i !in new' {
      var k :| 0 <= k < |old'| && old'[k] == i;
      assert MergeHolds(t0, members, heirs, roster, merges[k]);
    }
    forall k | 0 <= k < |merges| ensures MergeHolds(t0, r, heirs + heirs', roster, merges[k]) {
      assert old'[k] in old' && MergeHolds(t0, members, heirs, roster, merges[k]);
      MergeStillHolds(t0, members, heirs, roster, r, heirs', merges', m, merges[k]);
    }
    forall k | 0 <= k < |merges'| ensures MergeHolds(t0, r, heirs + heirs', roster, merges'[k]) {
      NewMergeHolds(t0, members, heirs, merges, roster, r, heirs', merges', m, k);
    }
    UnrosteredAccounts(t0, members, heirs, merges, roster, r, heirs', merges', m);
  }

  lemma MergeStillHolds(t0: Tables, members: map<Uuid, MemberRow>, heirs: map<Uuid, Uuid>, roster: set<int>,
      r: map<Uuid, MemberRow>, heirs': map<Uuid, Uuid>, merges': seq<AccountMerge>, m: Member, merge: AccountMerge)
    requires MergeHolds(t0, members, heirs, roster, merge) && Merges(members, r, heirs', merges', m, roster)
        && m.stId in roster
    requires merge.duplicateMemberId !in DuplicateIds(merges')
    ensures MergeHolds(t0, r, heirs + heirs', roster, merge)
  {
    var h := HeirOf(heirs, merge.duplicateMemberId);
    assert h !in DuplicateIds(merges');
  }

  lemma NewMergeHolds(t0: Tables, members: map<Uuid, MemberRow>, heirs: map<Uuid, Uuid>, merges: seq<AccountMerge>,
      roster: set<int>, r: map<Uuid, MemberRow>, heirs': map<Uuid, Uuid>, merges': seq<AccountMerge>, m: Member,
      k: nat)
    requires KeepsMembers(t0, members, heirs, roster) && Accounts(t0, members, heirs, merges, roster)
    requires Merges(members, r, heirs', merges', m, roster) && m.stId in roster && k < |merges'|
    ensures MergeHolds(t0, r, heirs + heirs', roster, merges'[k])
  {
    assert DuplicateIds(merges')[k] in DuplicateIds(merges');
  }

  lemma UnrosteredAccounts(t0: Tables, members: map<Uuid, MemberRow>, heirs: map<Uuid, Uuid>,
      merges: seq<AccountMerge>, roster: set<int>, r: map<Uuid, MemberRow>, heirs': map<Uuid, Uuid>,
      merges': seq<AccountMerge>, m: Member)
    requires KeepsMembers(t0, members, heirs, roster) && Accounts(t0, members, heirs, merges, roster)
    requires Merges(members, r, heirs', merges', m, roster) && m.stId in roster
    ensures forall i :: i in t0.members && t0.members[i].stId !in roster ==>
              (i in DuplicateIds(merges) + DuplicateIds(merges') <==>
                  i in heirs + heirs' || (i in r && r[i].stId in roster))
  {
  }

  /** An upsert moves no row in or out of the unrostered ones. */
  lemma UpsertAccounts(t0: Tables, s: PullState, m: Member, roster: set<int>)
    requires Valid(s.t) && m.stId in roster
    requires (forall i :: i in t0.members ==> i < s.t.nextId) && Accounts(t0, s.t.members, s.heirs, s.merges, roster)
    requires UpsertedOne(s, m).Stored?
    ensures var r := UpsertedOne(s, m).s; Accounts(t0, r.t.members, r.heirs, r.merges, roster)
  {
    var out := UpsertedOne(s, m);
    var (t, id) := UpsertMember(s.t, m);
    NamesLeads(s.(t := t), id, m.leads);
    hide MembersUnique, BodiesUnique, MembershipsRefer;
    forall k | 0 <= k < |s.merges| ensures MergeHolds(t0, out.s.t.members, s.heirs, roster, s.merges[k]) {
      assert MergeHolds(t0, s.t.members, s.heirs, roster, s.merges[k]);
    }
  }

  ghost predicate AccountsFor(t0: Tables, s: PullState, roster: set<int>) {
    Keeps(t0, s.t, s.heirs, roster) && Accounts(t0, s.t.members, s.heirs, s.merges, roster)
  }

  lemma PulledMemberAccounts(t0: Tables, s: PullState, m: Member, roster: set<int>, merging: bool)
    requires Valid(s.t) && AccountsFor(t0, s, roster) && m.stId in roster
    ensures AccountsFor(t0, PulledMember(s, m, roster, merging), roster)
  {
    hide MembersUnique, BodiesUnique, MembershipsRefer, Accounts, KeepsMembers, KeepsBans, KeepsMemberships,
        KeepsBodies, UpsertedOne, MergedDuplicates;
    PulledMemberKeeps(t0, s, roster, merging, m);
    if UpsertedOne(s, m).Stored? {
      UpsertAccounts(t0, s, m, roster);
      UpsertedOneKeeps(t0, s, roster, m);
    } else if merging {
      var merged := MergedDuplicates(s.t, m, roster);
      var s' := WithMerge(s, merged);
      MergesDuplicates(s.t, m, roster);
      MergeAccounts(t0, s.t.members, s.heirs, s.merges, roster, merged.t.members, merged.heirs, merged.merges, m);
      MergeKeeps(t0, s, roster, m);
      if UpsertedOne(s', m).Stored? {
        UpsertAccounts(t0, s', m, roster);
      }
    }
  }

  lemma {:induction false} PulledAllAccounts(t0: Tables, s: PullState, roster: set<int>, merging: bool,
      members: seq<Member>)
    requires Valid(s.t) && AccountsFor(t0, s, roster) && forall m :: m in members ==> m.stId in roster
    ensures AccountsFor(t0, PulledAll(s, members, roster, merging), roster)
    decreases |members|
  {
    hide AccountsFor, Valid;
    if members != [] {
      PulledMemberAccounts(t0, s, members[0], roster, merging);
      PulledAllAccounts(t0, PulledMember(s, members[0], roster, merging), roster, merging, members[1..]);
    }
  }

  lemma LoopAccounts(t0: Tables, members: seq<Member>, dryRun: bool)
    requires Valid(t0)
    ensures AccountsFor(t0, Looped(t0, members, dryRun), RosterIds(members))
  {
    var roster := RosterIds(members);
    KeepsStart(t0, roster);
    PulledAllAccounts(t0, Start(t0), roster, !(dryRun || FuseTripped(t0, roster)), members);
  }
}
