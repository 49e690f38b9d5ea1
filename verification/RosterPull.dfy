/** The roster pull: one transaction that upserts every record under a savepoint,
    folds account merges, reconciles the leader rows and lapses the absent. The
    functions say what each step does to the transaction's state; the class runs
    the steps in place and is proved to do the same. */
module RosterPull {
  import opened Basics
  import opened Database

  const LAPSE_FUSE_FLOOR := 5

  datatype AccountMerge = AccountMerge(survivorStId: int, duplicateStId: int, duplicateMemberId: Uuid)

  /** The tables and the lists one pull carries through its loop. The two parallel
      arrays of leader pairs are one list here. `heirs` is bookkeeping for the
      theorems: each folded row's id, and the id it was folded into. */
  datatype PullState = PullState(
    t: Tables, bodyIds: map<Leadership, Uuid>, pairs: seq<(Uuid, Uuid)>,
    present: seq<Uuid>, skipped: seq<int>, merges: seq<AccountMerge>,
    heirs: map<Uuid, Uuid>)

  datatype PullReport = PullReport(
    membersUpserted: nat, bodiesUpserted: nat, leaderRows: nat,
    skippedStIds: seq<int>, merges: seq<AccountMerge>,
    absentLapsed: nat, lapseRefused: nat)

  datatype PullResult = Aborted(error: PullError) | Committed(t: Tables, report: PullReport)

  function RosterIds(members: seq<Member>): set<int> {
    set m | m in members :: m.stId
  }

  // ------------------------------------------------------- upsert one record

  datatype Upserted = Clashed | Stored(s: PullState, id: Uuid) {

    function Id(): Option<Uuid> {
      if Stored? then Some(id) else None
    }

    /** The state afterwards: a clash leaves `before` as it was. */
    function After(before: PullState): PullState {
      if Stored? then s else before
    }
  }

  /** One (member, body) pair, through the cache of body ids. */
  function NameLead(s: PullState, id: Uuid, l: Leadership): (r: PullState)
    requires Valid(s.t)
    ensures Valid(r.t)
  {
    if l in s.bodyIds then s.(pairs := s.pairs + [(id, s.bodyIds[l])])
    else
      var (t, b) := UpsertBody(s.t, l);
      s.(t := t, bodyIds := s.bodyIds[l := b], pairs := s.pairs + [(id, b)])
  }

  function NameLeads(s: PullState, id: Uuid, leads: seq<Leadership>): (r: PullState)
    requires Valid(s.t)
    ensures Valid(r.t)
    decreases |leads|
  {
    if leads == [] then s else NameLeads(NameLead(s, id, leads[0]), id, leads[1..])
  }

  function UpsertedOne(s: PullState, m: Member): (r: Upserted)
    requires Valid(s.t)
    ensures r.Stored? ==> Valid(r.s.t)
  {
    if Clashes(s.t.members, m) then Clashed
    else
      var (t, id) := UpsertMember(s.t, m);
      Stored(NameLeads(s.(t := t), id, m.leads), id)
  }

  // --------------------------------------------------- complete account merges

  /** The rows a merge left behind: they hold the record's email or Discord id, and
      the roster no longer names them. */
  function Duplicates(members: map<Uuid, MemberRow>, m: Member, roster: set<int>): set<Uuid> {
    set i | i in members && Holds(members[i], m) && members[i].stId !in roster
  }

  function ByStId(members: map<Uuid, MemberRow>): (Uuid, Uuid) -> bool {
    (a, b) => a in members && b in members && members[a].stId <= members[b].stId
  }

  function DuplicatesInOrder(members: map<Uuid, MemberRow>, m: Member, roster: set<int>): (r: seq<Uuid>)
    requires MembersUnique(members)
    ensures NoDup(r)
    ensures forall i :: i in r <==> i in Duplicates(members, m, roster)
  {
    var r := Sorted(ByStId(members), Duplicates(members, m, roster));
    assert forall i :: i in r <==> i in ToSet(r);
    r
  }

  /** Folds one row into another: its manual adds, its attributions and its ban move
      over before the row, and all that hangs off it, is deleted. */
  function Fold(t: Tables, from: Uuid, into: Uuid): Tables {
    DeleteMember(CarryBan(CarryAttribution(CarryManualAdds(t, from, into), from, into), from, into), from)
  }

  lemma FoldValid(t: Tables, from: Uuid, into: Uuid)
    requires Valid(t) && from in t.members && into in t.members && from != into
    ensures Valid(Fold(t, from, into))
    ensures Fold(t, from, into).members == t.members - {from}
  {
    hide Valid;
    DeleteKeepsValid(CarryBan(CarryAttribution(CarryManualAdds(t, from, into), from, into), from, into), from);
  }

  ghost predicate Foldable(t: Tables, froms: seq<Uuid>, into: Uuid) {
    && Valid(t) && into in t.members && into !in froms
    && NoDup(froms) && forall f :: f in froms ==> f in t.members
  }

  lemma FoldableNext(t: Tables, froms: seq<Uuid>, into: Uuid)
    requires Foldable(t, froms, into) && froms != []
    ensures Foldable(Fold(t, froms[0], into), froms[1..], into)
    ensures ToSet(froms) == {froms[0]} + ToSet(froms[1..])
    ensures froms[0] in t.members && froms[0] != into
  {
    assert froms[0] in froms;
    FoldValid(t, froms[0], into);
    assert forall f :: f in froms[1..] ==> f in froms && f != froms[0];
  }

  function FoldAll(t: Tables, froms: seq<Uuid>, into: Uuid): (r: Tables)
    requires Foldable(t, froms, into)
    ensures Valid(r)
    ensures r.members == t.members - ToSet(froms)
    ensures r.bodies == t.bodies && r.nextId == t.nextId
    decreases |froms|
  {
    if froms == [] then t
    else
      FoldableNext(t, froms, into);
      FoldValid(t, froms[0], into);
      FoldAll(Fold(t, froms[0], into), froms[1..], into)
  }

  function HeirsOf(froms: seq<Uuid>, into: Uuid): (r: map<Uuid, Uuid>)
    ensures r.Keys == ToSet(froms) && forall f :: f in froms ==> r[f] == into
  {
    map f | f in froms :: into
  }

  datatype Merged = Merged(t: Tables, heirs: map<Uuid, Uuid>, merges: seq<AccountMerge>)

  function MergeReport(members: map<Uuid, MemberRow>, m: Member, ids: seq<Uuid>): seq<AccountMerge>
    requires forall i :: i in ids ==> i in members
  {
    seq(|ids|, k requires 0 <= k < |ids| => AccountMerge(m.stId, members[ids[k]].stId, ids[k]))
  }

  /** What a merge folds, and into which row. */
  datatype MergePlan = MergePlan(t: Tables, froms: seq<Uuid>, into: Uuid)

  /** Everything goes into the survivor's own row; without one, the first duplicate
      is re-keyed to the survivor and takes the rest. */
  function PlanMerge(t: Tables, m: Member, roster: set<int>): (r: MergePlan)
    requires Valid(t) && m.stId in roster
    requires DuplicatesInOrder(t.members, m, roster) != []
    ensures Foldable(r.t, r.froms, r.into)
    ensures forall f :: f in r.froms ==> f in Duplicates(t.members, m, roster)
    ensures forall i :: i in Duplicates(t.members, m, roster) ==> i in r.froms || i == r.into
    ensures r.t.members[r.into].stId == m.stId
    ensures r.t.members == t.members || (
              && r.into in Duplicates(t.members, m, roster)
              && r.t.members == t.members[r.into := t.members[r.into].(stId := m.stId)])
  {
    var duplicates := DuplicatesInOrder(t.members, m, roster);
    match FindMember(t.members, m.stId)
    case Some(i) => MergePlan(t, duplicates, i)
    case None =>
      assert duplicates[0] in duplicates;
      assert forall i :: i in duplicates ==> i in duplicates[1..] || i == duplicates[0];
      MergePlan(Rekey(t, duplicates[0], m.stId), duplicates[1..], duplicates[0])
  }

  function MergedDuplicates(t: Tables, m: Member, roster: set<int>): (r: Merged)
    requires Valid(t) && m.stId in roster
    ensures Valid(r.t)
  {
    var duplicates := DuplicatesInOrder(t.members, m, roster);
    if duplicates == [] then Merged(t, map[], [])
    else
      var plan := PlanMerge(t, m, roster);
      Merged(FoldAll(plan.t, plan.froms, plan.into), HeirsOf(plan.froms, plan.into),
             MergeReport(t.members, m, duplicates))
  }

  // ------------------------------------------------------------ store a record

  function WithMerge(s: PullState, merged: Merged): PullState {
    s.(t := merged.t, heirs := s.heirs + merged.heirs, merges := s.merges + merged.merges)
  }

  /** `_store_member`: the upsert, and once more over the merged rows. */
  function StoredMember(s: PullState, m: Member, roster: set<int>, merging: bool): (r: Upserted)
    requires Valid(s.t) && m.stId in roster
    ensures r.Stored? ==> Valid(r.s.t)
  {
    var first := UpsertedOne(s, m);
    if first.Stored? || !merging then first
    else UpsertedOne(WithMerge(s, MergedDuplicates(s.t, m, roster)), m)
  }

  function PulledMember(s: PullState, m: Member, roster: set<int>, merging: bool): (r: PullState)
    requires Valid(s.t) && m.stId in roster
    ensures Valid(r.t)
  {
    match StoredMember(s, m, roster, merging)
    case Clashed => s.(skipped := s.skipped + [m.stId])
    case Stored(s', id) => s'.(present := s'.present + [id])
  }

  function PulledAll(s: PullState, members: seq<Member>, roster: set<int>, merging: bool): (r: PullState)
    requires Valid(s.t) && forall m :: m in members ==> m.stId in roster
    ensures Valid(r.t)
    decreases |members|
  {
    if members == [] then s
    else PulledAll(PulledMember(s, members[0], roster, merging), members[1..], roster, merging)
  }

  // ---------------------------------------------------------- the transaction

  function LapseBudget(goodStanding: nat): nat {
    Max(LAPSE_FUSE_FLOOR, TenthRoundedUp(goodStanding))
  }

  predicate FuseTripped(t: Tables, roster: set<int>) {
    |Absent(t.members, roster)| > LapseBudget(|InGoodStanding(t.members)|)
  }

  function Start(t: Tables): PullState {
    PullState(t, map[], [], [], [], [], map[])
  }

  /** The state after the member loop, before the leader rows are reconciled. */
  function Looped(t: Tables, members: seq<Member>, dryRun: bool): (r: PullState)
    requires Valid(t)
    ensures Valid(r.t)
  {
    var roster := RosterIds(members);
    PulledAll(Start(t), members, roster, !(dryRun || FuseTripped(t, roster)))
  }

  function Reconciled(s: PullState): Tables {
    DeleteStaleLeaderRows(InsertLeaderRows(s.t, s.pairs), s.present, s.pairs)
  }

  function Report(s: PullState, lapsed: nat, refused: nat): PullReport {
    PullReport(|s.present|, |s.bodyIds|, |s.pairs|, s.skipped, s.merges, lapsed, refused)
  }

  function PulledIn(t: Tables, members: seq<Member>, dryRun: bool): PullResult
    requires Valid(t)
  {
    var roster := RosterIds(members);
    var s := Looped(t, members, dryRun);
    if LeaderPairsRepeat(s.pairs) then Aborted(RepeatedLeaderPair)
    else if LeaderPairsDangle(s.t, s.pairs) then Aborted(DanglingLeaderPair)
    else if FuseTripped(t, roster) then
      Committed(Reconciled(s), Report(s, 0, |Absent(t.members, roster)|))
    else
      Committed(LapseAbsent(Reconciled(s), roster),
                Report(s, |Absent(Reconciled(s).members, roster)|, 0))
  }

  // -------------------------------------------------------------- in place

  /** One pull in progress: the open transaction's tables and the loop's lists. */
  class Pull {
    var t: Tables
    var bodyIds: map<Leadership, Uuid>
    var pairs: seq<(Uuid, Uuid)>
    var present: seq<Uuid>
    var skipped: seq<int>
    var merges: seq<AccountMerge>
    ghost var heirs: map<Uuid, Uuid>

    ghost function State(): PullState
      reads this
    {
      PullState(t, bodyIds, pairs, present, skipped, merges, heirs)
    }

    constructor (tables: Tables)
      ensures State() == Start(tables)
    {
      t := tables;
      bodyIds, pairs, present, skipped, merges, heirs := map[], [], [], [], [], map[];
    }

    /** `_upsert_one`: `None` is the unique violation, with the savepoint rolled back. */
    method UpsertOne(m: Member) returns (r: Option<Uuid>)
      requires Valid(t)
      modifies this
      ensures r == UpsertedOne(old(State()), m).Id()
      ensures State() == UpsertedOne(old(State()), m).After(old(State()))
    {
      hide MembersUnique, BodiesUnique, MembershipsRefer, Holds;
      if Clashes(t.members, m) {
        return None;
      }
      var (stored, id) := UpsertMember(t, m);
      t := stored;
      ghost var named := NameLeads(State(), id, m.leads);
      var rest := m.leads;
      while rest != []
        invariant Valid(t)
        invariant NameLeads(State(), id, rest) == named
        decreases |rest|
      {
        ghost var before := State();
        var l := rest[0];
        if l !in bodyIds {
          var (tables, b) := UpsertBody(t, l);
          t := tables;
          bodyIds := bodyIds[l := b];
        }
        pairs := pairs + [(id, bodyIds[l])];
        assert State() == NameLead(before, id, l);
        rest := rest[1..];
      }
      r := Some(id);
    }

    /** `_merge_duplicates`: folds each duplicate, first to last. */
    method MergeDuplicates(m: Member, roster: set<int>) returns (found: seq<AccountMerge>)
      requires Valid(t) && m.stId in roster
      modifies `t, `heirs
      ensures t == MergedDuplicates(old(t), m, roster).t
      ensures heirs == old(heirs) + MergedDuplicates(old(t), m, roster).heirs
      ensures found == MergedDuplicates(old(t), m, roster).merges
    {
      hide MembersUnique, BodiesUnique, MembershipsRefer, Holds, FoldAll, MergeReport;
      ghost var merged := MergedDuplicates(t, m, roster);
      var duplicates := DuplicatesInOrder(t.members, m, roster);
      if duplicates == [] {
        assert merged == Merged(t, map[], []);
        assert heirs == heirs + merged.heirs;
        return [];
      }
      found := MergeReport(t.members, m, duplicates);
      var plan := PlanMerge(t, m, roster);
      t := plan.t;
      heirs := heirs + HeirsOf(plan.froms, plan.into);
      FoldEach(plan.froms, plan.into);
    }

    /** Folds each row into the target, first to last. */
    method FoldEach(froms: seq<Uuid>, into: Uuid)
      requires Foldable(t, froms, into)
      modifies `t
      ensures t == FoldAll(old(t), froms, into)
    {
      var rest := froms;
      while rest != []
        invariant Foldable(t, rest, into)
        invariant FoldAll(t, rest, into) == FoldAll(old(t), froms, into)
        decreases |rest|
      {
        FoldableNext(t, rest, into);
        t := Fold(t, rest[0], into);
        rest := rest[1..];
      }
    }

    /** `_store_member`: one savepoint for a merge and the upsert after it. */
    method StoreMember(m: Member, roster: set<int>, merging: bool) returns (r: Option<Uuid>)
      requires Valid(t) && m.stId in roster
      modifies this
      ensures r == StoredMember(old(State()), m, roster, merging).Id()
      ensures State() == StoredMember(old(State()), m, roster, merging).After(old(State()))
    {
      r := UpsertOne(m);
      if r.Some? || !merging {
        return;
      }
      var savepoint := t;
      ghost var heirsBefore := heirs;
      var found := MergeDuplicates(m, roster);
      var mergesBefore := merges;
      merges := merges + found;
      assert State() == WithMerge(old(State()), MergedDuplicates(old(t), m, roster));
      r := UpsertOne(m);
      if r.None? {
        t, merges, heirs := savepoint, mergesBefore, heirsBefore;
      }
    }

    /** The body of the member loop: a clash the pull must not resolve is a skip. */
    method PullNext(m: Member, roster: set<int>, merging: bool)
      requires Valid(t) && m.stId in roster
      modifies this
      ensures State() == PulledMember(old(State()), m, roster, merging)
    {
      var stored := StoreMember(m, roster, merging);
      match stored
      case None => skipped := skipped + [m.stId];
      case Some(id) => present := present + [id];
    }

    /** `_pull_in`. An aborted transaction leaves the tables as they were. */
    method PullIn(members: seq<Member>, dryRun: bool) returns (r: PullResult)
      requires Valid(t) && State() == Start(t)
      modifies this
      ensures r == PulledIn(old(t), members, dryRun)
      ensures t == if r.Committed? then r.t else old(t)
    {
      var before := t;
      var roster := RosterIds(members);
      var wouldLapse := |Absent(t.members, roster)|;
      var fuseTripped := wouldLapse > LapseBudget(|InGoodStanding(t.members)|);
      var merging := !(dryRun || fuseTripped);
      var rest := members;
      while rest != []
        invariant Valid(t) && forall m :: m in rest ==> m.stId in roster
        invariant PulledAll(State(), rest, roster, merging) == Looped(before, members, dryRun)
        decreases |rest|
      {
        PullNext(rest[0], roster, merging);
        rest := rest[1..];
      }
      if LeaderPairsRepeat(pairs) {
        t := before;
        return Aborted(RepeatedLeaderPair);
      }
      if LeaderPairsDangle(t, pairs) {
        t := before;
        return Aborted(DanglingLeaderPair);
      }
      t := InsertLeaderRows(t, pairs);
      t := DeleteStaleLeaderRows(t, present, pairs);
      var absentLapsed, lapseRefused := 0, wouldLapse;
      if !fuseTripped {
        absentLapsed, lapseRefused := |Absent(t.members, roster)|, 0;
        t := LapseAbsent(t, roster);
      }
      r := Committed(t, PullReport(|present|, |bodyIds|, |pairs|, skipped, merges, absentLapsed, lapseRefused));
    }
  }
}
