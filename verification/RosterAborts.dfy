/** Exactly when a pull aborts: when two records it stored share an st_id and a
    leadership, and never otherwise. */
module RosterAborts {
  import opened Basics
  import opened Database
  import opened RosterPull
  import opened RosterKeeps
  import opened RosterLeaders
  import RosterTheorems

  /** The records a run of the member loop stores, in order. */
  function Stores(s: PullState, members: seq<Member>, roster: set<int>, merging: bool): seq<Member>
    requires Valid(s.t) && forall m :: m in members ==> m.stId in roster
    decreases |members|
  {
    if members == [] then []
    else
      (if StoredMember(s, members[0], roster, merging).Stored? then [members[0]] else [])
        + Stores(PulledMember(s, members[0], roster, merging), members[1..], roster, merging)
  }

  ghost predicate ShareLead(a: Member, b: Member) {
    a.stId == b.stId && exists l :: l in a.leads && l in b.leads
  }

  ghost predicate Repeats(stored: seq<Member>) {
    exists i, j :: 0 <= i < j < |stored| && ShareLead(stored[i], stored[j])
  }

  /** The store of one record, taken apart: the state its upsert started from. */
  lemma StoreFrom(s: PullState, m: Member, roster: set<int>, merging: bool) returns (from: PullState, t: Tables)
    requires Valid(s.t) && m.stId in roster && StoredMember(s, m, roster, merging).Stored?
    ensures var r := StoredMember(s, m, roster, merging);
            && Valid(t) && from.t == t && r.s == NameLeads(from, r.id, m.leads)
            && t.bodies == s.t.bodies && from.bodyIds == s.bodyIds && from.pairs == s.pairs
            && r.id in t.members && t.members[r.id].stId == m.stId
            && (forall i ::
                   i in s.t.members && s.t.members[i].stId in roster ==>
                   i in t.members && t.members[i].stId == s.t.members[i].stId)
            && (forall i :: i in s.t.members && s.t.members[i].stId == m.stId ==> i == r.id)
  {
    hide MembersUnique, BodiesUnique, MembershipsRefer, MergedDuplicates, Clashes, NameLeads;
    var base := if UpsertedOne(s, m).Stored? then s else WithMerge(s, MergedDuplicates(s.t, m, roster));
    var r := StoredMember(s, m, roster, merging);
    assert r == UpsertedOne(base, m);
    MergeRows(s.t, m, roster);
    MergeBodies(s.t, m, roster);
    t := UpsertMember(base.t, m).0;
    from := base.(t := t);
    forall i | i in s.t.members && s.t.members[i].stId == m.stId ensures i == r.id {
      assert i in base.t.members && base.t.members[i].stId == m.stId;
      RosterTheorems.SameRow(base.t, m, i);
    }
  }

  // ------------------------------------------- no shared lead, then no repeat

  ghost predicate OwnedPair(stored: seq<Member>, t: Tables, p: (Uuid, Uuid), roster: set<int>) {
    && p.0 in t.members && p.1 in t.bodies && t.members[p.0].stId in roster
    && exists k ::
         0 <= k < |stored| && stored[k].stId == t.members[p.0].stId
         && LeadershipOf(t.bodies[p.1]) in stored[k].leads
  }

  /** Every pair is some stored record's lead, and none is there twice. */
  ghost predicate Owned(stored: seq<Member>, s: PullState, roster: set<int>) {
    CacheRight(s) && NoDup(s.pairs) && forall p :: p in s.pairs ==> OwnedPair(stored, s.t, p, roster)
  }

  lemma StillOwned(stored: seq<Member>, m: Member, t: Tables, r: Tables, p: (Uuid, Uuid), roster: set<int>)
    requires OwnedPair(stored, t, p, roster) && KeepsBodies(t.bodies, r.bodies)
    requires p.0 in r.members && r.members[p.0].stId == t.members[p.0].stId
    ensures OwnedPair(stored + [m], r, p, roster)
  {
    var k :| 0 <= k < |stored| && stored[k].stId == t.members[p.0].stId
        && LeadershipOf(t.bodies[p.1]) in stored[k].leads;
    assert (stored + [m])[k] == stored[k];
  }

  lemma NewlyOwned(stored: seq<Member>, m: Member, r: Tables, p: (Uuid, Uuid), roster: set<int>)
    requires p.0 in r.members && r.members[p.0].stId == m.stId && m.stId in roster
    requires p.1 in r.bodies && LeadershipOf(r.bodies[p.1]) in m.leads
    ensures OwnedPair(stored + [m], r, p, roster)
  {
    assert (stored + [m])[|stored|] == m;
  }

  /** A record that shares no lead with those stored adds only fresh pairs. */
  lemma FreshLeads(stored: seq<Member>, s: PullState, t: Tables, id: Uuid, m: Member, roster: set<int>)
    requires Owned(stored, s, roster) && !Repeats(stored + [m]) && t.bodies == s.t.bodies
    requires id in t.members && t.members[id].stId == m.stId
    requires forall i ::
        i in s.t.members && s.t.members[i].stId in roster ==>
        i in t.members && t.members[i].stId == s.t.members[i].stId
    ensures Unnamed(s.(t := t), id, m.leads) && CacheRight(s.(t := t))
  {
    forall p | p in s.pairs && p.0 == id ensures p.1 in t.bodies && LeadershipOf(t.bodies[p.1]) !in m.leads {
      assert OwnedPair(stored, s.t, p, roster);
      var k :| 0 <= k < |stored| && stored[k].stId == s.t.members[p.0].stId
          && LeadershipOf(s.t.bodies[p.1]) in stored[k].leads;
      assert (stored + [m])[k] == stored[k] && (stored + [m])[|stored|] == m;
      assert !ShareLead(stored[k], m);
    }
  }

  lemma OwnedNext(stored: seq<Member>, s: PullState, m: Member, roster: set<int>, merging: bool)
    requires Valid(s.t) && m.stId in roster && NoDup(m.leads)
    requires Owned(stored, s, roster) && StoredMember(s, m, roster, merging).Stored? && !Repeats(stored + [m])
    ensures Owned(stored + [m], StoredMember(s, m, roster, merging).s, roster)
  {
    var r := StoredMember(s, m, roster, merging);
    var from, t := StoreFrom(s, m, roster, merging);
    hide Valid, StoredMember, NameLeads, NoDup, Repeats, OwnedPair;
    FreshLeads(stored, s, t, r.id, m, roster);
    assert Unnamed(from, r.id, m.leads) && CacheRight(from);
    NameLeadsNamed(from, r.id, m.leads);
    NamesLeads(from, r.id, m.leads);
    assert r.s.t.members == t.members;
    forall p | p in r.s.pairs ensures OwnedPair(stored + [m], r.s.t, p, roster) {
      if p in s.pairs {
        assert OwnedPair(stored, s.t, p, roster);
        OwnedRow(stored, s.t, p, roster);
        StillOwned(stored, m, s.t, r.s.t, p, roster);
      } else {
        assert p == (r.id, p.1);
        NewlyOwned(stored, m, r.s.t, p, roster);
      }
    }
  }

  lemma OwnedRow(stored: seq<Member>, t: Tables, p: (Uuid, Uuid), roster: set<int>)
    requires OwnedPair(stored, t, p, roster)
    ensures p.0 in t.members && p.1 in t.bodies && t.members[p.0].stId in roster
  {
  }

  lemma FewerRepeats(a: seq<Member>, b: seq<Member>)
    requires !Repeats(a + b)
    ensures !Repeats(a)
  {
    forall i, j | 0 <= i < j < |a| ensures !ShareLead(a[i], a[j]) {
      assert !ShareLead((a + b)[i], (a + b)[j]);
    }
  }

  lemma {:induction false} OwnedAll(stored: seq<Member>, s: PullState, members: seq<Member>, roster: set<int>,
      merging: bool)
    requires Valid(s.t) && forall m :: m in members ==> m.stId in roster && NoDup(m.leads)
    requires Owned(stored, s, roster) && !Repeats(stored + Stores(s, members, roster, merging))
    ensures Owned(stored + Stores(s, members, roster, merging), PulledAll(s, members, roster, merging), roster)
    decreases |members|
  {
    hide Valid, StoredMember, Owned, Repeats, NoDup;
    if members == [] {
      assert stored + [] == stored;
    } else {
      var m := members[0];
      var next := PulledMember(s, m, roster, merging);
      var rest := Stores(next, members[1..], roster, merging);
      if StoredMember(s, m, roster, merging).Stored? {
        assert stored + ([m] + rest) == (stored + [m]) + rest;
        FewerRepeats(stored + [m], rest);
        OwnedNext(stored, s, m, roster, merging);
        OwnedPresent(stored + [m], StoredMember(s, m, roster, merging).s, next, roster);
        OwnedAll(stored + [m], next, members[1..], roster, merging);
      } else {
        assert [] + rest == rest;
        OwnedPresent(stored, s, next, roster);
        OwnedAll(stored, next, members[1..], roster, merging);
      }
    }
  }

  lemma OwnedPresent(stored: seq<Member>, s: PullState, r: PullState, roster: set<int>)
    requires Owned(stored, s, roster) && r.t == s.t && r.bodyIds == s.bodyIds && r.pairs == s.pairs
    ensures Owned(stored, r, roster)
  {
  }

  // ---------------------------------------------- a shared lead, then a repeat

  /** The pair of one lead of an earlier record, still found the same way. */
  ghost predicate Holding(s: PullState, st: int, l: Leadership, p: (Uuid, Uuid)) {
    && p in s.pairs && p.0 in s.t.members && s.t.members[p.0].stId == st
    && l in s.bodyIds && s.bodyIds[l] == p.1
  }

  lemma LeadAdds(s: PullState, id: Uuid, l: Leadership)
    requires Valid(s.t)
    ensures var r := NameLead(s, id, l);
            && l in r.bodyIds && r.pairs == s.pairs + [(id, r.bodyIds[l])]
            && forall k :: k in s.bodyIds ==> k in r.bodyIds && r.bodyIds[k] == s.bodyIds[k]
  {
    hide Valid;
  }

  lemma SuffixAfter<T>(a: seq<T>, x: T, r: seq<T>)
    requires a + [x] <= r
    ensures a <= r && r[|a|..] == [x] + r[|a| + 1..]
  {
    assert r[|a|] == (a + [x])[|a|];
  }

  /** Naming leads only adds, through the cache. */
  lemma {:induction false} LeadsAdd(s: PullState, id: Uuid, leads: seq<Leadership>)
    requires Valid(s.t)
    ensures var r := NameLeads(s, id, leads);
            && s.pairs <= r.pairs
            && (forall l :: l in s.bodyIds ==> l in r.bodyIds && r.bodyIds[l] == s.bodyIds[l])
            && (forall l :: l in leads ==> l in r.bodyIds && (id, r.bodyIds[l]) in r.pairs[|s.pairs|..])
    decreases |leads|
  {
    hide Valid, NameLead;
    if leads != [] {
      var next := NameLead(s, id, leads[0]);
      var r := NameLeads(next, id, leads[1..]);
      LeadAdds(s, id, leads[0]);
      LeadsAdd(next, id, leads[1..]);
      assert leads == [leads[0]] + leads[1..];
      SuffixAfter(s.pairs, (id, next.bodyIds[leads[0]]), r.pairs);
    }
  }

  lemma HoldingNext(s: PullState, m: Member, roster: set<int>, merging: bool, st: int, l: Leadership, p: (Uuid, Uuid))
    requires Valid(s.t) && m.stId in roster && st in roster && Holding(s, st, l, p)
    ensures Holding(PulledMember(s, m, roster, merging), st, l, p)
  {
    if StoredMember(s, m, roster, merging).Stored? {
      var from, t := StoreFrom(s, m, roster, merging);
      hide Valid, StoredMember, NameLeads;
      var r := StoredMember(s, m, roster, merging);
      LeadsAdd(from, r.id, m.leads);
      NamesLeads(from, r.id, m.leads);
    }
  }

  lemma StoreHolds(s: PullState, m: Member, roster: set<int>, merging: bool, l: Leadership) returns (p: (Uuid, Uuid))
    requires Valid(s.t) && m.stId in roster && StoredMember(s, m, roster, merging).Stored? && l in m.leads
    ensures Holding(PulledMember(s, m, roster, merging), m.stId, l, p)
  {
    var r := StoredMember(s, m, roster, merging);
    var from, t := StoreFrom(s, m, roster, merging);
    hide Valid, StoredMember, NameLeads;
    LeadsAdd(from, r.id, m.leads);
    NamesLeads(from, r.id, m.leads);
    p := (r.id, r.s.bodyIds[l]);
  }

  lemma StoreRepeats(s: PullState, m: Member, roster: set<int>, merging: bool, l: Leadership, p: (Uuid, Uuid))
    requires Valid(s.t) && m.stId in roster && StoredMember(s, m, roster, merging).Stored? && l in m.leads
    requires Holding(s, m.stId, l, p)
    ensures LeaderPairsRepeat(PulledMember(s, m, roster, merging).pairs)
  {
    var r := StoredMember(s, m, roster, merging);
    var from, t := StoreFrom(s, m, roster, merging);
    hide Valid, StoredMember, NameLeads;
    LeadsAdd(from, r.id, m.leads);
    assert p == (r.id, r.s.bodyIds[l]);
    var i :| 0 <= i < |s.pairs| && s.pairs[i] == p;
    var j :| 0 <= j < |r.s.pairs[|s.pairs|..]| && r.s.pairs[|s.pairs|..][j] == p;
    assert r.s.pairs[i] == r.s.pairs[|s.pairs| + j];
  }

  lemma RepeatStays(s: PullState, m: Member, roster: set<int>, merging: bool)
    requires Valid(s.t) && m.stId in roster && LeaderPairsRepeat(s.pairs)
    ensures LeaderPairsRepeat(PulledMember(s, m, roster, merging).pairs)
  {
    if StoredMember(s, m, roster, merging).Stored? {
      var from, t := StoreFrom(s, m, roster, merging);
      hide Valid, StoredMember, NameLeads;
      LeadsAdd(from, StoredMember(s, m, roster, merging).id, m.leads);
      var i, j :| 0 <= i < j < |s.pairs| && s.pairs[i] == s.pairs[j];
      assert PulledMember(s, m, roster, merging).pairs[i] == PulledMember(s, m, roster, merging).pairs[j];
    }
  }

  lemma {:induction false} RepeatLasts(s: PullState, members: seq<Member>, roster: set<int>, merging: bool)
    requires Valid(s.t) && (forall m :: m in members ==> m.stId in roster) && LeaderPairsRepeat(s.pairs)
    ensures LeaderPairsRepeat(PulledAll(s, members, roster, merging).pairs)
    decreases |members|
  {
    hide Valid, LeaderPairsRepeat, PulledMember;
    if members != [] {
      RepeatStays(s, members[0], roster, merging);
      RepeatLasts(PulledMember(s, members[0], roster, merging), members[1..], roster, merging);
    }
  }

  /** Once a lead is held, a later record with its st_id and that lead repeats it. */
  lemma {:induction false} HeldThenRepeated(s: PullState, members: seq<Member>, roster: set<int>, merging: bool,
                                            st: int, l: Leadership, p: (Uuid, Uuid), k: nat)
    requires Valid(s.t) && (forall m :: m in members ==> m.stId in roster) && st in roster && Holding(s, st, l, p)
    requires k < |Stores(s, members, roster, merging)|
    requires Stores(s, members, roster, merging)[k].stId == st && l in Stores(s, members, roster, merging)[k].leads
    ensures LeaderPairsRepeat(PulledAll(s, members, roster, merging).pairs)
    decreases |members|
  {
    hide Valid, LeaderPairsRepeat, PulledMember, StoredMember, Holding;
    var m, next := members[0], PulledMember(s, members[0], roster, merging);
    var stored := StoredMember(s, m, roster, merging).Stored?;
    if stored && k == 0 {
      StoreRepeats(s, m, roster, merging, l, p);
      RepeatLasts(next, members[1..], roster, merging);
    } else {
      HoldingNext(s, m, roster, merging, st, l, p);
      HeldThenRepeated(next, members[1..], roster, merging, st, l, p, if stored then k - 1 else k);
    }
  }

  lemma {:induction false} SharedThenRepeated(s: PullState, members: seq<Member>, roster: set<int>, merging: bool,
      i: nat, j: nat)
    requires Valid(s.t) && forall m :: m in members ==> m.stId in roster
    requires i < j < |Stores(s, members, roster, merging)|
    requires ShareLead(Stores(s, members, roster, merging)[i], Stores(s, members, roster, merging)[j])
    ensures LeaderPairsRepeat(PulledAll(s, members, roster, merging).pairs)
    decreases |members|
  {
    hide Valid, LeaderPairsRepeat, PulledMember, StoredMember;
    var m, next := members[0], PulledMember(s, members[0], roster, merging);
    var all := Stores(s, members, roster, merging);
    if StoredMember(s, m, roster, merging).Stored? {
      if i == 0 {
        var l :| l in all[i].leads && l in all[j].leads;
        var p := StoreHolds(s, m, roster, merging, l);
        HeldThenRepeated(next, members[1..], roster, merging, m.stId, l, p, j - 1);
      } else {
        SharedThenRepeated(next, members[1..], roster, merging, i - 1, j - 1);
      }
    } else {
      SharedThenRepeated(next, members[1..], roster, merging, i, j);
    }
  }

  // --------------------------------------------------------------- main result

  function StoredInPull(t0: Tables, members: seq<Member>, dryRun: bool): seq<Member>
    requires Valid(t0)
  {
    var roster := RosterIds(members);
    Stores(Start(t0), members, roster, !(dryRun || FuseTripped(t0, roster)))
  }

  lemma AbortedMeans(t0: Tables, members: seq<Member>, dryRun: bool)
    requires Valid(t0)
    ensures var s, r := Looped(t0, members, dryRun), PulledIn(t0, members, dryRun);
            && (r.Aborted? <==> LeaderPairsRepeat(s.pairs) || LeaderPairsDangle(s.t, s.pairs))
            && (LeaderPairsRepeat(s.pairs) ==> r == Aborted(RepeatedLeaderPair))
  {
    hide Valid, Looped, LeaderPairsRepeat, LeaderPairsDangle, Reconciled, Absent, LapseAbsent, FuseTripped, RosterIds;
  }

  /** The member loop leaves a repeated or dangling pair exactly when it stored two
      records that share an st_id and a leadership: then one pair repeats. */
  lemma PairsExactly(s: PullState, members: seq<Member>, roster: set<int>, merging: bool)
    requires Valid(s.t) && s.pairs == [] && s.bodyIds == map[]
    requires forall m :: m in members ==> m.stId in roster && NoDup(m.leads)
    ensures var r, stored := PulledAll(s, members, roster, merging), Stores(s, members, roster, merging);
            && (Repeats(stored) ==> LeaderPairsRepeat(r.pairs))
            && (!Repeats(stored) ==> !LeaderPairsRepeat(r.pairs) && !LeaderPairsDangle(r.t, r.pairs))
  {
    hide Valid, Stores, PulledAll, LeaderPairsRepeat, LeaderPairsDangle, NoDup;
    var stored := Stores(s, members, roster, merging);
    if Repeats(stored) {
      var i, j :| 0 <= i < j < |stored| && ShareLead(stored[i], stored[j]);
      SharedThenRepeated(s, members, roster, merging, i, j);
    } else {
      NothingOwned(s, roster);
      assert [] + stored == stored;
      hide Repeats;
      OwnedAll([], s, members, roster, merging);
      NothingDangles(stored, PulledAll(s, members, roster, merging), roster);
    }
  }

  lemma NothingOwned(s: PullState, roster: set<int>)
    requires s.pairs == [] && s.bodyIds == map[]
    ensures Owned([], s, roster)
  {
  }

  /** A pull aborts exactly when two of the records it stored share an st_id and a
      leadership, and then because its leader statement would touch a row twice. */
  lemma PullAbortsExactly(t0: Tables, members: seq<Member>, dryRun: bool)
    requires Valid(t0) && forall m :: m in members ==> NoDup(m.leads)
    ensures PulledIn(t0, members, dryRun).Aborted? <==> Repeats(StoredInPull(t0, members, dryRun))
    ensures PulledIn(t0, members, dryRun).Aborted? ==> PulledIn(t0, members, dryRun).error == RepeatedLeaderPair
  {
    hide Valid, PulledAll, Stores, LeaderPairsRepeat, LeaderPairsDangle, Repeats, FuseTripped, PulledIn, NoDup;
    var roster := RosterIds(members);
    AbortedMeans(t0, members, dryRun);
    PairsExactly(Start(t0), members, roster, !(dryRun || FuseTripped(t0, roster)));
  }

  lemma NothingDangles(stored: seq<Member>, s: PullState, roster: set<int>)
    requires Owned(stored, s, roster)
    ensures !LeaderPairsRepeat(s.pairs) && !LeaderPairsDangle(s.t, s.pairs)
  {
  }

  lemma {:induction false} StoresFrom(s: PullState, members: seq<Member>, roster: set<int>, merging: bool, k: nat)
      returns (at: nat)
    requires Valid(s.t) && forall m :: m in members ==> m.stId in roster
    requires k < |Stores(s, members, roster, merging)|
    ensures at < |members| && members[at] == Stores(s, members, roster, merging)[k]
    decreases |members|
  {
    hide Valid, PulledMember, StoredMember;
    var next := PulledMember(s, members[0], roster, merging);
    var stored := StoredMember(s, members[0], roster, merging).Stored?;
    if stored && k == 0 {
      at := 0;
    } else {
      var rest := StoresFrom(next, members[1..], roster, merging, if stored then k - 1 else k);
      at := rest + 1;
    }
  }

  lemma {:induction false} StoresInOrder(s: PullState, members: seq<Member>, roster: set<int>, merging: bool,
      i: nat, j: nat) returns (a: nat, b: nat)
    requires Valid(s.t) && forall m :: m in members ==> m.stId in roster
    requires i < j < |Stores(s, members, roster, merging)|
    ensures a < b < |members| && members[a] == Stores(s, members, roster, merging)[i]
        && members[b] == Stores(s, members, roster, merging)[j]
    decreases |members|
  {
    hide Valid, PulledMember, StoredMember;
    var next := PulledMember(s, members[0], roster, merging);
    var stored := StoredMember(s, members[0], roster, merging).Stored?;
    if stored && i == 0 {
      a := 0;
      var rest := StoresFrom(next, members[1..], roster, merging, j - 1);
      b := rest + 1;
    } else {
      var n := if stored then 1 else 0;
      var a', b' := StoresInOrder(next, members[1..], roster, merging, i - n, j - n);
      a, b := a' + 1, b' + 1;
    }
  }

  /** So a roster in which no two records share an st_id and a leadership can be
      pulled into any database. */
  lemma DistinctLeadsCommit(t0: Tables, members: seq<Member>, dryRun: bool)
    requires Valid(t0) && (forall m :: m in members ==> NoDup(m.leads)) && !Repeats(members)
    ensures PulledIn(t0, members, dryRun).Committed?
  {
    PullAbortsExactly(t0, members, dryRun);
    var roster := RosterIds(members);
    var merging := !(dryRun || FuseTripped(t0, roster));
    var stored := StoredInPull(t0, members, dryRun);
    hide Valid, PulledIn, Stores;
    forall i, j | 0 <= i < j < |stored| ensures !ShareLead(stored[i], stored[j]) {
      var a, b := StoresInOrder(Start(t0), members, roster, merging, i, j);
    }
  }
}
