/** Pulling the same roster again changes nothing. */
module RosterFixpoint {
  import opened Basics
  import opened Database
  import opened RosterPull
  import opened RosterKeeps
  import opened RosterLeaders
  import opened RosterTheorems

  // --------------------------------------------------------------- constraints

  lemma ReconcileValid(s: PullState)
    requires Valid(s.t) && forall p :: p in s.pairs ==> p.0 in s.t.members && p.1 in s.t.bodies
    ensures Valid(Reconciled(s))
  {
    ReconciledRows(s);
  }

  lemma LapseValid(t: Tables, roster: set<int>)
    requires Valid(t)
    ensures Valid(LapseAbsent(t, roster))
  {
  }

  /** A committed pull leaves every constraint of the tables standing, whatever
      the roster. */
  lemma PullKeepsValid(t0: Tables, members: seq<Member>, dryRun: bool)
    requires Valid(t0) && PulledIn(t0, members, dryRun).Committed?
    ensures Valid(PulledIn(t0, members, dryRun).t)
  {
    var s := Looped(t0, members, dryRun);
    assert forall p :: p in s.pairs ==> p.0 in s.t.members && p.1 in s.t.bodies;
    hide MembersUnique, BodiesUnique, MembershipsRefer, Looped, Reconciled, LapseAbsent;
    ReconcileValid(s);
    LapseValid(Reconciled(s), RosterIds(members));
  }

  // ------------------------------------------------------------ settled tables

  /** The record's row is stored as served, and it leads what it should. */
  ghost predicate Stands(t: Tables, m: Member, id: Uuid) {
    && id in t.members && t.members[id] == RowOf(m)
    && (forall l :: l in m.leads ==> Named(t.bodies, l))
    && (forall b :: b in t.bodies ==>
          if LeadershipOf(t.bodies[b]) in m.leads
          then (id, b) in t.memberships && t.memberships[(id, b)] == BodyMembership(AsLeader, None, None)
          else !IsLeaderRow(t.memberships, id, b))
  }

  /** Nothing is left for a pull of this roster to do; `ids[k]` is record k's row. */
  ghost predicate Settled(t: Tables, members: seq<Member>, ids: seq<Uuid>) {
    && Valid(t) && |ids| == |members|
    && (forall k :: 0 <= k < |members| ==> Stands(t, members[k], ids[k]))
    && Absent(t.members, RosterIds(members)) == {}
  }

  lemma {:induction false} AllStored(done: seq<Member>)
    ensures StoredMembers(done, []) == done
  {
    if done != [] {
      AllStored(done[..|done| - 1]);
      assert done == done[..|done| - 1] + [done[|done| - 1]];
    }
  }

  lemma PullSettles(t0: Tables, members: seq<Member>, dryRun: bool)
    requires Valid(t0) && WellFormed(members) && !FuseTripped(t0, RosterIds(members))
    requires PulledIn(t0, members, dryRun).Committed? && PulledIn(t0, members, dryRun).report.skippedStIds == []
    ensures Settled(PulledIn(t0, members, dryRun).t, members, Looped(t0, members, dryRun).present)
  {
    hide Valid, WellFormed, Looped, PulledIn, Absent, Reconciled, Reconciles, Stands, PairsName, IsLeaderRow, PairsWell,
        Named, Carries, Missing, FuseTripped, RowOf, StoredMembers;
    var s, r := Looped(t0, members, dryRun), PulledIn(t0, members, dryRun);
    PullKeepsValid(t0, members, dryRun);
    StoredRowsSurvive(t0, members, dryRun);
    LeaderExactness(t0, members, dryRun);
    LapseConservation(t0, members, dryRun);
    FuseTripsExactly(r.t, members);
    CommittedRows(t0, members, dryRun);
    LoopTracks(t0, members, dryRun);
    AllStored(members);
    ReconciledRows(s);
    forall k | 0 <= k < |members| ensures Stands(r.t, members[k], s.present[k]) {
      assert PairsName(s.t.bodies, s.pairs, members[k], s.present[k]);
      StandsAfter(s, r.t, members[k], s.present[k]);
    }
  }

  lemma StandsAfter(s: PullState, t: Tables, m: Member, id: Uuid)
    requires PairsName(s.t.bodies, s.pairs, m, id) && id in s.present
    requires Reconciles(s.t.memberships, t.memberships, s.pairs, s.present)
    requires t.bodies == s.t.bodies && id in t.members && t.members[id] == RowOf(m)
    ensures Stands(t, m, id)
  {
  }

  /** Settled leader rows reconcile to themselves. */
  lemma ReconciledAgain(t: Tables, r: Memberships, members: seq<Member>, ids: seq<Uuid>, pairs: seq<(Uuid, Uuid)>)
    requires MembershipsRefer(t) && Reconciles(t.memberships, r, pairs, ids) && |ids| == |members|
    requires forall p :: p in pairs ==> p.0 in ids && p.1 in t.bodies
    requires forall k ::
        0 <= k < |ids| ==> Stands(t, members[k], ids[k]) && PairsName(t.bodies, pairs, members[k], ids[k])
    ensures r == t.memberships
  {
    hide Stands, PairsName, Reconciles;
    forall k | k in pairs || (k in t.memberships && k.0 in ids)
      ensures if k in pairs then k in t.memberships && t.memberships[k] == BodyMembership(AsLeader, None, None)
              else !IsLeaderRow(t.memberships, k.0, k.1)
    {
      var j :| 0 <= j < |ids| && ids[j] == k.0;
      assert Stands(t, members[j], ids[j]) && PairsName(t.bodies, pairs, members[j], ids[j]);
      StandsRow(t, members[j], pairs, k.0, k.1);
    }
    SameRows(t.memberships, r, pairs, ids);
  }

  lemma StandsRow(t: Tables, m: Member, pairs: seq<(Uuid, Uuid)>, id: Uuid, b: Uuid)
    requires Stands(t, m, id) && PairsName(t.bodies, pairs, m, id) && b in t.bodies
    ensures if (id, b) in pairs
            then (id, b) in t.memberships && t.memberships[(id, b)] == BodyMembership(AsLeader, None, None)
            else !IsLeaderRow(t.memberships, id, b)
  {
  }

  lemma SameRows(ms: Memberships, r: Memberships, pairs: seq<(Uuid, Uuid)>, present: seq<Uuid>)
    requires Reconciles(ms, r, pairs, present)
    requires forall k :: k in pairs ==> k in ms && ms[k] == BodyMembership(AsLeader, None, None)
    requires forall k :: k in ms && k !in pairs && k.0 in present ==> !IsLeaderRow(ms, k.0, k.1)
    ensures r == ms
  {
    forall k | k in ms ensures k in r && r[k] == ms[k] {
      assert k == (k.0, k.1);
    }
    assert forall k :: k in r ==> k in ms;
  }

  // --------------------------------------------------------------- pull again

  /** A settled record upserts onto itself. */
  lemma UpsertAgain(t: Tables, m: Member, id: Uuid)
    requires Valid(t) && Stands(t, m, id)
    ensures !Clashes(t.members, m) && UpsertMember(t, m) == (t, id)
  {
    assert t.members[id := RowOf(m)] == t.members;
    assert t.members[id].email == m.email && t.members[id].discordId == m.discordId;
  }

  lemma {:induction false} NameLeadsAgain(s: PullState, id: Uuid, leads: seq<Leadership>)
    requires Valid(s.t) && forall l :: l in leads ==> Named(s.t.bodies, l)
    ensures NameLeads(s, id, leads).t == s.t
    decreases |leads|
  {
    if leads != [] {
      assert Named(s.t.bodies, leads[0]);
      assert NameLead(s, id, leads[0]).t == s.t;
      NameLeadsAgain(NameLead(s, id, leads[0]), id, leads[1..]);
    }
  }

  lemma StoreAgain(s: PullState, m: Member, id: Uuid, roster: set<int>, merging: bool)
    requires Valid(s.t) && Stands(s.t, m, id) && m.stId in roster
    ensures var r := PulledMember(s, m, roster, merging);
            r.t == s.t && r.heirs == s.heirs && r.merges == s.merges && r.skipped == s.skipped
                && r.present == s.present + [id]
  {
    UpsertAgain(s.t, m, id);
    assert s.(t := s.t) == s;
    NameLeadsAgain(s, id, m.leads);
    NamesLeads(s, id, m.leads);
  }

  lemma {:induction false} LoopAgain(s: PullState, members: seq<Member>, ids: seq<Uuid>, roster: set<int>,
      merging: bool)
    requires Valid(s.t) && |ids| == |members| && forall k :: 0 <= k < |members| ==> Stands(s.t, members[k], ids[k])
    requires forall m :: m in members ==> m.stId in roster
    ensures var r := PulledAll(s, members, roster, merging);
            r.t == s.t && r.heirs == s.heirs && r.merges == s.merges && r.skipped == s.skipped
                && r.present == s.present + ids
    decreases |members|
  {
    hide Valid, Stands, PulledMember;
    if members != [] {
      assert members[0] in members;
      StoreAgain(s, members[0], ids[0], roster, merging);
      LoopAgain(PulledMember(s, members[0], roster, merging), members[1..], ids[1..], roster, merging);
      assert (s.present + [ids[0]]) + ids[1..] == s.present + ids;
    } else {
      assert s.present + ids == s.present;
    }
  }

  /** A pull over settled tables is the identity. */
  lemma SettledIsFixed(t: Tables, members: seq<Member>, ids: seq<Uuid>, dryRun: bool)
    requires WellFormed(members) && Settled(t, members, ids)
    ensures var r := PulledIn(t, members, dryRun);
            && r.Committed? && r.t == t
            && r.report.merges == [] && r.report.skippedStIds == []
            && r.report.absentLapsed == 0 && r.report.lapseRefused == 0
  {
    hide MembersUnique, BodiesUnique, MembershipsRefer, Reconciled, Reconciles, Tracked, Stands, PairsName, Absent,
        LapseAbsent, PulledAll;
    var s, roster := Looped(t, members, dryRun), RosterIds(members);
    PullCommits(t, members, dryRun);
    LoopTracks(t, members, dryRun);
    LoopAgain(Start(t), members, ids, roster, !(dryRun || FuseTripped(t, roster)));
    AllStored(members);
    assert s.present == ids && s.t == t;
    ReconciledRows(s);
    hide MembersUnique, BodiesUnique, MembershipsRefer, Looped, Reconciled, Reconciles, Tracked, Stands, PairsName,
        Absent, LapseAbsent;
    ReconciledAgain(t, Reconciled(s).memberships, members, ids, s.pairs);
    assert Reconciled(s) == t by { ReconciledRest(s); }
    LapseNothing(t, roster);
  }

  lemma LapseNothing(t: Tables, roster: set<int>)
    requires Absent(t.members, roster) == {}
    ensures LapseAbsent(t, roster) == t
  {
    assert LapseAbsent(t, roster).members == t.members;
  }

  /** The pull fixpoint: a pull that skipped no one and kept its fuse is final. The
      next pull of the same roster, rehearsal or not, leaves every table identical,
      merges nothing and lapses no one, whatever the first one folded. */
  lemma PullFixpoint(t0: Tables, members: seq<Member>, dryRun: bool, again: bool)
    requires Valid(t0) && WellFormed(members) && !FuseTripped(t0, RosterIds(members))
    requires PulledIn(t0, members, dryRun).Committed? && PulledIn(t0, members, dryRun).report.skippedStIds == []
    ensures Valid(PulledIn(t0, members, dryRun).t)
    ensures var first := PulledIn(t0, members, dryRun).t;
            var r := PulledIn(first, members, again);
            && r.Committed? && r.t == first
            && r.report.merges == [] && r.report.skippedStIds == []
            && r.report.absentLapsed == 0 && r.report.lapseRefused == 0
  {
    PullSettles(t0, members, dryRun);
    SettledIsFixed(PulledIn(t0, members, dryRun).t, members, Looped(t0, members, dryRun).present, again);
  }
}
