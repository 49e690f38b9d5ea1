/** What a pull stores and which leader rows it leaves: rows once stored stay
    stored, a skip happens exactly on a clash with the roster itself, and the
    pair list never repeats or dangles, so the transaction never aborts. */
module RosterLeaders {
  import opened Basics
  import opened Database
  import opened RosterPull
  import opened RosterKeeps

  /** The roster's own promises: no st_id twice, and `leads` is a set. */
  ghost predicate WellFormed(members: seq<Member>) {
    && (forall i, j :: 0 <= i < j < |members| ==> members[i].stId != members[j].stId)
    && (forall m :: m in members ==> NoDup(m.leads))
  }

  // -------------------------------------------------- rows a step leaves alone

  /** A merge touches no row the roster names, and leaves no unrostered holder. */
  ghost predicate MergesRows(members: map<Uuid, MemberRow>, r: map<Uuid, MemberRow>, m: Member, roster: set<int>) {
    && (forall i :: i in members && members[i].stId in roster ==> i in r && r[i] == members[i])
    && (forall i ::
           i in r ==> i in members && (r[i] == members[i] || (members[i].stId !in roster && r[i].stId == m.stId)))
    && (forall i :: i in r && Holds(r[i], m) && r[i].stId != m.stId ==> r[i].stId in roster)
  }

  lemma PlannedRows(t: Tables, m: Member, roster: set<int>)
    requires Valid(t) && m.stId in roster && DuplicatesInOrder(t.members, m, roster) != []
    ensures var plan := PlanMerge(t, m, roster);
            MergesRows(t.members, plan.t.members - ToSet(plan.froms), m, roster)
  {
    hide Valid, PlanMerge, DuplicatesInOrder;
  }

  lemma MergeRows(t: Tables, m: Member, roster: set<int>)
    requires Valid(t) && m.stId in roster
    ensures MergesRows(t.members, MergedDuplicates(t, m, roster).t.members, m, roster)
  {
    hide MembersUnique, BodiesUnique, MembershipsRefer, PlanMerge, FoldAll;
    if DuplicatesInOrder(t.members, m, roster) != [] {
      PlannedRows(t, m, roster);
    } else {
      assert forall i :: i in t.members && Holds(t.members[i], m) && t.members[i].stId !in roster ==>
          i in Duplicates(t.members, m, roster);
    }
  }

  lemma UpsertedRows(s: PullState, m: Member, roster: set<int>)
    requires Valid(s.t)
    ensures var r := UpsertedOne(s, m);
            r.Stored? ==>
              && r.s.t.members == s.t.members[r.id := RowOf(m)]
              && r.s.skipped == s.skipped && r.s.present == s.present
              && (r.id in s.t.members ==> s.t.members[r.id].stId == m.stId)
  {
    if !Clashes(s.t.members, m) {
      var (t, id) := UpsertMember(s.t, m);
      NamesLeads(s.(t := t), id, m.leads);
    }
  }

  lemma {:induction false} NamesLeads(s: PullState, id: Uuid, leads: seq<Leadership>)
    requires Valid(s.t)
    ensures var r := NameLeads(s, id, leads);
            r == s.(t := s.t.(bodies := r.t.bodies, nextId := r.t.nextId), bodyIds := r.bodyIds, pairs := r.pairs)
    decreases |leads|
  {
    if leads != [] { NamesLeads(NameLead(s, id, leads[0]), id, leads[1..]); }
  }

  /** The other rows the roster names stand; the record's own row is as stored. */
  ghost predicate StoresRow(members: map<Uuid, MemberRow>, r: map<Uuid, MemberRow>, m: Member, id: Uuid,
      roster: set<int>) {
    && (forall i ::
           i in members && members[i].stId in roster && members[i].stId != m.stId ==> i in r && r[i] == members[i])
    && id in r && r[id] == RowOf(m)
  }

  lemma StoresAfter(members: map<Uuid, MemberRow>, merged: map<Uuid, MemberRow>, m: Member, id: Uuid, roster: set<int>)
    requires forall i :: i in members && members[i].stId in roster ==> i in merged && merged[i] == members[i]
    requires id in merged ==> merged[id].stId == m.stId
    ensures StoresRow(members, merged[id := RowOf(m)], m, id, roster)
  {
  }

  lemma StoredRows(s: PullState, m: Member, roster: set<int>, merging: bool)
    requires Valid(s.t) && m.stId in roster
    ensures var r := StoredMember(s, m, roster, merging);
            r.Stored? ==>
              && StoresRow(s.t.members, r.s.t.members, m, r.id, roster)
              && r.s.present == s.present && r.s.skipped == s.skipped
  {
    var r := StoredMember(s, m, roster, merging);
    if r.Stored? {
      var merged := WithMerge(s, MergedDuplicates(s.t, m, roster));
      var from := if UpsertedOne(s, m).Stored? then s else merged;
      assert r == UpsertedOne(from, m);
      UpsertedRows(from, m, roster);
      MergeRows(s.t, m, roster);
      hide Valid, MergedDuplicates, UpsertedOne, StoredMember, Holds, StoresRow;
      StoresAfter(s.t.members, from.t.members, m, r.id, roster);
    }
  }

  // -------------------------------------------------------------- exact skips

  /** The row has the record's email, or the Discord id the record carries. */
  ghost predicate Shares(row: MemberRow, m: Member) {
    row.email == m.email || (m.discordId.Some? && row.discordId == m.discordId)
  }

  /** Someone else's row shares a value with the record. */
  ghost predicate HeldByOther(members: map<Uuid, MemberRow>, m: Member) {
    exists i :: i in members && members[i].stId != m.stId && Shares(members[i], m)
  }

  /** The clash a pull must not resolve: a row the roster names holds the value. */
  ghost predicate HeldByRoster(members: map<Uuid, MemberRow>, m: Member, roster: set<int>) {
    exists i :: i in members && members[i].stId in roster && members[i].stId != m.stId && Shares(members[i], m)
  }

  lemma HoldsShares(members: map<Uuid, MemberRow>, m: Member)
    ensures forall row :: Holds(row, m) <==> Shares(row, m)
    ensures Clashes(members, m) <==> HeldByOther(members, m)
  {
  }

  /** Once merged, what still clashes is what the roster holds. */
  lemma MergedClash(members: map<Uuid, MemberRow>, r: map<Uuid, MemberRow>, m: Member, roster: set<int>)
    requires MergesRows(members, r, m, roster)
    ensures Clashes(r, m) <==> HeldByRoster(members, m, roster)
  {
    if Clashes(r, m) {
      var i :| i in r && r[i].stId != m.stId && Holds(r[i], m);
      assert r[i] == members[i];
    }
    if HeldByRoster(members, m, roster) {
      var i :| i in members && members[i].stId in roster && members[i].stId != m.stId && Shares(members[i], m);
      assert i in r && r[i] == members[i];
    }
  }

  lemma StoredOrClashed(s: PullState, m: Member, roster: set<int>, merging: bool)
    requires Valid(s.t) && m.stId in roster
    ensures StoredMember(s, m, roster, merging).Clashed? <==>
              Clashes(s.t.members, m) && (merging ==> Clashes(MergedDuplicates(s.t, m, roster).t.members, m))
  {
    hide Valid, MergedDuplicates, Clashes;
  }

  /** A record is skipped exactly when another rostered row holds its email or
      Discord id, or when any row does and merging is off. */
  lemma SkipExactly(s: PullState, m: Member, roster: set<int>, merging: bool)
    requires Valid(s.t) && m.stId in roster
    ensures StoredMember(s, m, roster, merging).Clashed? <==>
              HeldByOther(s.t.members, m) && (merging ==> HeldByRoster(s.t.members, m, roster))
    ensures StoredMember(s, m, roster, merging).Clashed? ==>
              PulledMember(s, m, roster, merging) == s.(skipped := s.skipped + [m.stId])
  {
    StoredOrClashed(s, m, roster, merging);
    MergeRows(s.t, m, roster);
    HoldsShares(s.t.members, m);
    hide Valid, StoredMember, MergedDuplicates, MergesRows, Clashes, HeldByRoster, HeldByOther;
    MergedClash(s.t.members, MergedDuplicates(s.t, m, roster).t.members, m, roster);
  }

  // ------------------------------------------------------------- what is stored

  /** The records handled so far that were not skipped, in order. */
  function StoredMembers(done: seq<Member>, skipped: seq<int>): seq<Member> {
    if done == [] then []
    else
      var last := done[|done| - 1];
      StoredMembers(done[..|done| - 1], skipped) + (if last.stId in skipped then [] else [last])
  }

  lemma {:induction false} StoredMembersIn(done: seq<Member>, skipped: seq<int>)
    ensures forall m :: m in StoredMembers(done, skipped) <==> m in done && m.stId !in skipped
  {
    if done != [] {
      StoredMembersIn(done[..|done| - 1], skipped);
      assert done == done[..|done| - 1] + [done[|done| - 1]];
    }
  }

  lemma {:induction false} StoredMembersSkip(done: seq<Member>, skipped: seq<int>, st: int)
    requires forall d :: d in done ==> d.stId != st
    ensures StoredMembers(done, skipped + [st]) == StoredMembers(done, skipped)
  {
    if done != [] {
      StoredMembersSkip(done[..|done| - 1], skipped, st);
    }
  }

  lemma StoredMembersNext(done: seq<Member>, m: Member, skipped: seq<int>)
    ensures StoredMembers(done + [m], skipped) ==
            StoredMembers(done, skipped) + (if m.stId in skipped then [] else [m])
  {
    assert (done + [m])[..|done|] == done;
  }

  /** The present rows hold the stored records, one row each and in order. */
  ghost predicate Tracks(stored: seq<Member>, members: map<Uuid, MemberRow>, present: seq<Uuid>) {
    && NoDup(present) && |stored| == |present|
    && forall k :: 0 <= k < |present| ==> present[k] in members && members[present[k]] == RowOf(stored[k])
  }

  lemma TracksStored(stored: seq<Member>, members: map<Uuid, MemberRow>, present: seq<Uuid>,
                     r: map<Uuid, MemberRow>, m: Member, id: Uuid, roster: set<int>)
    requires Tracks(stored, members, present) && StoresRow(members, r, m, id, roster)
    requires forall d :: d in stored ==> d.stId in roster && d.stId != m.stId
    ensures Tracks(stored + [m], r, present + [id])
  {
    forall k | 0 <= k < |present|
      ensures present[k] in r && r[present[k]] == RowOf(stored[k]) && present[k] != id
    {
      assert stored[k] in stored;
    }
  }

  /** Which roster records are stored where, after part of the roster. */
  ghost predicate Tracked(done: seq<Member>, s: PullState) {
    && Tracks(StoredMembers(done, s.skipped), s.t.members, s.present)
    && |s.present| + |s.skipped| == |done|
    && forall st :: st in s.skipped ==> exists d :: d in done && d.stId == st
  }

  lemma TrackedNext(done: seq<Member>, s: PullState, m: Member, roster: set<int>, merging: bool)
    requires Valid(s.t) && Tracked(done, s) && m.stId in roster
    requires forall d :: d in done ==> d.stId in roster && d.stId != m.stId
    ensures Tracked(done + [m], PulledMember(s, m, roster, merging))
  {
    hide Valid, Tracks, StoredMember, StoredMembers;
    var out, r := StoredMember(s, m, roster, merging), PulledMember(s, m, roster, merging);
    StoredRows(s, m, roster, merging);
    StoredMembersIn(done, s.skipped);
    StoredMembersNext(done, m, r.skipped);
    assert m in done + [m] && forall d :: d in done ==> d in done + [m];
    if out.Stored? {
      TracksStored(StoredMembers(done, s.skipped), s.t.members, s.present, out.s.t.members, m, out.id, roster);
    } else {
      StoredMembersSkip(done, s.skipped, m.stId);
      assert r == s.(skipped := s.skipped + [m.stId]) && m.stId in r.skipped;
      assert StoredMembers(done + [m], r.skipped) == StoredMembers(done, s.skipped);
    }
  }

  // ---------------------------------------------------------------- the pairs

  ghost predicate CacheRight(s: PullState) {
    forall l :: l in s.bodyIds ==> s.bodyIds[l] in s.t.bodies && LeadershipOf(s.t.bodies[s.bodyIds[l]]) == l
  }

  ghost predicate Named(bodies: map<Uuid, BodyRow>, l: Leadership) {
    exists b :: b in bodies && LeadershipOf(bodies[b]) == l
  }

  /** The pairs of one stored record: its leads' bodies, all of them, no others. */
  ghost predicate PairsName(bodies: map<Uuid, BodyRow>, pairs: seq<(Uuid, Uuid)>, m: Member, id: Uuid) {
    && (forall l :: l in m.leads ==> Named(bodies, l))
    && (forall b :: b in bodies ==> ((id, b) in pairs <==> LeadershipOf(bodies[b]) in m.leads))
  }

  ghost predicate PairsWell(s: PullState) {
    && CacheRight(s) && NoDup(s.pairs)
    && forall p :: p in s.pairs ==> p.0 in s.present && p.1 in s.t.bodies
  }

  ghost predicate PairsExact(stored: seq<Member>, s: PullState) {
    && |stored| == |s.present|
    && forall k :: 0 <= k < |stored| ==> PairsName(s.t.bodies, s.pairs, stored[k], s.present[k])
  }

  /** The pairs one record's leads add: fresh pairs for `id` alone. */
  ghost predicate LeadsNamed(s: PullState, r: PullState, id: Uuid, leads: seq<Leadership>) {
    && CacheRight(r) && NoDup(r.pairs)
    && KeepsBodies(s.t.bodies, r.t.bodies)
    && s.pairs <= r.pairs
    && (forall p :: p in r.pairs && p !in s.pairs ==> p.0 == id && p.1 in r.t.bodies)
    && (forall l :: l in leads ==> Named(r.t.bodies, l))
    && (forall b :: b in r.t.bodies ==>
          ((id, b) in r.pairs <==> (id, b) in s.pairs || LeadershipOf(r.t.bodies[b]) in leads))
  }

  ghost predicate Unnamed(s: PullState, id: Uuid, leads: seq<Leadership>) {
    && (forall p :: p in s.pairs && p.0 == id ==> p.1 in s.t.bodies && LeadershipOf(s.t.bodies[p.1]) !in leads)
  }

  /** Naming one lead finds or makes its body. */
  lemma NameLeadBody(s: PullState, id: Uuid, l: Leadership)
    requires Valid(s.t) && CacheRight(s)
    ensures var r := NameLead(s, id, l);
            && CacheRight(r) && KeepsBodies(s.t.bodies, r.t.bodies) && BodiesUnique(r.t.bodies)
            && |r.pairs| == |s.pairs| + 1 && r.pairs == s.pairs + [(id, r.pairs[|s.pairs|].1)]
            && r.pairs[|s.pairs|].1 in r.t.bodies && LeadershipOf(r.t.bodies[r.pairs[|s.pairs|].1]) == l
  {
    hide MembersUnique, MembershipsRefer;
  }

  lemma OnePairMore(before: map<Uuid, BodyRow>, bodies: map<Uuid, BodyRow>, pairs: seq<(Uuid, Uuid)>, id: Uuid,
      b: Uuid, l: Leadership)
    requires NoDup(pairs) && KeepsBodies(before, bodies) && BodiesUnique(bodies)
    requires b in bodies && LeadershipOf(bodies[b]) == l
    requires forall p :: p in pairs && p.0 == id ==> p.1 in before && LeadershipOf(before[p.1]) != l
    ensures NoDup(pairs + [(id, b)])
    ensures forall c ::
        c in bodies ==> ((id, c) in pairs + [(id, b)] <==> (id, c) in pairs || LeadershipOf(bodies[c]) == l)
  {
    assert (id, b) !in pairs;
    NoDupAppend(pairs, (id, b));
    assert forall c :: c in bodies && LeadershipOf(bodies[c]) == l ==> c == b;
  }

  lemma NameLeadNamed(s: PullState, id: Uuid, l: Leadership)
    requires Valid(s.t) && CacheRight(s) && NoDup(s.pairs) && Unnamed(s, id, [l])
    ensures LeadsNamed(s, NameLead(s, id, l), id, [l])
  {
    NameLeadBody(s, id, l);
    hide Valid, NameLead, CacheRight, KeepsBodies, BodiesUnique, NoDup;
    var r := NameLead(s, id, l);
    var b := r.pairs[|s.pairs|].1;
    assert l in [l];
    OnePairMore(s.t.bodies, r.t.bodies, s.pairs, id, b, l);
  }

  /** One lead and then the rest. */
  lemma LeadsNamedThen(s: PullState, next: PullState, r: PullState, id: Uuid, l: Leadership, rest: seq<Leadership>)
    requires LeadsNamed(s, next, id, [l]) && LeadsNamed(next, r, id, rest)
    requires BodiesUnique(r.t.bodies) && Unnamed(s, id, [l] + rest)
    ensures LeadsNamed(s, r, id, [l] + rest)
  {
    assert l in [l];
    var c :| c in next.t.bodies && LeadershipOf(next.t.bodies[c]) == l;
    assert (id, c) in next.pairs && (id, c) in r.pairs;
    forall b | b in r.t.bodies
      ensures (id, b) in r.pairs <==> (id, b) in s.pairs || LeadershipOf(r.t.bodies[b]) in [l] + rest
    {
      if LeadershipOf(r.t.bodies[b]) == l {
        assert b == c;
      } else if (id, b) in next.pairs && (id, b) !in s.pairs {
        assert (id, b).1 in next.t.bodies;
      }
    }
    forall k | k in [l] + rest ensures Named(r.t.bodies, k) {
      if k == l { assert c in r.t.bodies && LeadershipOf(r.t.bodies[c]) == l; }
    }
  }

  lemma {:induction false} NameLeadsNamed(s: PullState, id: Uuid, leads: seq<Leadership>)
    requires Valid(s.t) && CacheRight(s) && NoDup(s.pairs) && NoDup(leads) && Unnamed(s, id, leads)
    ensures LeadsNamed(s, NameLeads(s, id, leads), id, leads)
    decreases |leads|
  {
    if leads != [] {
      var next, l, rest := NameLead(s, id, leads[0]), leads[0], leads[1..];
      assert leads == [l] + rest;
      NameLeadNamed(s, id, l);
      hide MembersUnique, BodiesUnique, MembershipsRefer;
      assert Unnamed(next, id, rest) by {
        forall p | p in next.pairs && p.0 == id
          ensures p.1 in next.t.bodies && LeadershipOf(next.t.bodies[p.1]) !in rest
        {
          assert p == (id, p.1);
          if p in s.pairs { assert LeadershipOf(s.t.bodies[p.1]) !in leads; }
        }
      }
      NameLeadsNamed(next, id, rest);
      LeadsNamedThen(s, next, NameLeads(next, id, rest), id, l, rest);
    }
  }

  /** Storing one more record keeps every earlier record's pairs exact. */
  lemma PairsStored(stored: seq<Member>, s: PullState, r: PullState, m: Member, id: Uuid)
    requires BodiesUnique(r.t.bodies) && id !in s.present
    requires PairsWell(s) && PairsExact(stored, s)
    requires LeadsNamed(s, r, id, m.leads) && r.present == s.present + [id]
    ensures PairsWell(r) && PairsExact(stored + [m], r)
  {
    forall k | 0 <= k < |stored| ensures PairsName(r.t.bodies, r.pairs, stored[k], s.present[k]) {
      var other := s.present[k];
      assert other in s.present && PairsName(s.t.bodies, s.pairs, stored[k], other);
      forall l | l in stored[k].leads ensures Named(r.t.bodies, l) {
        var c :| c in s.t.bodies && LeadershipOf(s.t.bodies[c]) == l;
        assert c in r.t.bodies && LeadershipOf(r.t.bodies[c]) == l;
      }
      forall b | b in r.t.bodies
        ensures (other, b) in r.pairs <==> LeadershipOf(r.t.bodies[b]) in stored[k].leads
      {
        assert (other, b) in r.pairs <==> (other, b) in s.pairs by {
          assert (other, b).0 != id;
        }
      }
    }
    assert PairsName(r.t.bodies, r.pairs, m, id);
  }

  lemma UpsertedOneNamed(s: PullState, m: Member)
    requires Valid(s.t) && PairsWell(s) && NoDup(m.leads)
    ensures var r := UpsertedOne(s, m);
            r.Stored? && r.id !in s.present ==> LeadsNamed(s, r.s, r.id, m.leads)
  {
    hide Valid, NameLeads, Clashes, NoDup;
    if !Clashes(s.t.members, m) {
      var (t, id) := UpsertMember(s.t, m);
      if id !in s.present {
        UnnamedYet(s, t, id, m.leads);
        NameLeadsNamed(s.(t := t), id, m.leads);
      }
    }
  }

  lemma UnnamedYet(s: PullState, t: Tables, id: Uuid, leads: seq<Leadership>)
    requires PairsWell(s) && id !in s.present && t.bodies == s.t.bodies
    ensures Unnamed(s.(t := t), id, leads) && CacheRight(s.(t := t))
  {
  }

  lemma MergeBodies(t: Tables, m: Member, roster: set<int>)
    requires Valid(t) && m.stId in roster
    ensures MergedDuplicates(t, m, roster).t.bodies == t.bodies
  {
  }

  lemma StoredMemberNamed(s: PullState, m: Member, roster: set<int>, merging: bool)
    requires Valid(s.t) && PairsWell(s) && m.stId in roster && NoDup(m.leads)
    ensures var r := StoredMember(s, m, roster, merging);
            r.Stored? && r.id !in s.present ==> LeadsNamed(s, r.s, r.id, m.leads)
  {
    hide UpsertedOne, MergedDuplicates, LeadsNamed;
    UpsertedOneNamed(s, m);
    if UpsertedOne(s, m).Clashed? && merging {
      MergeBodies(s.t, m, roster);
      var merged := WithMerge(s, MergedDuplicates(s.t, m, roster));
      UpsertedOneNamed(merged, m);
      var r := UpsertedOne(merged, m);
      assert r.Stored? && LeadsNamed(merged, r.s, r.id, m.leads) ==> LeadsNamed(s, r.s, r.id, m.leads) by {
        LeadsNamedFrom(merged, s, m.leads);
      }
    }
  }

  lemma LeadsNamedFrom(s: PullState, s': PullState, leads: seq<Leadership>)
    requires s.t.bodies == s'.t.bodies && s.pairs == s'.pairs
    ensures forall r, id: Uuid :: LeadsNamed(s, r, id, leads) ==> LeadsNamed(s', r, id, leads)
  {
  }

  // ------------------------------------------------------------ the whole loop

  ghost predicate LoopInv(done: seq<Member>, s: PullState) {
    && Valid(s.t) && Tracked(done, s)
    && PairsWell(s) && PairsExact(StoredMembers(done, s.skipped), s)
  }

  lemma LoopInvNext(done: seq<Member>, s: PullState, m: Member, roster: set<int>, merging: bool)
    requires LoopInv(done, s) && m.stId in roster && NoDup(m.leads)
    requires forall d :: d in done ==> d.stId in roster && d.stId != m.stId
    ensures LoopInv(done + [m], PulledMember(s, m, roster, merging))
  {
    hide Valid, StoredMember, StoredMembers, PairsWell, PairsExact, LeadsNamed;
    var out, r := StoredMember(s, m, roster, merging), PulledMember(s, m, roster, merging);
    TrackedNext(done, s, m, roster, merging);
    StoredMembersNext(done, m, r.skipped);
    StoredRows(s, m, roster, merging);
    if out.Stored? {
      assert m.stId !in s.skipped by { assert forall st :: st in s.skipped ==> exists d :: d in done && d.stId == st; }
      NotYetPresent(r.present, s.present, out.id);
      StoredMemberNamed(s, m, roster, merging);
      assert BodiesUnique(r.t.bodies) by { ValidBodies(r.t); }
      LeadsNamedStill(s, out.s, r, out.id, m.leads);
      PairsStored(StoredMembers(done, s.skipped), s, r, m, out.id);
    } else {
      StoredMembersSkip(done, s.skipped, m.stId);
      assert r == s.(skipped := s.skipped + [m.stId]) && m.stId in r.skipped;
      assert StoredMembers(done + [m], r.skipped) == StoredMembers(done, s.skipped);
      PairsStill(StoredMembers(done, s.skipped), s, m.stId);
    }
  }

  lemma NotYetPresent(r: seq<Uuid>, present: seq<Uuid>, id: Uuid)
    requires NoDup(r) && r == present + [id]
    ensures id !in present
  {
    assert r[|present|] == id && forall k :: 0 <= k < |present| ==> r[k] == present[k];
  }

  lemma ValidBodies(t: Tables)
    requires Valid(t)
    ensures BodiesUnique(t.bodies)
  {
  }

  lemma LeadsNamedStill(s: PullState, a: PullState, r: PullState, id: Uuid, leads: seq<Leadership>)
    requires LeadsNamed(s, a, id, leads) && r == a.(present := r.present)
    ensures LeadsNamed(s, r, id, leads)
  {
  }

  lemma PairsStill(stored: seq<Member>, s: PullState, st: int)
    requires PairsWell(s) && PairsExact(stored, s)
    ensures var r := s.(skipped := s.skipped + [st]); PairsWell(r) && PairsExact(stored, r)
  {
  }

  lemma {:induction false} PulledAllInv(done: seq<Member>, s: PullState, rest: seq<Member>, roster: set<int>,
      merging: bool)
    requires LoopInv(done, s) && WellFormed(done + rest)
    requires forall m :: m in done + rest ==> m.stId in roster
    ensures forall m :: m in rest ==> m.stId in roster
    ensures LoopInv(done + rest, PulledAll(s, rest, roster, merging))
    decreases |rest|
  {
    hide LoopInv, Valid;
    assert Valid(s.t) by { LoopInvValid(done, s); }
    assert forall m :: m in rest ==> m in done + rest;
    if rest == [] {
      assert done + rest == done;
    } else {
      var m := rest[0];
      assert done + rest == (done + [m]) + rest[1..];
      assert m == (done + rest)[|done|];
      forall d | d in done ensures d.stId in roster && d.stId != m.stId {
        var i :| 0 <= i < |done| && done[i] == d;
        assert d == (done + rest)[i] && d in done + rest;
      }
      LoopInvNext(done, s, m, roster, merging);
      PulledAllInv(done + [m], PulledMember(s, m, roster, merging), rest[1..], roster, merging);
    }
  }

  lemma LoopInvValid(done: seq<Member>, s: PullState)
    requires LoopInv(done, s)
    ensures Valid(s.t)
  {
  }

  lemma LoopTracks(t0: Tables, members: seq<Member>, dryRun: bool)
    requires Valid(t0) && WellFormed(members)
    ensures LoopInv(members, Looped(t0, members, dryRun))
  {
    assert LoopInv([], Start(t0));
    assert [] + members == members;
    var roster := RosterIds(members);
    PulledAllInv([], Start(t0), members, roster, !(dryRun || FuseTripped(t0, roster)));
  }
}
