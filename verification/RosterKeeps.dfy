/** What every step of a pull keeps, against the tables the pull began with:
    which rows may go, where a folded row's bans, adds and attributions end up,
    and which rows may change. */
module RosterKeeps {
  import opened Basics
  import opened Database
  import opened RosterPull

  /** The row an id stands for after folding. Heirs are keyed to the roster, so
      they are never folded in turn and one step is enough. */
  function HeirOf(heirs: map<Uuid, Uuid>, id: Uuid): Uuid {
    if id in heirs then heirs[id] else id
  }

  function AdderAfter(heirs: map<Uuid, Uuid>, addedBy: Option<Uuid>): Option<Uuid> {
    match addedBy
    case None => None
    case Some(i) => Some(HeirOf(heirs, i))
  }

  /** A membership row with its attribution moved to the adder's heir. */
  function Attributed(heirs: map<Uuid, Uuid>, row: BodyMembership): BodyMembership {
    row.(addedBy := AdderAfter(heirs, row.addedBy))
  }

  /** Only rows the roster does not name are folded, into rows it does; rows keyed
      to the roster keep their id and st_id, and the others are untouched. */
  ghost predicate KeepsMembers(t0: Tables, members: map<Uuid, MemberRow>, heirs: map<Uuid, Uuid>, roster: set<int>) {
    && (forall d :: d in heirs ==>
          && d in t0.members && t0.members[d].stId !in roster && d !in members
          && heirs[d] in members && members[heirs[d]].stId in roster)
    && (forall i :: i in t0.members && i !in heirs ==> i in members)
    && (forall i :: i in t0.members && t0.members[i].stId in roster ==>
          i in members && members[i].stId == t0.members[i].stId)
    && (forall i :: i in members && members[i].stId !in roster ==>
          i in t0.members && members[i] == t0.members[i])
    && (forall i :: i in members && i !in t0.members ==> i >= t0.nextId)
  }

  ghost predicate KeepsBodies(bodies0: map<Uuid, BodyRow>, bodies: map<Uuid, BodyRow>) {
    forall b :: b in bodies0 ==> b in bodies && bodies[b] == bodies0[b]
  }

  /** A ban that one on `i` may have become. */
  ghost predicate BanFrom(bans0: map<Uuid, Ban>, heirs: map<Uuid, Uuid>, i: Uuid, j: Uuid, ban: Ban) {
    i in bans0 && HeirOf(heirs, i) == j && ban == bans0[i]
  }

  /** The banned rows are exactly the heirs of the rows banned before. */
  ghost predicate KeepsBans(bans0: map<Uuid, Ban>, bans: map<Uuid, Ban>, heirs: map<Uuid, Uuid>) {
    && (forall i :: i in bans0 ==> HeirOf(heirs, i) in bans)
    && (forall i :: i in bans0 && i !in heirs ==> bans[i] == bans0[i])
    && (forall j :: j in bans ==> exists i :: BanFrom(bans0, heirs, i, j, bans[j]))
  }

  type Memberships = map<(Uuid, Uuid), BodyMembership>

  /** A folded member row that its heir's row may have come from. */
  ghost predicate CarriedFrom(ms0: Memberships, heirs: map<Uuid, Uuid>, d: Uuid, k: (Uuid, Uuid), row: BodyMembership) {
    && d in heirs && heirs[d] == k.0
    && (d, k.1) in ms0 && ms0[(d, k.1)].role.AsMember?
    && row == Attributed(heirs, ms0[(d, k.1)])
  }

  /** Unfolded rows stay, re-attributed; folded member rows are held by the heir;
      and there is no other row. */
  ghost predicate KeepsMemberships(ms0: Memberships, ms: Memberships, heirs: map<Uuid, Uuid>) {
    && (forall k :: k in ms0 && k.0 !in heirs ==> k in ms && ms[k] == Attributed(heirs, ms0[k]))
    && (forall k :: k in ms0 && k.0 in heirs && ms0[k].role.AsMember? ==> (heirs[k.0], k.1) in ms)
    && (forall k :: k in ms && k !in ms0 ==> exists d :: CarriedFrom(ms0, heirs, d, k, ms[k]))
  }

  ghost predicate Keeps(t0: Tables, t: Tables, heirs: map<Uuid, Uuid>, roster: set<int>) {
    && Valid(t) && t0.nextId <= t.nextId && (forall i :: i in t0.members ==> i < t0.nextId)
    && KeepsMembers(t0, t.members, heirs, roster) && KeepsBodies(t0.bodies, t.bodies)
    && KeepsBans(t0.bans, t.bans, heirs) && KeepsMemberships(t0.memberships, t.memberships, heirs)
  }

  lemma KeepsStart(t0: Tables, roster: set<int>)
    requires Valid(t0)
    ensures Keeps(t0, t0, map[], roster)
  {
    assert forall row: BodyMembership :: Attributed(map[], row) == row;
    assert forall j :: j in t0.bans ==> BanFrom(t0.bans, map[], j, j, t0.bans[j]);
  }

  // ------------------------------------------------------------------ a fold

  ghost predicate FoldedBans(bans: map<Uuid, Ban>, r: map<Uuid, Ban>, from: Uuid, into: Uuid) {
    && from !in r
    && (forall i :: i in bans && i != from ==> i in r && r[i] == bans[i])
    && (from in bans ==> into in r)
    && (forall i :: i in r && i !in bans ==> i == into && from in bans && r[i] == bans[from])
  }

  lemma FoldsBans(t: Tables, from: Uuid, into: Uuid)
    requires from != into
    ensures FoldedBans(t.bans, Fold(t, from, into).bans, from, into)
  {
  }

  /** The carried member rows, before they are re-attributed. */
  lemma CarriedRows(t: Tables, from: Uuid, into: Uuid)
    ensures var c := CarryManualAdds(t, from, into).memberships;
            && (forall k :: k in t.memberships ==> k in c && c[k] == t.memberships[k])
            && (forall b :: (from, b) in t.memberships && t.memberships[(from, b)].role.AsMember? ==> (into, b) in c)
            && (forall k :: k in c && k !in t.memberships ==>
                  && k.0 == into && (from, k.1) in t.memberships
                  && t.memberships[(from, k.1)].role.AsMember? && c[k] == t.memberships[(from, k.1)])
  {
    var c := CarryManualAdds(t, from, into).memberships;
    forall b | (from, b) in t.memberships && t.memberships[(from, b)].role.AsMember?
      ensures (into, b) in c
    {
      var k := (from, b);
      assert k in t.memberships && k.0 == from && t.memberships[k].role.AsMember? && (into, k.1) == (into, b);
    }
    forall k | k in c && k !in t.memberships
      ensures k.0 == into && (from, k.1) in t.memberships && t.memberships[(from, k.1)].role.AsMember?
    {
      var j :| j in t.memberships && j.0 == from && t.memberships[j].role.AsMember? && (into, j.1) == k;
      assert j == (from, k.1);
    }
  }

  ghost predicate FoldedRows(ms: Memberships, r: Memberships, from: Uuid, into: Uuid) {
    && (forall k :: k in ms && k.0 != from ==>
          k in r && r[k] == ms[k].(addedBy := Renamed(ms[k].addedBy, from, into)))
    && (forall k :: k in ms && k.0 == from && ms[k].role.AsMember? ==> (into, k.1) in r)
    && (forall k :: k in r && k !in ms ==>
          && k.0 == into && (from, k.1) in ms && ms[(from, k.1)].role.AsMember?
          && r[k] == ms[(from, k.1)].(addedBy := Renamed(ms[(from, k.1)].addedBy, from, into)))
    && (forall k :: k in r ==> k.0 != from)
  }

  lemma FoldsRows(t: Tables, from: Uuid, into: Uuid)
    requires from != into
    ensures FoldedRows(t.memberships, Fold(t, from, into).memberships, from, into)
  {
    var c, r := CarryManualAdds(t, from, into).memberships, Fold(t, from, into).memberships;
    CarriedRows(t, from, into);
    assert forall k :: k in r <==> k in c && k.0 != from;
    assert forall k :: k in r ==> r[k] == c[k].(addedBy := Renamed(c[k].addedBy, from, into));
    forall k | k in t.memberships && k.0 == from && t.memberships[k].role.AsMember?
      ensures (into, k.1) in r
    {
      assert k == (from, k.1);
    }
  }

  lemma RenamedIsAdderAfter(heirs: map<Uuid, Uuid>, d: Uuid, h: Uuid, a: Option<Uuid>)
    requires d !in heirs && forall e :: e in heirs ==> heirs[e] != d
    ensures Renamed(AdderAfter(heirs, a), d, h) == AdderAfter(heirs[d := h], a)
  {
  }

  lemma FoldKeepsMemberships(ms0: Memberships, ms: Memberships, r: Memberships, heirs: map<Uuid, Uuid>, d: Uuid,
      h: Uuid)
    requires KeepsMemberships(ms0, ms, heirs) && FoldedRows(ms, r, d, h)
    requires d != h && d !in heirs && (forall e :: e in heirs ==> heirs[e] != d)
    ensures KeepsMemberships(ms0, r, heirs[d := h])
  {
    var heirs' := heirs[d := h];
    forall k | k in ms0 && k.0 !in heirs' ensures k in r && r[k] == Attributed(heirs', ms0[k]) {
      assert ms[k] == Attributed(heirs, ms0[k]);
      RenamedIsAdderAfter(heirs, d, h, ms0[k].addedBy);
    }
    forall k | k in ms0 && k.0 in heirs' && ms0[k].role.AsMember? ensures (heirs'[k.0], k.1) in r {
      if k.0 != d {
        var j := (heirs[k.0], k.1);
        assert j in ms && j.0 != d;
      }
    }
    forall k | k in r && k !in ms0 ensures exists e :: CarriedFrom(ms0, heirs', e, k, r[k]) {
      if k in ms {
        var e :| CarriedFrom(ms0, heirs, e, k, ms[k]);
        RenamedIsAdderAfter(heirs, d, h, ms0[(e, k.1)].addedBy);
        assert CarriedFrom(ms0, heirs', e, k, r[k]);
      } else {
        var j := (d, k.1);
        assert j in ms0;
        assert ms[j] == Attributed(heirs, ms0[j]);
        RenamedIsAdderAfter(heirs, d, h, ms0[j].addedBy);
        assert CarriedFrom(ms0, heirs', d, k, r[k]);
      }
    }
  }

  lemma FoldKeepsBans(bans0: map<Uuid, Ban>, bans: map<Uuid, Ban>, r: map<Uuid, Ban>, heirs: map<Uuid, Uuid>,
      d: Uuid, h: Uuid)
    requires KeepsBans(bans0, bans, heirs) && FoldedBans(bans, r, d, h)
    requires d != h && d !in heirs && (forall e :: e in heirs ==> heirs[e] != d)
    ensures KeepsBans(bans0, r, heirs[d := h])
  {
    var heirs' := heirs[d := h];
    forall j | j in r ensures exists i :: BanFrom(bans0, heirs', i, j, r[j]) {
      var source := if j in bans then j else d;
      var i :| BanFrom(bans0, heirs, i, source, bans[source]);
      assert BanFrom(bans0, heirs', i, j, r[j]);
    }
  }

  /** One fold: `d` is an unrostered row, `h` a rostered one. */
  ghost predicate FoldsInto(members: map<Uuid, MemberRow>, d: Uuid, h: Uuid, roster: set<int>) {
    d in members && members[d].stId !in roster && h in members && members[h].stId in roster
  }

  lemma FoldKeepsMembers(t0: Tables, members: map<Uuid, MemberRow>, heirs: map<Uuid, Uuid>, roster: set<int>,
      d: Uuid, h: Uuid)
    requires KeepsMembers(t0, members, heirs, roster) && FoldsInto(members, d, h, roster)
    ensures KeepsMembers(t0, members - {d}, heirs[d := h], roster)
    ensures d != h && d !in heirs && (forall e :: e in heirs ==> heirs[e] != d)
  {
  }

  lemma FoldKeeps(t0: Tables, t: Tables, heirs: map<Uuid, Uuid>, roster: set<int>, d: Uuid, h: Uuid)
    requires Keeps(t0, t, heirs, roster) && FoldsInto(t.members, d, h, roster)
    ensures Keeps(t0, Fold(t, d, h), heirs[d := h], roster)
  {
    FoldKeepsMembers(t0, t.members, heirs, roster, d, h);
    FoldValid(t, d, h);
    FoldsBans(t, d, h);
    FoldsRows(t, d, h);
    FoldKeepsBans(t0.bans, t.bans, Fold(t, d, h).bans, heirs, d, h);
    FoldKeepsMemberships(t0.memberships, t.memberships, Fold(t, d, h).memberships, heirs, d, h);
  }

  lemma HeirsOfNext(heirs: map<Uuid, Uuid>, froms: seq<Uuid>, into: Uuid)
    requires froms != []
    ensures heirs[froms[0] := into] + HeirsOf(froms[1..], into) == heirs + HeirsOf(froms, into)
  {
    assert froms == [froms[0]] + froms[1..];
    assert forall f :: f in froms <==> f == froms[0] || f in froms[1..];
  }

  lemma {:induction false} FoldAllKeeps(t0: Tables, t: Tables, heirs: map<Uuid, Uuid>, roster: set<int>,
      froms: seq<Uuid>, into: Uuid)
    requires Keeps(t0, t, heirs, roster) && Foldable(t, froms, into)
    requires forall d :: d in froms ==> FoldsInto(t.members, d, into, roster)
    ensures Keeps(t0, FoldAll(t, froms, into), heirs + HeirsOf(froms, into), roster)
    decreases |froms|
  {
    hide Keeps;
    if froms == [] {
      assert heirs + HeirsOf(froms, into) == heirs;
    } else {
      var d := froms[0];
      assert d in froms;
      FoldKeeps(t0, t, heirs, roster, d, into);
      FoldableNext(t, froms, into);
      FoldValid(t, d, into);
      FoldAllKeeps(t0, Fold(t, d, into), heirs[d := into], roster, froms[1..], into);
      HeirsOfNext(heirs, froms, into);
    }
  }

  // ----------------------------------------------------------- the other steps

  lemma RekeyKeeps(t0: Tables, t: Tables, heirs: map<Uuid, Uuid>, roster: set<int>, id: Uuid, stId: int)
    requires Keeps(t0, t, heirs, roster)
    requires id in t.members && t.members[id].stId !in roster && stId in roster
    requires forall i :: i in t.members ==> t.members[i].stId != stId
    ensures Keeps(t0, Rekey(t, id, stId), heirs, roster)
  {
    assert KeepsMembers(t0, Rekey(t, id, stId).members, heirs, roster);
  }

  lemma UpsertKeeps(t0: Tables, t: Tables, heirs: map<Uuid, Uuid>, roster: set<int>, m: Member)
    requires Keeps(t0, t, heirs, roster) && m.stId in roster && !Clashes(t.members, m)
    ensures Keeps(t0, UpsertMember(t, m).0, heirs, roster)
  {
    assert KeepsMembers(t0, UpsertMember(t, m).0.members, heirs, roster);
  }

  lemma {:induction false} NameLeadsKeeps(t0: Tables, s: PullState, roster: set<int>, id: Uuid, leads: seq<Leadership>)
    requires Keeps(t0, s.t, s.heirs, roster)
    ensures var r := NameLeads(s, id, leads);
            && Keeps(t0, r.t, r.heirs, roster)
            && r.heirs == s.heirs && r.merges == s.merges && r.present == s.present && r.skipped == s.skipped
            && r.t.members == s.t.members && r.t.memberships == s.t.memberships
    decreases |leads|
  {
    if leads != [] {
      NameLeadsKeeps(t0, NameLead(s, id, leads[0]), roster, id, leads[1..]);
    }
  }

  lemma MergeKeeps(t0: Tables, s: PullState, roster: set<int>, m: Member)
    requires Valid(s.t) && Keeps(t0, s.t, s.heirs, roster) && m.stId in roster
    ensures var r := WithMerge(s, MergedDuplicates(s.t, m, roster));
            Keeps(t0, r.t, r.heirs, roster)
  {
    hide Keeps;
    var duplicates := DuplicatesInOrder(s.t.members, m, roster);
    if duplicates == [] {
      assert s.heirs + map[] == s.heirs;
    } else {
      var plan := PlanMerge(s.t, m, roster);
      if FindMember(s.t.members, m.stId).None? {
        assert duplicates[0] in duplicates;
        RekeyKeeps(t0, s.t, s.heirs, roster, duplicates[0], m.stId);
      }
      FoldAllKeeps(t0, plan.t, s.heirs, roster, plan.froms, plan.into);
    }
  }

  lemma UpsertedOneKeeps(t0: Tables, s: PullState, roster: set<int>, m: Member)
    requires Keeps(t0, s.t, s.heirs, roster) && m.stId in roster
    ensures var r := UpsertedOne(s, m);
            r.Stored? ==> Keeps(t0, r.s.t, r.s.heirs, roster) && r.s.heirs == s.heirs && r.s.merges == s.merges
  {
    if !Clashes(s.t.members, m) {
      var (t, id) := UpsertMember(s.t, m);
      UpsertKeeps(t0, s.t, s.heirs, roster, m);
      NameLeadsKeeps(t0, s.(t := t), roster, id, m.leads);
    }
  }

  lemma PulledMemberKeeps(t0: Tables, s: PullState, roster: set<int>, merging: bool, m: Member)
    requires Keeps(t0, s.t, s.heirs, roster) && m.stId in roster
    ensures var r := PulledMember(s, m, roster, merging); Keeps(t0, r.t, r.heirs, roster)
  {
    UpsertedOneKeeps(t0, s, roster, m);
    if UpsertedOne(s, m).Clashed? && merging {
      MergeKeeps(t0, s, roster, m);
      UpsertedOneKeeps(t0, WithMerge(s, MergedDuplicates(s.t, m, roster)), roster, m);
    }
  }

  lemma {:induction false} PulledAllKeeps(t0: Tables, s: PullState, roster: set<int>, merging: bool,
      members: seq<Member>)
    requires Keeps(t0, s.t, s.heirs, roster) && forall m :: m in members ==> m.stId in roster
    ensures var r := PulledAll(s, members, roster, merging); Keeps(t0, r.t, r.heirs, roster)
    decreases |members|
  {
    if members != [] {
      PulledMemberKeeps(t0, s, roster, merging, members[0]);
      PulledAllKeeps(t0, PulledMember(s, members[0], roster, merging), roster, merging, members[1..]);
    }
  }

  lemma LoopKeeps(t0: Tables, members: seq<Member>, dryRun: bool)
    requires Valid(t0)
    ensures var s := Looped(t0, members, dryRun); Keeps(t0, s.t, s.heirs, RosterIds(members))
  {
    KeepsStart(t0, RosterIds(members));
    PulledAllKeeps(t0, Start(t0), RosterIds(members), !(dryRun || FuseTripped(t0, RosterIds(members))), members);
  }
}
