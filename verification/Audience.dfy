/** Who belongs in which group: the whole audience map a sweep starts from, and the
    one-group read it rechecks with. */
module Audience {
  import opened Basics
  import opened Database
  import opened GroupSync

  /** A member's id and two addresses, as every query here returns them. */
  datatype Person = Person(id: Uuid, email: Email, alternate: Option<Email>)

  /** A linked-group query row also names the group. */
  datatype LinkedRow = LinkedRow(group: Email, person: Person)

  // ------------------------------------------------------------------ queries

  predicate Eligible(t: Tables, i: Uuid) {
    i in t.members && t.members[i].standing.GoodStanding? && i !in t.bans
  }

  function PersonOf(t: Tables, i: Uuid): Person
    requires i in t.members
  {
    Person(i, t.members[i].email, t.members[i].alternateEmail)
  }

  function GroupOf(body: BodyRow, role: Role): Option<Email> {
    if role.AsLeader? then body.leaderGroup else body.memberGroup
  }

  /** The leader-rows query or the member-rows query, by `role`. */
  function LinkedRows(t: Tables, role: Role): set<LinkedRow> {
    set k | k in t.memberships && t.memberships[k].role == role && Eligible(t, k.0)
            && k.1 in t.bodies && GroupOf(t.bodies[k.1], role).Some?
      :: LinkedRow(GroupOf(t.bodies[k.1], role).value, PersonOf(t, k.0))
  }

  function GoodStandingRows(t: Tables): set<Person> {
    set i | i in t.members && Eligible(t, i) :: PersonOf(t, i)
  }

  function OneGroupRows(t: Tables, group: Email): set<Person> {
    set k | k in t.memberships && Eligible(t, k.0) && k.1 in t.bodies
            && GroupOf(t.bodies[k.1], t.memberships[k].role) == Some(group)
      :: PersonOf(t, k.0)
  }

  /** The pairs of linked addresses. */
  function LinkedPairs(t: Tables): set<(Email, Email)> {
    set b | b in t.bodies && t.bodies[b].leaderGroup.Some? && t.bodies[b].memberGroup.Some?
      :: (t.bodies[b].leaderGroup.value, t.bodies[b].memberGroup.value)
  }

  // ------------------------------------------------------------- filling maps

  function TargetOf(p: Person, statuses: EmailStatuses): Email {
    SyncTarget(p.email, p.alternate, statuses)
  }

  function Default(audiences: Audiences, group: Email): Audiences {
    if group in audiences then audiences else audiences[group := map[]]
  }

  /** One row's address into one group's dict, unless it is unusable. */
  function AdmitTo(desired: map<string, Uuid>, p: Person, statuses: EmailStatuses): map<string, Uuid> {
    var address := TargetOf(p, statuses);
    if IsExample(address) then desired else desired[Norm(address) := p.id]
  }

  function Admit(audiences: Audiences, group: Email, p: Person, statuses: EmailStatuses): Audiences {
    if IsExample(TargetOf(p, statuses)) then audiences
    else Default(audiences, group)[group := AdmitTo(Default(audiences, group)[group], p, statuses)]
  }

  function AdmitLinked(audiences: Audiences, rows: seq<LinkedRow>, statuses: EmailStatuses): Audiences {
    if rows == [] then audiences
    else
      var last := rows[|rows| - 1];
      Admit(Default(AdmitLinked(audiences, rows[..|rows| - 1], statuses), last.group), last.group, last.person,
          statuses)
  }

  function AdmitMain(audiences: Audiences, main: Email, people: seq<Person>, statuses: EmailStatuses): Audiences {
    if people == [] then audiences
    else Admit(AdmitMain(audiences, main, people[..|people| - 1], statuses), main, people[|people| - 1], statuses)
  }

  function IncludeEmpty(audiences: Audiences, pairs: seq<(Email, Email)>): Audiences {
    if pairs == [] then audiences
    else
      var last := pairs[|pairs| - 1];
      Default(Default(IncludeEmpty(audiences, pairs[..|pairs| - 1]), last.0), last.1)
  }

  function AdmitAll(desired: map<string, Uuid>, people: seq<Person>, statuses: EmailStatuses): map<string, Uuid> {
    if people == [] then desired
    else AdmitTo(AdmitAll(desired, people[..|people| - 1], statuses), people[|people| - 1], statuses)
  }

  /** The four fetches behind one audience map, each in whatever order it came. */
  datatype Fetched = Fetched(leaders: seq<LinkedRow>, members: seq<LinkedRow>, everyone: seq<Person>,
      pairs: seq<(Email, Email)>)

  ghost predicate FetchedFrom(f: Fetched, t: Tables) {
    && ToSet(f.leaders) == LinkedRows(t, AsLeader) && ToSet(f.members) == LinkedRows(t, AsMember)
    && ToSet(f.everyone) == GoodStandingRows(t) && ToSet(f.pairs) == LinkedPairs(t)
  }

  function AudiencesOf(f: Fetched, main: Email, statuses: EmailStatuses): Audiences {
    var linked := AdmitLinked(AdmitLinked(map[main := map[]], f.leaders, statuses), f.members, statuses);
    IncludeEmpty(AdmitMain(linked, main, f.everyone, statuses), f.pairs)
  }

  function DesiredOf(people: seq<Person>, statuses: EmailStatuses): map<string, Uuid> {
    AdmitAll(map[], people, statuses)
  }

  /** The rows `desired_for_group` reads. */
  function RowsFor(t: Tables, main: Email, group: Email): set<Person> {
    if group == main then GoodStandingRows(t) else OneGroupRows(t, group)
  }

  // ------------------------------------------------------------------ in place

  /** The shared dict, filled row by row. */
  class Builder {
    var audiences: Audiences

    constructor (main: Email)
      ensures audiences == map[main := map[]]
    {
      audiences := map[main := map[]];
    }

    /** `_admit`. */
    method AdmitRow(group: Email, p: Person, statuses: EmailStatuses)
      modifies this
      ensures audiences == Admit(old(audiences), group, p, statuses)
    {
      var address := SyncTarget(p.email, p.alternate, statuses);
      if IsExample(address) {
        return;
      }
      if group !in audiences {
        audiences := audiences[group := map[]];
      }
      var desired: map<string, Uuid> := audiences[group];
      desired := desired[Norm(address) := p.id];
      audiences := audiences[group := desired];
    }

    method AdmitLinkedRows(rows: seq<LinkedRow>, statuses: EmailStatuses)
      modifies this
      ensures audiences == AdmitLinked(old(audiences), rows, statuses)
    {
      for k := 0 to |rows|
        invariant audiences == AdmitLinked(old(audiences), rows[..k], statuses)
      {
        assert rows[..k + 1][..k] == rows[..k];
        if rows[k].group !in audiences {
          audiences := audiences[rows[k].group := map[]];
        }
        AdmitRow(rows[k].group, rows[k].person, statuses);
      }
      assert rows[..|rows|] == rows;
    }

    method AdmitMainRows(main: Email, people: seq<Person>, statuses: EmailStatuses)
      modifies this
      ensures audiences == AdmitMain(old(audiences), main, people, statuses)
    {
      for k := 0 to |people|
        invariant audiences == AdmitMain(old(audiences), main, people[..k], statuses)
      {
        hide Admit;
        assert people[..k + 1][..k] == people[..k];
        AdmitRow(main, people[k], statuses);
      }
      assert people[..|people|] == people;
    }

    /** `_include_empty_linked_groups`. */
    method IncludeEmptyGroups(pairs: seq<(Email, Email)>)
      modifies this
      ensures audiences == IncludeEmpty(old(audiences), pairs)
    {
      for k := 0 to |pairs|
        invariant audiences == IncludeEmpty(old(audiences), pairs[..k])
      {
        assert pairs[..k + 1][..k] == pairs[..k];
        if pairs[k].0 !in audiences {
          audiences := audiences[pairs[k].0 := map[]];
        }
        if pairs[k].1 !in audiences {
          audiences := audiences[pairs[k].1 := map[]];
        }
      }
      assert pairs[..|pairs|] == pairs;
    }

    /** `_audiences_in`. */
    method Build(f: Fetched, main: Email, statuses: EmailStatuses)
      requires audiences == map[main := map[]]
      modifies this
      ensures audiences == AudiencesOf(f, main, statuses)
    {
      AdmitLinkedRows(f.leaders, statuses);
      AdmitLinkedRows(f.members, statuses);
      AdmitMainRows(main, f.everyone, statuses);
      IncludeEmptyGroups(f.pairs);
    }
  }

  /** `desired_for_group`, over the rows its one query returned. */
  method DesiredForGroup(people: seq<Person>, statuses: EmailStatuses) returns (desired: map<string, Uuid>)
    ensures desired == DesiredOf(people, statuses)
  {
    desired := map[];
    for k := 0 to |people|
      invariant desired == AdmitAll(map[], people[..k], statuses)
    {
      assert people[..k + 1][..k] == people[..k];
      var address := SyncTarget(people[k].email, people[k].alternate, statuses);
      if !IsExample(address) {
        desired := desired[Norm(address) := people[k].id];
      }
    }
    assert people[..|people|] == people;
  }

  // ----------------------------------------------------- what the maps contain

  /** Member `i` leads body `b`, and this is its leaders' address; or is a member of it,
      and this is its members' address. */
  ghost predicate Places(t: Tables, group: Email, i: Uuid, b: Uuid) {
    && (i, b) in t.memberships && b in t.bodies
    && (|| (t.memberships[(i, b)].role == AsLeader && t.bodies[b].leaderGroup == Some(group))
        || (t.memberships[(i, b)].role == AsMember && t.bodies[b].memberGroup == Some(group)))
  }

  /** The members the records want in a group, told by the columns: in good standing, not
      banned, and any of them in the main group. */
  ghost predicate Wants(t: Tables, main: Email, group: Email, i: Uuid) {
    && i in t.members && t.members[i].standing == GoodStanding && i !in t.bans
    && (group == main || exists b :: Places(t, group, i, b))
  }

  /** Member `i` is mirrored as the key `a`. */
  ghost predicate MirroredAs(t: Tables, statuses: EmailStatuses, i: Uuid, a: string) {
    && i in t.members
    && var target := SyncTarget(t.members[i].email, t.members[i].alternateEmail, statuses);
       !EndsWith(Norm(target), "@example.com") && Norm(target) == a
  }

  /** A dict with a key for each usable address among `people`, naming one of them. */
  ghost predicate Fills(desired: map<string, Uuid>, before: map<string, Uuid>, people: set<Person>,
      statuses: EmailStatuses) {
    && (forall p :: p in people && !IsExample(TargetOf(p, statuses)) ==> Norm(TargetOf(p, statuses)) in desired)
    && (forall a :: a in before ==> a in desired)
    && (forall a :: a in desired ==>
          (a in before && desired[a] == before[a]) ||
          exists p :: p in people && !IsExample(TargetOf(p, statuses)) && Norm(TargetOf(p, statuses)) == a
              && p.id == desired[a])
  }

  lemma AdmitFills(desired: map<string, Uuid>, before: map<string, Uuid>, people: set<Person>, p: Person,
      statuses: EmailStatuses)
    requires Fills(desired, before, people, statuses)
    ensures Fills(AdmitTo(desired, p, statuses), before, people + {p}, statuses)
  {
    var r := AdmitTo(desired, p, statuses);
    forall a | a in r && !(a in before && r[a] == before[a])
      ensures exists q ::
          q in people + {p} && !IsExample(TargetOf(q, statuses)) && Norm(TargetOf(q, statuses)) == a && q.id == r[a]
    {
      if !IsExample(TargetOf(p, statuses)) && Norm(TargetOf(p, statuses)) == a {
        assert p in people + {p};
      } else {
        var q :| q in people && !IsExample(TargetOf(q, statuses)) && Norm(TargetOf(q, statuses)) == a
            && q.id == desired[a];
        assert q in people + {p};
      }
    }
  }

  lemma NothingFilled(before: map<string, Uuid>, statuses: EmailStatuses)
    ensures Fills(before, before, {}, statuses)
  {
  }

  lemma {:induction false} AdmitAllFills(before: map<string, Uuid>, people: seq<Person>, statuses: EmailStatuses)
    ensures Fills(AdmitAll(before, people, statuses), before, ToSet(people), statuses)
  {
    NothingFilled(before, statuses);
    hide Fills, AdmitTo;
    if people == [] {
      assert ToSet(people) == {};
    } else {
      var n := |people| - 1;
      AdmitAllFills(before, people[..n], statuses);
      AdmitFills(AdmitAll(before, people[..n], statuses), before, ToSet(people[..n]), people[n], statuses);
      assert people == people[..n] + [people[n]];
      assert ToSet(people) == ToSet(people[..n]) + {people[n]};
    }
  }

  function Get(audiences: Audiences, group: Email): map<string, Uuid> {
    if group in audiences then audiences[group] else map[]
  }

  function PeopleOf(rows: set<LinkedRow>, group: Email): set<Person> {
    set r | r in rows && r.group == group :: r.person
  }

  lemma AdmitGet(audiences: Audiences, last: LinkedRow, statuses: EmailStatuses, group: Email)
    ensures var r := Admit(Default(audiences, last.group), last.group, last.person, statuses);
            && Get(r, group) == (if group == last.group then AdmitTo(Get(audiences, group), last.person, statuses)
                 else Get(audiences, group))
            && (group in r <==> group in audiences || group == last.group)
  {
  }

  lemma PeopleMore(rows: set<LinkedRow>, last: LinkedRow, group: Email)
    ensures PeopleOf(rows + {last}, group) == if last.group == group then PeopleOf(rows, group) + {last.person}
        else PeopleOf(rows, group)
  {
  }

  lemma NobodyIn(group: Email)
    ensures PeopleOf({}, group) == {}
  {
  }

  lemma {:induction false} AdmitLinkedFills(audiences: Audiences, rows: seq<LinkedRow>, statuses: EmailStatuses,
      group: Email)
    ensures var r := AdmitLinked(audiences, rows, statuses);
            && Fills(Get(r, group), Get(audiences, group), PeopleOf(ToSet(rows), group), statuses)
            && (group in r <==> group in audiences || exists k :: k in rows && k.group == group)
  {
    hide Admit, Fills, AdmitTo, Default, IsExample, SyncTarget, PeopleOf;
    if rows == [] {
      NothingFilled(Get(audiences, group), statuses);
      NobodyIn(group);
      assert ToSet(rows) == {};
    } else {
      var n, last := |rows| - 1, rows[|rows| - 1];
      var before := AdmitLinked(audiences, rows[..n], statuses);
      AdmitLinkedFills(audiences, rows[..n], statuses, group);
      AdmitGet(before, last, statuses, group);
      assert rows == rows[..n] + [last];
      assert forall k :: k in rows <==> k in rows[..n] || k == last;
      assert ToSet(rows) == ToSet(rows[..n]) + {last};
      hide Get;
      PeopleMore(ToSet(rows[..n]), last, group);
      AdmitFills(Get(before, group), Get(audiences, group), PeopleOf(ToSet(rows[..n]), group), last.person, statuses);
    }
  }

  lemma {:induction false} AdmitMainFills(audiences: Audiences, main: Email, people: seq<Person>,
      statuses: EmailStatuses)
    requires main in audiences
    ensures var r := AdmitMain(audiences, main, people, statuses);
            && r.Keys == audiences.Keys && r[main] == AdmitAll(audiences[main], people, statuses)
            && forall g :: g in audiences && g != main ==> r[g] == audiences[g]
  {
    if people != [] {
      AdmitMainFills(audiences, main, people[..|people| - 1], statuses);
    }
  }

  lemma {:induction false} IncludeEmptyKeeps(audiences: Audiences, pairs: seq<(Email, Email)>, group: Email)
    ensures var r := IncludeEmpty(audiences, pairs);
            && Get(r, group) == Get(audiences, group)
            && (group in r <==> group in audiences || exists p :: p in pairs && (p.0 == group || p.1 == group))
  {
    if pairs != [] {
      var n := |pairs| - 1;
      IncludeEmptyKeeps(audiences, pairs[..n], group);
      assert pairs == pairs[..n] + [pairs[n]];
      assert pairs[n] in pairs;
    }
  }

  lemma FillsTwice(c: map<string, Uuid>, b: map<string, Uuid>, a: map<string, Uuid>, p: set<Person>, q: set<Person>,
      statuses: EmailStatuses)
    requires Fills(b, a, p, statuses) && Fills(c, b, q, statuses)
    ensures Fills(c, a, p + q, statuses)
  {
    forall k | k in c && !(k in a && c[k] == a[k])
      ensures exists x ::
          x in p + q && !IsExample(TargetOf(x, statuses)) && Norm(TargetOf(x, statuses)) == k && x.id == c[k]
    {
      if k in b && c[k] == b[k] {
        var x :| x in p && !IsExample(TargetOf(x, statuses)) && Norm(TargetOf(x, statuses)) == k && x.id == b[k];
        assert x in p + q;
      } else {
        var x :| x in q && !IsExample(TargetOf(x, statuses)) && Norm(TargetOf(x, statuses)) == k && x.id == c[k];
        assert x in p + q;
      }
    }
  }

  /** The people the two linked queries and the main query bring to a group. */
  function PeopleFor(t: Tables, main: Email, group: Email): set<Person> {
    PeopleOf(LinkedRows(t, AsLeader), group) + PeopleOf(LinkedRows(t, AsMember), group)
      + (if group == main then GoodStandingRows(t) else {})
  }

  lemma AudiencesFill(t: Tables, f: Fetched, main: Email, statuses: EmailStatuses, group: Email)
    requires FetchedFrom(f, t)
    ensures Fills(Get(AudiencesOf(f, main, statuses), group), map[], PeopleFor(t, main, group), statuses)
  {
    var a0: Audiences := map[main := map[]];
    var a1 := AdmitLinked(a0, f.leaders, statuses);
    var a2 := AdmitLinked(a1, f.members, statuses);
    var a3 := AdmitMain(a2, main, f.everyone, statuses);
    AdmitLinkedFills(a0, f.leaders, statuses, group);
    AdmitLinkedFills(a1, f.members, statuses, group);
    AdmitLinkedFills(a0, f.leaders, statuses, main);
    AdmitLinkedFills(a1, f.members, statuses, main);
    AdmitMainFills(a2, main, f.everyone, statuses);
    AdmitAllFills(a2[main], f.everyone, statuses);
    IncludeEmptyKeeps(a3, f.pairs, group);
    hide Fills, AdmitLinked, AdmitMain, IncludeEmpty, LinkedRows;
    FillsTwice(Get(a2, group), Get(a1, group), map[], PeopleOf(ToSet(f.leaders), group),
        PeopleOf(ToSet(f.members), group), statuses);
    if group == main {
      FillsTwice(a3[main], a2[main], map[], PeopleOf(ToSet(f.leaders), group) + PeopleOf(ToSet(f.members), group),
          ToSet(f.everyone), statuses);
    } else {
      assert PeopleFor(t, main, group) == PeopleOf(ToSet(f.leaders), group) + PeopleOf(ToSet(f.members), group);
    }
  }

  /** Both reads bring in exactly the people the records want. */
  lemma PeopleAreWanted(t: Tables, main: Email, group: Email)
    ensures forall i :: i in t.members ==> (PersonOf(t, i) in PeopleFor(t, main, group) <==> Wants(t, main, group, i))
    ensures forall i :: i in t.members ==> (PersonOf(t, i) in RowsFor(t, main, group) <==> Wants(t, main, group, i))
    ensures forall p ::
        p in PeopleFor(t, main, group) || p in RowsFor(t, main, group) ==>
        p.id in t.members && p == PersonOf(t, p.id)
  {
    forall i | i in t.members && Wants(t, main, group, i)
      ensures PersonOf(t, i) in PeopleFor(t, main, group) && PersonOf(t, i) in RowsFor(t, main, group)
    {
      if group == main {
        assert PersonOf(t, i) in GoodStandingRows(t);
      } else {
        var b :| Places(t, group, i, b);
        var k := (i, b);
        assert k in t.memberships && k.0 == i && k.1 == b;
        assert LinkedRow(group, PersonOf(t, i)) in LinkedRows(t, t.memberships[k].role);
        assert PersonOf(t, i) in OneGroupRows(t, group);
      }
    }
    forall p | p in PeopleOf(LinkedRows(t, AsLeader), group) + PeopleOf(LinkedRows(t, AsMember), group)
      ensures p.id in t.members && p == PersonOf(t, p.id) && Wants(t, main, group, p.id)
    {
      var role := if p in PeopleOf(LinkedRows(t, AsLeader), group) then AsLeader else AsMember;
      assert LinkedRow(group, p) in LinkedRows(t, role);
      var k :| k in t.memberships && t.memberships[k].role == role && Eligible(t, k.0) && k.1 in t.bodies
               && GroupOf(t.bodies[k.1], role).Some?
               && LinkedRow(GroupOf(t.bodies[k.1], role).value, PersonOf(t, k.0)) == LinkedRow(group, p);
      assert k == (p.id, k.1) && Places(t, group, p.id, k.1);
    }
    forall p | p in OneGroupRows(t, group)
      ensures p.id in t.members && p == PersonOf(t, p.id) && Wants(t, main, group, p.id)
    {
      var k :| k in t.memberships && Eligible(t, k.0) && k.1 in t.bodies
               && GroupOf(t.bodies[k.1], t.memberships[k].role) == Some(group) && PersonOf(t, k.0) == p;
      assert k == (p.id, k.1) && Places(t, group, p.id, k.1);
    }
  }

  // ------------------------------------------------------------- main results

  /** The audience map lists the main group and every linked group, empty or not,
      and no other; and a group's keys are exactly the usable addresses of the good
      standing, unbanned members the records put in it. */
  lemma AudienceExactness(t: Tables, f: Fetched, main: Email, statuses: EmailStatuses)
    requires Valid(t) && FetchedFrom(f, t)
    ensures var audiences := AudiencesOf(f, main, statuses);
            && (forall g :: g in audiences <==> g == main || exists b ::
                   b in t.bodies && (t.bodies[b].leaderGroup == Some(g) || t.bodies[b].memberGroup == Some(g)))
            && (forall g, a :: g in audiences ==>
                  (a in audiences[g] <==> exists i :: Wants(t, main, g, i) && MirroredAs(t, statuses, i, a)))
            && (forall g, a :: g in audiences && a in audiences[g] ==>
                  Wants(t, main, g, audiences[g][a]) && MirroredAs(t, statuses, audiences[g][a], a))
  {
    forall g ensures g in AudiencesOf(f, main, statuses) <==>
        g == main || exists b ::
            b in t.bodies && (t.bodies[b].leaderGroup == Some(g) || t.bodies[b].memberGroup == Some(g))
    {
      AudienceKeys(t, f, main, statuses, g);
    }
    var audiences := AudiencesOf(f, main, statuses);
    forall g, a | g in audiences
      ensures a in audiences[g] <==> exists i :: Wants(t, main, g, i) && MirroredAs(t, statuses, i, a)
      ensures a in audiences[g] ==> Wants(t, main, g, audiences[g][a]) && MirroredAs(t, statuses, audiences[g][a], a)
    {
      AudiencesFill(t, f, main, statuses, g);
      PeopleAreWanted(t, main, g);
      FilledKey(t, main, statuses, g, audiences[g], PeopleFor(t, main, g), a);
    }
  }

  lemma FilledKey(t: Tables, main: Email, statuses: EmailStatuses, g: Email, desired: map<string, Uuid>,
      people: set<Person>, a: string)
    requires Fills(desired, map[], people, statuses)
    requires forall i :: i in t.members ==> (PersonOf(t, i) in people <==> Wants(t, main, g, i))
    requires forall p :: p in people ==> p.id in t.members && p == PersonOf(t, p.id)
    ensures a in desired <==> exists i :: Wants(t, main, g, i) && MirroredAs(t, statuses, i, a)
    ensures a in desired ==> Wants(t, main, g, desired[a]) && MirroredAs(t, statuses, desired[a], a)
  {
    hide Wants;
    if a in desired {
      var p :| p in people && !IsExample(TargetOf(p, statuses)) && Norm(TargetOf(p, statuses)) == a
          && p.id == desired[a];
      assert Wants(t, main, g, p.id) && MirroredAs(t, statuses, p.id, a);
    }
    if i :| Wants(t, main, g, i) && MirroredAs(t, statuses, i, a) {
      assert PersonOf(t, i) in people;
    }
  }

  lemma AudienceKeys(t: Tables, f: Fetched, main: Email, statuses: EmailStatuses, g: Email)
    requires Valid(t) && FetchedFrom(f, t)
    ensures g in AudiencesOf(f, main, statuses) <==>
            g == main || exists b ::
                b in t.bodies && (t.bodies[b].leaderGroup == Some(g) || t.bodies[b].memberGroup == Some(g))
  {
    var a0: Audiences := map[main := map[]];
    var a1 := AdmitLinked(a0, f.leaders, statuses);
    var a2 := AdmitLinked(a1, f.members, statuses);
    var a3 := AdmitMain(a2, main, f.everyone, statuses);
    AdmitLinkedFills(a0, f.leaders, statuses, g);
    AdmitLinkedFills(a1, f.members, statuses, g);
    AdmitLinkedFills(a0, f.leaders, statuses, main);
    AdmitLinkedFills(a1, f.members, statuses, main);
    AdmitMainFills(a2, main, f.everyone, statuses);
    IncludeEmptyKeeps(a3, f.pairs, g);
    hide Fills, AdmitLinked, AdmitMain, IncludeEmpty, MembersUnique, BodiesUnique, MembershipsRefer, LinksUnique;
    if k :| (k in f.leaders || k in f.members) && k.group == g {
      var role := if k in f.leaders then AsLeader else AsMember;
      assert k in LinkedRows(t, role) by {
        assert k in f.leaders ==> k in ToSet(f.leaders);
        assert k in f.members ==> k in ToSet(f.members);
      }
    }
    if p :| p in f.pairs && (p.0 == g || p.1 == g) {
      assert p in ToSet(f.pairs);
    }
    if b :| b in t.bodies && (t.bodies[b].leaderGroup == Some(g) || t.bodies[b].memberGroup == Some(g)) {
      assert (t.bodies[b].leaderGroup.value, t.bodies[b].memberGroup.value) in LinkedPairs(t);
      assert (t.bodies[b].leaderGroup.value, t.bodies[b].memberGroup.value) in ToSet(f.pairs);
    }
  }

  /** No two members wanted in the group are mirrored as one address. */
  ghost predicate Unshared(t: Tables, main: Email, statuses: EmailStatuses, g: Email) {
    forall i, j, a ::
      Wants(t, main, g, i) && MirroredAs(t, statuses, i, a) && Wants(t, main, g, j) && MirroredAs(t, statuses, j, a) ==>
        i == j
  }

  /** The one-group read refines the map: on one database state it has exactly the
      map's keys for every group - the main group even when it is also a body's, groups
      with no one in them, and a group no body is linked to - and equal values when no
      two members it wants share an address. */
  lemma OneGroupReadRefines(t: Tables, f: Fetched, main: Email, statuses: EmailStatuses, g: Email, people: seq<Person>)
    requires Valid(t) && FetchedFrom(f, t) && ToSet(people) == RowsFor(t, main, g)
    ensures DesiredOf(people, statuses).Keys == Get(AudiencesOf(f, main, statuses), g).Keys
    ensures forall a ::
        a in DesiredOf(people, statuses) <==> exists i :: Wants(t, main, g, i) && MirroredAs(t, statuses, i, a)
    ensures Unshared(t, main, statuses, g) ==>
        DesiredOf(people, statuses) == Get(AudiencesOf(f, main, statuses), g)
  {
    var desired, audience := DesiredOf(people, statuses), Get(AudiencesOf(f, main, statuses), g);
    AdmitAllFills(map[], people, statuses);
    AudiencesFill(t, f, main, statuses, g);
    PeopleAreWanted(t, main, g);
    assert Fills(desired, map[], RowsFor(t, main, g), statuses);
    assert Fills(audience, map[], PeopleFor(t, main, g), statuses);
    hide AudiencesOf, FetchedFrom, Valid, Fills, PeopleFor, DesiredOf, RowsFor, Unshared;
    ReadsAgree(t, main, statuses, g, desired, RowsFor(t, main, g), audience, PeopleFor(t, main, g));
  }

  /** Two dicts filled from the wanted people agree. */
  lemma ReadsAgree(t: Tables, main: Email, statuses: EmailStatuses, g: Email,
                   desired: map<string, Uuid>, rows: set<Person>, audience: map<string, Uuid>, people: set<Person>)
    requires Fills(desired, map[], rows, statuses) && Fills(audience, map[], people, statuses)
    requires forall i :: i in t.members ==> (PersonOf(t, i) in rows <==> Wants(t, main, g, i))
    requires forall i :: i in t.members ==> (PersonOf(t, i) in people <==> Wants(t, main, g, i))
    requires forall p :: p in rows || p in people ==> p.id in t.members && p == PersonOf(t, p.id)
    ensures desired.Keys == audience.Keys
    ensures forall a :: a in desired <==> exists i :: Wants(t, main, g, i) && MirroredAs(t, statuses, i, a)
    ensures Unshared(t, main, statuses, g) ==> desired == audience
  {
    hide Wants, MirroredAs, Fills;
    forall a
      ensures a in desired <==> a in audience
      ensures a in desired <==> exists i :: Wants(t, main, g, i) && MirroredAs(t, statuses, i, a)
      ensures a in desired ==> Wants(t, main, g, desired[a]) && MirroredAs(t, statuses, desired[a], a)
      ensures a in audience ==> Wants(t, main, g, audience[a]) && MirroredAs(t, statuses, audience[a], a)
    {
      FilledKey(t, main, statuses, g, desired, rows, a);
      FilledKey(t, main, statuses, g, audience, people, a);
    }
  }

  /** The last row read decides whom its address names. */
  lemma LastReadNames(people: seq<Person>, p: Person, statuses: EmailStatuses)
    requires !IsExample(TargetOf(p, statuses))
    ensures var desired, a := DesiredOf(people + [p], statuses), Norm(TargetOf(p, statuses));
            a in desired && desired[a] == p.id
  {
    assert (people + [p])[..|people|] == people;
  }

  /** The rows in some order, one of them last. */
  ghost function EndingWith(rows: set<Person>, p: Person): (r: seq<Person>)
    requires p in rows
    ensures ToSet(r) == rows && |r| > 0 && r[|r| - 1] == p
  {
    var rest := Listing(rows - {p});
    assert ToSet(rest + [p]) == ToSet(rest) + {p};
    rest + [p]
  }

  ghost function Listing(rows: set<Person>): (r: seq<Person>)
    ensures ToSet(r) == rows
  {
    if rows == {} then []
    else
      var p :| p in rows;
      var rest := Listing(rows - {p});
      assert ToSet([p] + rest) == {p} + ToSet(rest);
      [p] + rest
  }

  lemma SharedBy(t: Tables, main: Email, statuses: EmailStatuses, g: Email) returns (i: Uuid, j: Uuid, a: string)
    requires !Unshared(t, main, statuses, g)
    ensures Wants(t, main, g, i) && MirroredAs(t, statuses, i, a) && Wants(t, main, g, j)
    ensures MirroredAs(t, statuses, j, a) && i != j && i in t.members && j in t.members
  {
    hide MirroredAs;
    i, j, a :| Wants(t, main, g, i) && MirroredAs(t, statuses, i, a) && Wants(t, main, g, j)
        && MirroredAs(t, statuses, j, a) && i != j;
  }

  lemma MirroredMeans(t: Tables, statuses: EmailStatuses, i: Uuid, a: string)
    requires i in t.members
    ensures var target := TargetOf(PersonOf(t, i), statuses);
            MirroredAs(t, statuses, i, a) <==> !IsExample(target) && Norm(target) == a
  {
    hide SyncTarget;
  }

  /** Over all orders its rows may come in, the one-group read gives the map's values
      for a group if and only if no two members wanted there share an address. */
  lemma OneGroupReadExactly(t: Tables, f: Fetched, main: Email, statuses: EmailStatuses, g: Email)
    requires Valid(t) && FetchedFrom(f, t)
    ensures (forall people :: ToSet(people) == RowsFor(t, main, g) ==>
                DesiredOf(people, statuses) == Get(AudiencesOf(f, main, statuses), g)) <==>
            Unshared(t, main, statuses, g)
  {
    hide AudiencesOf, FetchedFrom, Valid, DesiredOf, RowsFor, IsExample, Norm, MirroredAs, SyncTarget, Unshared, Wants;
    var rows, audience := RowsFor(t, main, g), Get(AudiencesOf(f, main, statuses), g);
    PeopleAreWanted(t, main, g);
    if Unshared(t, main, statuses, g) {
      forall people | ToSet(people) == rows ensures DesiredOf(people, statuses) == audience {
        OneGroupReadRefines(t, f, main, statuses, g, people);
      }
    } else {
      var i, j, a := SharedBy(t, main, statuses, g);
      MirroredMeans(t, statuses, i, a);
      MirroredMeans(t, statuses, j, a);
      var p, q := PersonOf(t, i), PersonOf(t, j);
      var ps, qs := EndingWith(rows, p), EndingWith(rows, q);
      LastReadNames(ps[..|ps| - 1], p, statuses);
      LastReadNames(qs[..|qs| - 1], q, statuses);
      assert ps == ps[..|ps| - 1] + [p] && qs == qs[..|qs| - 1] + [q];
      assert DesiredOf(ps, statuses)[a] == i && DesiredOf(qs, statuses)[a] == j;
      assert DesiredOf(ps, statuses) != audience || DesiredOf(qs, statuses) != audience;
    }
  }
}
