/** The membership tables, their constraints, and the SQL statements the roster
    pull runs over them. A table is a map from primary key to row; a statement is
    a function from tables to tables. */
module Database {
  import opened Basics

  datatype Standing = GoodStanding | Lapsed

  datatype Role = AsLeader | AsMember

  datatype Assessment = Leader | NonLeader | UnmarkedLeader | EmptyLeader

  datatype Leadership = Leadership(bodyType: string, name: string)

  /** One record of the roster. `leads` enumerates a frozenset, so it never repeats. */
  datatype Member = Member(
    stId: int, email: Email, alternateEmail: Option<Email>, standing: Standing,
    discordId: Option<int>, firstName: Option<string>, lastName: Option<string>,
    alternateName: Option<string>, isChapterLeader: bool, leads: seq<Leadership>)

  datatype MemberRow = MemberRow(
    stId: int, firstName: Option<string>, lastName: Option<string>,
    alternateName: Option<string>, email: Email, alternateEmail: Option<Email>,
    discordId: Option<int>, standing: Standing, isChapterLeader: bool,
    assessment: Assessment)

  datatype BodyRow = BodyRow(
    name: string, bodyType: string,
    leaderGroup: Option<Email>, memberGroup: Option<Email>)

  datatype BodyMembership = BodyMembership(
    role: Role, addedBy: Option<Uuid>, manuallyAddedAt: Option<int>)

  datatype Ban = Ban(bannedAt: int, note: string)

  /** `memberships` is keyed by (member, body), the table's UNIQUE pair. */
  datatype Tables = Tables(
    members: map<Uuid, MemberRow>, bodies: map<Uuid, BodyRow>,
    memberships: map<(Uuid, Uuid), BodyMembership>, bans: map<Uuid, Ban>,
    nextId: Uuid)

  // ------------------------------------------------------------ constraints

  /** UNIQUE st_id, email and (non-null) Discord id. */
  ghost predicate MembersUnique(members: map<Uuid, MemberRow>) {
    forall i, j :: i in members && j in members && i != j ==>
      && members[i].stId != members[j].stId
      && members[i].email != members[j].email
      && (members[i].discordId.Some? ==> members[i].discordId != members[j].discordId)
  }

  ghost predicate BodiesUnique(bodies: map<Uuid, BodyRow>) {
    forall a, b :: a in bodies && b in bodies && LeadershipOf(bodies[a]) == LeadershipOf(bodies[b]) ==> a == b
  }

  /** `linked_pair`: a body is linked on both address columns or neither. */
  ghost predicate LinksWhole(bodies: map<Uuid, BodyRow>) {
    forall b :: b in bodies ==> (bodies[b].leaderGroup.Some? <==> bodies[b].memberGroup.Some?)
  }

  /** UNIQUE on each address column. */
  ghost predicate LinksUnique(bodies: map<Uuid, BodyRow>) {
    forall a, b :: a in bodies && b in bodies && a != b ==>
      && (bodies[a].leaderGroup.Some? ==> bodies[a].leaderGroup != bodies[b].leaderGroup)
      && (bodies[a].memberGroup.Some? ==> bodies[a].memberGroup != bodies[b].memberGroup)
  }

  /** The foreign keys, and `manual_provenance`. */
  ghost predicate MembershipsRefer(t: Tables) {
    forall k :: k in t.memberships ==>
      && k.0 in t.members && k.1 in t.bodies
      && (t.memberships[k].addedBy.Some? ==>
            t.memberships[k].addedBy.value in t.members && t.memberships[k].manuallyAddedAt.Some?)
  }

  ghost predicate Valid(t: Tables) {
    && MembersUnique(t.members)
    && BodiesUnique(t.bodies) && LinksWhole(t.bodies) && LinksUnique(t.bodies)
    && MembershipsRefer(t)
    && t.bans.Keys <= t.members.Keys
    && (forall i :: i in t.members ==> i < t.nextId)
    && (forall b :: b in t.bodies ==> b < t.nextId)
  }

  // ------------------------------------------------------------------- rows

  function Assess(isChapterLeader: bool, leads: seq<Leadership>): (a: Assessment)
    ensures a.Leader? <==> isChapterLeader && leads != []
    ensures a.NonLeader? <==> !isChapterLeader && leads == []
    ensures a.UnmarkedLeader? <==> !isChapterLeader && leads != []
    ensures a.EmptyLeader? <==> isChapterLeader && leads == []
  {
    if isChapterLeader then
      if leads != [] then Leader else EmptyLeader
    else
      if leads != [] then UnmarkedLeader else NonLeader
  }

  /** The row the pull stores for one roster record. */
  function RowOf(m: Member): MemberRow {
    MemberRow(m.stId, m.firstName, m.lastName, m.alternateName, m.email, m.alternateEmail,
              m.discordId, m.standing, m.isChapterLeader, Assess(m.isChapterLeader, m.leads))
  }

  function LeadershipOf(body: BodyRow): Leadership {
    Leadership(body.bodyType, body.name)
  }

  /** SELECT id FROM members WHERE st_id = ... */
  function FindMember(members: map<Uuid, MemberRow>, stId: int): (r: Option<Uuid>)
    requires MembersUnique(members)
    ensures r.Some? ==> r.value in members && members[r.value].stId == stId
    ensures r.None? ==> forall i :: i in members ==> members[i].stId != stId
  {
    if exists i :: i in members && members[i].stId == stId then
      var i :| i in members && members[i].stId == stId;
      Some(i)
    else None
  }

  /** SELECT id FROM leadership_bodies WHERE name = ... AND body_type = ... */
  function FindBody(bodies: map<Uuid, BodyRow>, l: Leadership): (r: Option<Uuid>)
    requires BodiesUnique(bodies)
    ensures r.Some? ==> r.value in bodies && LeadershipOf(bodies[r.value]) == l
    ensures r.None? ==> forall b :: b in bodies ==> LeadershipOf(bodies[b]) != l
  {
    if exists b :: b in bodies && LeadershipOf(bodies[b]) == l then
      var b :| b in bodies && LeadershipOf(bodies[b]) == l;
      Some(b)
    else None
  }

  // ------------------------------------------------------------- statements

  /** Whether storing `m` violates UNIQUE email or Discord id. */
  predicate Clashes(members: map<Uuid, MemberRow>, m: Member) {
    exists i :: i in members && members[i].stId != m.stId && Holds(members[i], m)
  }

  /** A row carrying the record's email, or its Discord id if it has one. */
  predicate Holds(row: MemberRow, m: Member) {
    row.email == m.email || (m.discordId.Some? && row.discordId == m.discordId)
  }

  /** INSERT ... ON CONFLICT (st_id) DO UPDATE ... RETURNING id. */
  function UpsertMember(t: Tables, m: Member): (r: (Tables, Uuid))
    requires Valid(t) && !Clashes(t.members, m)
    ensures Valid(r.0)
    ensures r.0 == t.(members := t.members[r.1 := RowOf(m)], nextId := r.0.nextId)
    ensures r.1 in t.members ==> t.members[r.1].stId == m.stId && r.0.nextId == t.nextId
    ensures r.1 !in t.members ==> r.1 == t.nextId && r.0.nextId == t.nextId + 1
    ensures r.1 !in t.members ==> forall i :: i in t.members ==> t.members[i].stId != m.stId
  {
    match FindMember(t.members, m.stId)
    case Some(i) => (t.(members := t.members[i := RowOf(m)]), i)
    case None =>
      (t.(members := t.members[t.nextId := RowOf(m)], nextId := t.nextId + 1), t.nextId)
  }

  /** INSERT ... ON CONFLICT (name, body_type) DO NOTHING, then the id either way. */
  function UpsertBody(t: Tables, l: Leadership): (r: (Tables, Uuid))
    requires Valid(t)
    ensures Valid(r.0)
    ensures r.1 in r.0.bodies && LeadershipOf(r.0.bodies[r.1]) == l
    ensures r.0 == t || (r.1 !in t.bodies
        && r.0 == t.(bodies := t.bodies[r.1 := BodyRow(l.name, l.bodyType, None, None)], nextId := t.nextId + 1))
    ensures (exists b :: b in t.bodies && LeadershipOf(t.bodies[b]) == l) ==> r.0 == t
  {
    match FindBody(t.bodies, l)
    case Some(b) => (t, b)
    case None =>
      (t.(bodies := t.bodies[t.nextId := BodyRow(l.name, l.bodyType, None, None)],
          nextId := t.nextId + 1),
       t.nextId)
  }

  /** UPDATE members SET st_id = ... WHERE id = ... */
  function Rekey(t: Tables, id: Uuid, stId: int): (r: Tables)
    requires Valid(t) && id in t.members
    requires forall i :: i in t.members ==> t.members[i].stId != stId
    ensures Valid(r)
  {
    t.(members := t.members[id := t.members[id].(stId := stId)])
  }

  /** Moves the member rows of `from` onto `into`, keeping any row `into` has. */
  function CarryManualAdds(t: Tables, from: Uuid, into: Uuid): (r: Tables)
    ensures Valid(t) && into in t.members ==> Valid(r)
  {
    t.(memberships :=
      map k | k in t.memberships.Keys + (set k | k in t.memberships && k.0 == from
          && t.memberships[k].role.AsMember? :: (into, k.1)) ::
        if k in t.memberships then t.memberships[k] else t.memberships[(from, k.1)])
  }

  function Renamed(addedBy: Option<Uuid>, from: Uuid, into: Uuid): Option<Uuid> {
    if addedBy == Some(from) then Some(into) else addedBy
  }

  /** Re-attributes the adds `from` made to `into`. */
  function CarryAttribution(t: Tables, from: Uuid, into: Uuid): (r: Tables)
    ensures Valid(t) && into in t.members ==> Valid(r)
    ensures forall k :: k in r.memberships && from != into ==> r.memberships[k].addedBy != Some(from)
  {
    t.(memberships :=
      map k | k in t.memberships ::
        t.memberships[k].(addedBy := Renamed(t.memberships[k].addedBy, from, into)))
  }

  /** Copies a ban on `from` to `into`; one already there stands. */
  function CarryBan(t: Tables, from: Uuid, into: Uuid): (r: Tables)
    ensures Valid(t) && into in t.members ==> Valid(r)
    ensures from in t.bans ==> into in r.bans
  {
    if from in t.bans && into !in t.bans then t.(bans := t.bans[into := t.bans[from]]) else t
  }

  /** DELETE FROM members: memberships and bans CASCADE, attributions SET NULL. */
  function DeleteMember(t: Tables, id: Uuid): Tables {
    t.(members := t.members - {id},
       bans := t.bans - {id},
       memberships :=
         map k | k in t.memberships && k.0 != id ::
           if t.memberships[k].addedBy == Some(id) then t.memberships[k].(addedBy := None)
           else t.memberships[k])
  }

  lemma DeleteKeepsValid(t: Tables, id: Uuid)
    requires Valid(t)
    ensures Valid(DeleteMember(t, id))
  {
    hide BodiesUnique, LinksWhole, LinksUnique;
  }

  /** Why a pull's transaction rolled back. */
  datatype PullError = RepeatedLeaderPair | DanglingLeaderPair

  /** INSERT leader rows ... ON CONFLICT DO UPDATE. Postgres aborts when one
      statement would touch a row twice, or when a pair refers to no row. */
  predicate LeaderPairsRepeat(pairs: seq<(Uuid, Uuid)>) {
    exists i, j :: 0 <= i < j < |pairs| && pairs[i] == pairs[j]
  }

  predicate LeaderPairsDangle(t: Tables, pairs: seq<(Uuid, Uuid)>) {
    exists p :: p in pairs && !(p.0 in t.members && p.1 in t.bodies)
  }

  function InsertLeaderRows(t: Tables, pairs: seq<(Uuid, Uuid)>): Tables {
    t.(memberships :=
      map k | k in t.memberships.Keys + ToSet(pairs) ::
        if k in pairs then BodyMembership(AsLeader, None, None) else t.memberships[k])
  }

  function DeleteStaleLeaderRows(t: Tables, present: seq<Uuid>, pairs: seq<(Uuid, Uuid)>): Tables {
    t.(memberships :=
      map k | k in t.memberships && !(t.memberships[k].role.AsLeader? && k.0 in present && k !in pairs) ::
        t.memberships[k])
  }

  /** The good-standing rows whose st_id the roster does not name. */
  function Absent(members: map<Uuid, MemberRow>, roster: set<int>): set<Uuid> {
    set i | i in members && members[i].standing.GoodStanding? && members[i].stId !in roster
  }

  function InGoodStanding(members: map<Uuid, MemberRow>): set<Uuid> {
    set i | i in members && members[i].standing.GoodStanding?
  }

  function LapseAbsent(t: Tables, roster: set<int>): Tables {
    t.(members := map i | i in t.members ::
      if i in Absent(t.members, roster) then t.members[i].(standing := Lapsed) else t.members[i])
  }
}
