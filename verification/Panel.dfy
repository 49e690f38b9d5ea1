/** The panel's membership writes, and what a pull does to them. */
module Panel {
  import opened Basics
  import opened Database
  import opened RosterPull
  import opened RosterKeeps
  import opened RosterLeaders
  import opened RosterTheorems

  /** `BodyGone` is the source's `None`; `ForeignKeyViolated` the error Postgres
      raises for a member or adder that is not there. */
  datatype ClaimOutcome = BodyGone | Inserted | AlreadyPresent | IsLeader | ForeignKeyViolated

  datatype RemoveOutcome = NoBody | Removed | NotAMember | HoldsLeaderRow

  function Added(t: Tables, body: Uuid, member: Uuid, addedBy: Uuid, now: int): (r: (Tables, ClaimOutcome)) {
    var k := (member, body);
    if body !in t.bodies then (t, BodyGone)
    else if k in t.memberships then (t, if t.memberships[k].role.AsLeader? then IsLeader else AlreadyPresent)
    else if member !in t.members || addedBy !in t.members then (t, ForeignKeyViolated)
    else (t.(memberships := t.memberships[k := BodyMembership(AsMember, Some(addedBy), Some(now))]), Inserted)
  }

  function RemovedFrom(t: Tables, body: Uuid, member: Uuid): (r: (Tables, RemoveOutcome)) {
    var k := (member, body);
    if body !in t.bodies then (t, NoBody)
    else if k !in t.memberships then (t, NotAMember)
    else if t.memberships[k].role.AsLeader? then (t, HoldsLeaderRow)
    else (t.(memberships := t.memberships - {k}), Removed)
  }

  /** The database behind the panel. */
  class Store {
    var t: Tables

    constructor (tables: Tables)
      ensures t == tables
    {
      t := tables;
    }

    /** `claim_and_add_member`: the insert first, then the role read under the claim. */
    method ClaimAndAddMember(body: Uuid, member: Uuid, addedBy: Uuid, now: int) returns (r: ClaimOutcome)
      modifies this
      ensures (t, r) == Added(old(t), body, member, addedBy, now)
    {
      if body !in t.bodies {
        return BodyGone;
      }
      var k := (member, body);
      var inserted := 0;
      if k !in t.memberships {
        if member !in t.members || addedBy !in t.members {
          return ForeignKeyViolated;
        }
        t := t.(memberships := t.memberships[k := BodyMembership(AsMember, Some(addedBy), Some(now))]);
        inserted := 1;
      }
      if inserted == 1 {
        return Inserted;
      }
      r := if t.memberships[k].role.AsLeader? then IsLeader else AlreadyPresent;
    }

    /** `claim_and_remove_member`: a delete scoped to role = 'member'. */
    method ClaimAndRemoveMember(body: Uuid, member: Uuid) returns (r: RemoveOutcome)
      modifies this
      ensures (t, r) == RemovedFrom(old(t), body, member)
    {
      if body !in t.bodies {
        return NoBody;
      }
      var k := (member, body);
      var deleted := 0;
      if k in t.memberships && t.memberships[k].role.AsMember? {
        t := t.(memberships := t.memberships - {k});
        deleted := 1;
      }
      if deleted == 1 {
        return Removed;
      }
      r := if k in t.memberships then HoldsLeaderRow else NotAMember;
    }
  }

  // -------------------------------------------------- the panel against the pull

  lemma AddedKeepsValid(t: Tables, body: Uuid, member: Uuid, addedBy: Uuid, now: int)
    requires Valid(t)
    ensures Valid(Added(t, body, member, addedBy, now).0)
  {
    hide MembersUnique, BodiesUnique, LinksUnique, LinksWhole;
  }

  lemma RemovedKeepsValid(t: Tables, body: Uuid, member: Uuid)
    requires Valid(t)
    ensures Valid(RemovedFrom(t, body, member).0)
  {
    hide MembersUnique, BodiesUnique, LinksUnique, LinksWhole;
  }

  /** An add answers for the body, then for the row already there, then for the member and
      the adder; and only if none stands in the way it writes one row: a member's, by the
      adder, at that moment. */
  lemma AddWritesExactly(t: Tables, body: Uuid, member: Uuid, addedBy: Uuid, now: int)
    ensures var (after, answer) := Added(t, body, member, addedBy, now);
            var known := body in t.bodies && (member, body) in t.memberships;
            var possible := body in t.bodies && !known && member in t.members && addedBy in t.members;
            && (answer == BodyGone <==> body !in t.bodies)
            && (answer == IsLeader <==> known && t.memberships[(member, body)].role == AsLeader)
            && (answer == AlreadyPresent <==> known && t.memberships[(member, body)].role == AsMember)
            && (answer == Inserted <==> possible)
            && (!possible ==> after == t)
            && (possible ==>
                  && after.members == t.members && after.bodies == t.bodies && after.bans == t.bans
                  && after.memberships.Keys == t.memberships.Keys + {(member, body)}
                  && (forall k :: k in t.memberships ==> after.memberships[k] == t.memberships[k])
                  && after.memberships[(member, body)].role == AsMember
                  && after.memberships[(member, body)].addedBy == Some(addedBy)
                  && after.memberships[(member, body)].manuallyAddedAt == Some(now))
  {
  }

  /** A removal takes away the one row, if it is a member's, and nothing else. */
  lemma RemoveTakesExactly(t: Tables, body: Uuid, member: Uuid)
    ensures var (after, answer) := RemovedFrom(t, body, member);
            var held := body in t.bodies && (member, body) in t.memberships;
            && (answer == NoBody <==> body !in t.bodies)
            && (answer == NotAMember <==> body in t.bodies && !held)
            && (answer == HoldsLeaderRow <==> held && t.memberships[(member, body)].role == AsLeader)
            && (answer == Removed <==> held && t.memberships[(member, body)].role == AsMember)
            && (answer != Removed ==> after == t)
            && (answer == Removed ==>
                  && after.members == t.members && after.bodies == t.bodies && after.bans == t.bans
                  && after.memberships.Keys == t.memberships.Keys - {(member, body)}
                  && forall k :: k in after.memberships ==> after.memberships[k] == t.memberships[k])
  {
  }

  /** The same leader rows, unchanged. */
  ghost predicate SameLeaders(ms: Memberships, r: Memberships) {
    && (forall id, b :: IsLeaderRow(r, id, b) <==> IsLeaderRow(ms, id, b))
    && (forall id, b :: IsLeaderRow(ms, id, b) ==> r[(id, b)] == ms[(id, b)])
  }

  /** The panel never makes, changes or removes a leader row, and refuses by name the
      removal of one. */
  lemma PanelLeavesLeaders(t: Tables, body: Uuid, member: Uuid, addedBy: Uuid, now: int)
    ensures SameLeaders(t.memberships, Added(t, body, member, addedBy, now).0.memberships)
    ensures SameLeaders(t.memberships, RemovedFrom(t, body, member).0.memberships)
    ensures body in t.bodies ==>
              (RemovedFrom(t, body, member).1.HoldsLeaderRow? <==> IsLeaderRow(t.memberships, member, body))
  {
  }

  /** A panel removal undoes a panel add. */
  lemma AddThenRemove(t: Tables, body: Uuid, member: Uuid, addedBy: Uuid, now: int)
    requires Added(t, body, member, addedBy, now).1 == Inserted
    ensures RemovedFrom(Added(t, body, member, addedBy, now).0, body, member) == (t, Removed)
  {
    var k := (member, body);
    assert t.memberships[k := BodyMembership(AsMember, Some(addedBy), Some(now))] - {k} == t.memberships;
  }

  /** A panel add outlasts the next pull of any roster: the member, or the row the
      pull folded them into, is still in the body - unless that row led the body before
      and its record names it no longer. */
  lemma PanelAddSurvivesPull(t: Tables, body: Uuid, member: Uuid, addedBy: Uuid, now: int, members: seq<Member>,
      dryRun: bool)
    requires Valid(t) && WellFormed(members) && Added(t, body, member, addedBy, now).1 == Inserted
    ensures Valid(Added(t, body, member, addedBy, now).0)
    ensures var t1 := Added(t, body, member, addedBy, now).0;
            var s, r := Looped(t1, members, dryRun), PulledIn(t1, members, dryRun);
            var holder := HeirOf(s.heirs, member);
            && r.Committed?
            && ((holder, body) in r.t.memberships <==>
                   holder == member || !StaleLeaderRow(t1, members, r.t, holder, body))
  {
    hide Valid, Looped, PulledIn, KeepsBans, KeepsBodies, KeepsMemberships, StaleLeaderRow;
    var t1 := Added(t, body, member, addedBy, now).0;
    AddedKeepsValid(t, body, member, addedBy, now);
    OtherRowsStand(t1, members, dryRun);
    MergeConservation(t1, members, dryRun);
    assert (member, body) in t1.memberships && t1.memberships[(member, body)].role.AsMember?;
    LoopKeeps(t1, members, dryRun);
  }
}
