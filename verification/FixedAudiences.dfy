/** When the audiences do not follow what Google says: every member has one address. */
module FixedAudiences {
  import opened Basics
  import opened Database
  import opened GroupSync
  import opened Audience

  /** The member can be mirrored under one address only. */
  predicate OneAddress(p: Person) {
    IsExample(p.email) || |Candidates(p.email, p.alternate)| == 1
  }

  /** A member's target never moves, whatever Google says, exactly when they have one. */
  lemma TargetStaysExactly(p: Person)
    ensures OneAddress(p) <==>
        forall a: EmailStatuses, b: EmailStatuses :: TargetOf(p, a) == TargetOf(p, b)
  {
    if OneAddress(p) {
      forall a: EmailStatuses, b: EmailStatuses ensures TargetOf(p, a) == TargetOf(p, b) {
        OneTarget(p, a);
        OneTarget(p, b);
      }
    } else {
      TwoTargets(p);
    }
  }

  lemma OneTarget(p: Person, statuses: EmailStatuses)
    requires OneAddress(p)
    ensures TargetOf(p, statuses) == p.email
  {
    if !IsExample(p.email) {
      CandidatesAre(p.email, p.alternate);
      SyncTargetIsBest(p.email, p.alternate, statuses);
      hide Candidates, IsExample, SyncTarget;
      assert SyncTarget(p.email, p.alternate, statuses) in Candidates(p.email, p.alternate);
    }
  }

  lemma TwoTargets(p: Person)
    requires !OneAddress(p)
    ensures exists a: EmailStatuses, b: EmailStatuses :: TargetOf(p, a) != TargetOf(p, b)
  {
    var candidates := Candidates(p.email, p.alternate);
    CandidatesAre(p.email, p.alternate);
    var quiet := EmailStatuses({}, map[], {});
    var first := TargetOf(p, quiet);
    var refused := AfterRefusal(quiet, first, 1);
    RefusedTargetRotates(p.email, p.alternate, quiet, 1);
    assert TargetOf(p, refused) != TargetOf(p, quiet);
  }

  lemma {:induction false} LinkedStay(audiences: Audiences, rows: seq<LinkedRow>, a: EmailStatuses, b: EmailStatuses)
    requires forall k :: k in rows ==> OneAddress(k.person)
    ensures AdmitLinked(audiences, rows, a) == AdmitLinked(audiences, rows, b)
  {
    if rows != [] {
      var n := |rows| - 1;
      assert rows[n] in rows && forall k :: k in rows[..n] ==> k in rows;
      LinkedStay(audiences, rows[..n], a, b);
      OneTarget(rows[n].person, a);
      OneTarget(rows[n].person, b);
    }
  }

  lemma {:induction false} MainStays(audiences: Audiences, main: Email, people: seq<Person>, a: EmailStatuses,
      b: EmailStatuses)
    requires forall p :: p in people ==> OneAddress(p)
    ensures AdmitMain(audiences, main, people, a) == AdmitMain(audiences, main, people, b)
  {
    if people != [] {
      var n := |people| - 1;
      assert people[n] in people && forall p :: p in people[..n] ==> p in people;
      MainStays(audiences, main, people[..n], a, b);
      OneTarget(people[n], a);
      OneTarget(people[n], b);
    }
  }

  /** Every eligible member of the tables has one address. */
  ghost predicate OneAddressEach(t: Tables) {
    forall i :: i in t.members && Eligible(t, i) ==> OneAddress(PersonOf(t, i))
  }

  /** Then the audiences are the same whatever Google has said about any address. */
  lemma AudiencesStay(t: Tables, f: Fetched, main: Email, a: EmailStatuses, b: EmailStatuses)
    requires Valid(t) && FetchedFrom(f, t) && OneAddressEach(t)
    ensures AudiencesOf(f, main, a) == AudiencesOf(f, main, b)
  {
    hide OneAddress, Valid, IncludeEmpty;
    forall k | k in f.leaders || k in f.members ensures OneAddress(k.person) {
      var role := if k in f.leaders then AsLeader else AsMember;
      assert k in ToSet(if k in f.leaders then f.leaders else f.members);
      assert k in LinkedRows(t, role);
      assert Eligible(t, k.person.id);
    }
    forall p | p in f.everyone ensures OneAddress(p) {
      assert p in ToSet(f.everyone);
    }
    var start: Audiences := map[main := map[]];
    LinkedStay(start, f.leaders, a, b);
    LinkedStay(AdmitLinked(start, f.leaders, a), f.members, a, b);
    MainStays(AdmitLinked(AdmitLinked(start, f.leaders, a), f.members, a), main, f.everyone, a, b);
  }
}
