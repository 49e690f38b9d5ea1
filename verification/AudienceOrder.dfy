/** Whom a shared address names in the audience map: someone of the last query that
    returns it for the group. */
module AudienceOrder {
  import opened Basics
  import opened Database
  import opened GroupSync
  import opened Audience

  /** The person's usable address is the key. */
  predicate KeyedAs(p: Person, a: string, statuses: EmailStatuses) {
    !IsExample(TargetOf(p, statuses)) && Norm(TargetOf(p, statuses)) == a
  }

  /** Some row puts a person with this key in the group. */
  ghost predicate Puts(rows: seq<LinkedRow>, g: Email, a: string, statuses: EmailStatuses) {
    exists k :: k in rows && k.group == g && KeyedAs(k.person, a, statuses)
  }

  /** And the map names such a person there. */
  ghost predicate NamesOne(audiences: Audiences, rows: seq<LinkedRow>, g: Email, a: string, statuses: EmailStatuses) {
    && g in audiences && a in audiences[g]
    && exists k :: k in rows && k.group == g && KeyedAs(k.person, a, statuses) && audiences[g][a] == k.person.id
  }

  /** One row's effect on one key. */
  lemma AdmitNames(audiences: Audiences, last: LinkedRow, g: Email, a: string, statuses: EmailStatuses)
    ensures var r := Admit(Default(audiences, last.group), last.group, last.person, statuses);
            && (last.group == g && KeyedAs(last.person, a, statuses) ==>
                  g in r && a in r[g] && r[g][a] == last.person.id)
            && (!(last.group == g && KeyedAs(last.person, a, statuses)) && g in audiences && a in audiences[g] ==>
                  g in r && a in r[g] && r[g][a] == audiences[g][a])
  {
    hide IsExample, SyncTarget, Norm;
  }

  lemma {:induction false} LinkedNames(audiences: Audiences, rows: seq<LinkedRow>, g: Email, a: string,
      statuses: EmailStatuses)
    ensures var r := AdmitLinked(audiences, rows, statuses);
            && (Puts(rows, g, a, statuses) ==> NamesOne(r, rows, g, a, statuses))
            && (!Puts(rows, g, a, statuses) && g in audiences && a in audiences[g] ==>
                  g in r && a in r[g] && r[g][a] == audiences[g][a])
  {
    hide KeyedAs, Admit, Default;
    if rows != [] {
      var n := |rows| - 1;
      var last := rows[n];
      LinkedNames(audiences, rows[..n], g, a, statuses);
      AdmitNames(AdmitLinked(audiences, rows[..n], statuses), last, g, a, statuses);
      assert rows == rows[..n] + [last] && last in rows;
      assert forall k :: k in rows[..n] ==> k in rows;
      if Puts(rows, g, a, statuses) && !(last.group == g && KeyedAs(last.person, a, statuses)) {
        assert Puts(rows[..n], g, a, statuses);
      }
    }
  }

  lemma {:induction false} MainNames(audiences: Audiences, main: Email, people: seq<Person>, a: string,
      statuses: EmailStatuses)
    requires main in audiences
    ensures var r := AdmitMain(audiences, main, people, statuses);
            && main in r
            && ((exists p :: p in people && KeyedAs(p, a, statuses)) ==>
                  a in r[main] && exists p :: p in people && KeyedAs(p, a, statuses) && r[main][a] == p.id)
  {
    hide IsExample, SyncTarget, Norm;
    if people != [] {
      var n := |people| - 1;
      MainNames(audiences, main, people[..n], a, statuses);
      assert people == people[..n] + [people[n]] && people[n] in people;
      assert forall p :: p in people[..n] ==> p in people;
    }
  }

  /** In the main group an address names one of its good-standing holders; in any other a
      member of a body before a leader of one. */
  lemma LastQueryNames(f: Fetched, main: Email, statuses: EmailStatuses, g: Email, a: string)
    ensures var audiences := AudiencesOf(f, main, statuses);
            && ((exists p :: p in f.everyone && KeyedAs(p, a, statuses)) ==>
                  && main in audiences && a in audiences[main]
                  && exists p :: p in f.everyone && KeyedAs(p, a, statuses) && audiences[main][a] == p.id)
            && (g != main && Puts(f.members, g, a, statuses) ==> NamesOne(audiences, f.members, g, a, statuses))
            && (g != main && !Puts(f.members, g, a, statuses) && Puts(f.leaders, g, a, statuses) ==>
                  NamesOne(audiences, f.leaders, g, a, statuses))
  {
    hide KeyedAs, AdmitLinked, AdmitMain, IncludeEmpty;
    var a0: Audiences := map[main := map[]];
    var a1 := AdmitLinked(a0, f.leaders, statuses);
    var a2 := AdmitLinked(a1, f.members, statuses);
    var a3 := AdmitMain(a2, main, f.everyone, statuses);
    LinkedNames(a0, f.leaders, g, a, statuses);
    LinkedNames(a1, f.members, g, a, statuses);
    AdmitLinkedFills(a0, f.leaders, statuses, main);
    AdmitLinkedFills(a1, f.members, statuses, main);
    AdmitMainFills(a2, main, f.everyone, statuses);
    MainNames(a2, main, f.everyone, a, statuses);
    IncludeEmptyKeeps(a3, f.pairs, g);
    IncludeEmptyKeeps(a3, f.pairs, main);
    hide Fills;
  }
}
