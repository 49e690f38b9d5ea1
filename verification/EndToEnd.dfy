/** From the membership tables to Google: whom a run may offer and remove, after any
    history of pulls, panel writes and provisioning. */
module EndToEnd {
  import opened Basics
  import opened Database
  import opened GroupSync
  import opened EmailStatus
  import opened Plan
  import opened Apply
  import opened Sweep
  import opened SweepSteps
  import opened SweepTheorems
  import opened Audience
  import History

  lemma MirroredIsNormal(t: Tables, statuses: EmailStatuses, i: Uuid, a: string)
    requires MirroredAs(t, statuses, i, a)
    ensures Norm(a) == a
  {
    NormIdempotent(TargetOf(PersonOf(t, i), statuses));
  }

  /** The keys of every audience are lower-cased. */
  lemma AudiencesAreNormal(t: Tables, f: Fetched, main: Email, statuses: EmailStatuses)
    requires Valid(t) && FetchedFrom(f, t)
    ensures NormalAudiences(AudiencesOf(f, main, statuses))
  {
    AudienceExactness(t, f, main, statuses);
    var audiences := AudiencesOf(f, main, statuses);
    hide AudiencesOf, Valid, FetchedFrom, Wants, MirroredAs;
    forall g, a | g in audiences && a in audiences[g] ensures Norm(a) == a {
      MirroredIsNormal(t, statuses, audiences[g][a], a);
    }
  }

  /** Every wanted member's address, by name. */
  ghost predicate WantedAs(t: Tables, main: Email, statuses: EmailStatuses, group: Email, i: Uuid, a: string) {
    Wants(t, main, group, i) && MirroredAs(t, statuses, i, a)
  }

  /** Whatever Google answers, and whatever the panel writes meanwhile: a run offers
      an address only for an unbanned member in good standing whom the records put in
      that group, and removes no address of such a member. */
  lemma RunFollowsRecords(t: Tables, f: Fetched, main: Email, store: StatusStore, w: World, allow: bool, now: int)
    requires Valid(t) && FetchedFrom(f, t)
    ensures var statuses := ReadStatuses(store.rows, None, now);
            var log := RunGroups(w, AudiencesOf(f, main, statuses), statuses, allow).log;
            && (forall k :: 0 <= k < |log| && log[k].Offered? ==> exists i ::
                   WantedAs(t, main, statuses, log[k].group, i, log[k].address))
            && (forall k, i ::
                   0 <= k < |log| && log[k].Removed? ==>
                   !WantedAs(t, main, statuses, log[k].group, i, Norm(log[k].address)))
  {
    var statuses := ReadStatuses(store.rows, None, now);
    var audiences := AudiencesOf(f, main, statuses);
    AudiencesAreNormal(t, f, main, statuses);
    AudienceExactness(t, f, main, statuses);
    EveryCallJustified(w, audiences, statuses, allow);
    hide AudiencesOf, Valid, FetchedFrom, Wants, MirroredAs, RunGroups, ReadStatuses, WithinBudget;
    var log := RunGroups(w, audiences, statuses, allow).log;
    forall k | 0 <= k < |log| && log[k].Offered?
      ensures exists i :: WantedAs(t, main, statuses, log[k].group, i, log[k].address)
    {
      var j: nat :| BacksOffer(w, audiences, log, j, k);
      assert WantedAs(t, main, statuses, log[k].group, audiences[log[k].group][log[k].address], log[k].address);
    }
    forall k, i | 0 <= k < |log| && log[k].Removed?
        ensures !WantedAs(t, main, statuses, log[k].group, i, Norm(log[k].address)) {
      var j: nat :| BacksRemove(w, audiences, log, j, k);
    }
  }

  /** Member `i` wanted as `a`, and the row of no one banned when the history began. */
  ghost predicate WantedUnbanned(t: Tables, steps: seq<History.Step>, main: Email, statuses: EmailStatuses,
      group: Email, i: Uuid, a: string)
    requires Valid(t)
  {
    && WantedAs(History.Run(t, steps), main, statuses, group, i, a)
    && forall b :: b in t.bans ==> History.HeirOver(t, steps, b) != i
  }

  /** A ban holds all the way to Google: however the tables have since been pulled,
      merged, edited and provisioned, no address is ever offered on behalf of the row
      a banned member has become. */
  lemma BannedAreNeverOffered(t: Tables, steps: seq<History.Step>, f: Fetched, main: Email, store: StatusStore,
      w: World, allow: bool, now: int)
    requires Valid(t) && FetchedFrom(f, History.Run(t, steps))
    ensures var statuses := ReadStatuses(store.rows, None, now);
            var log := RunGroups(w, AudiencesOf(f, main, statuses), statuses, allow).log;
            forall k :: 0 <= k < |log| && log[k].Offered? ==>
              exists i :: WantedUnbanned(t, steps, main, statuses, log[k].group, i, log[k].address)
  {
    var t1 := History.Run(t, steps);
    var statuses := ReadStatuses(store.rows, None, now);
    RunFollowsRecords(t1, f, main, store, w, allow, now);
    History.BansOutlastHistory(t, steps);
    hide AudiencesOf, Valid, FetchedFrom, MirroredAs, RunGroups, ReadStatuses, History.Run, History.HeirOver;
    var log := RunGroups(w, AudiencesOf(f, main, statuses), statuses, allow).log;
    forall k | 0 <= k < |log| && log[k].Offered?
      ensures exists i :: WantedUnbanned(t, steps, main, statuses, log[k].group, i, log[k].address)
    {
      var i :| WantedAs(t1, main, statuses, log[k].group, i, log[k].address);
      assert i !in t1.bans;
      assert WantedUnbanned(t, steps, main, statuses, log[k].group, i, log[k].address);
    }
  }
}
