/** How long a member row outlasts a history of pulls, panel writes and provisioning:
    the three ways it can end, and that there is no other. */
module AddsOverHistory {
  import opened Basics
  import opened Database
  import opened RosterPull
  import opened RosterKeeps
  import opened RosterLeaders
  import opened RosterTheorems
  import opened Panel
  import opened History
  import Provision

  /** A member row, made by hand or before: the only kind the panel makes. */
  predicate HoldsRow(t: Tables, id: Uuid, b: Uuid) {
    (id, b) in t.memberships && t.memberships[(id, b)].role.AsMember?
  }

  /** The roster's record with the row's st_id was stored, and names the body. */
  ghost predicate RecordLeads(members: seq<Member>, after: Tables, skipped: seq<int>, id: Uuid, b: Uuid) {
    && id in after.members && b in after.bodies
    && exists m :: m in members && m.stId == after.members[id].stId && m.stId !in skipped
                   && LeadershipOf(after.bodies[b]) in m.leads
  }

  /** This step ends the row: the panel removes it; or a pull promotes its holder to
      leader there, or folds the row into one that led the body and leads it no longer. */
  ghost predicate Ends(t: Tables, step: Step, id: Uuid, b: Uuid)
    requires Valid(t)
  {
    match step
    case RemoveStep(body, member) => body == b && member == id
    case PullStep(members, dryRun) =>
      var r, heir := PulledIn(t, members, dryRun), HeirAfter(t, step, id);
      r.Committed? &&
        (RecordLeads(members, r.t, r.report.skippedStIds, heir, b) || StaleLeaderRow(t, members, r.t, heir, b))
    case _ => false
  }

  // ----------------------------------------------------------------- one pull

  /** A pull's pairs are the leaderships its stored records name. */
  lemma PairsMean(t: Tables, members: seq<Member>, dryRun: bool, id: Uuid, b: Uuid)
    requires Valid(t) && WellFormed(members)
    ensures var s, r := Looped(t, members, dryRun), PulledIn(t, members, dryRun);
            && r.Committed?
            && ((id, b) in s.pairs <==> RecordLeads(members, r.t, r.report.skippedStIds, id, b))
  {
    hide Valid, WellFormed, PulledIn, Looped, StoredMembers, RecordLeads, Committing;
    var s, r, stored := Looped(t, members, dryRun), PulledIn(t, members, dryRun), StoredBy(t, members, dryRun);
    LoopCommits(t, members, dryRun);
    if (id, b) in s.pairs {
      PairIsLed(members, s, stored, r.t, id, b);
    }
    if RecordLeads(members, r.t, s.skipped, id, b) {
      LedIsPair(members, s, stored, r.t, id, b);
    }
  }

  lemma LoopCommits(t: Tables, members: seq<Member>, dryRun: bool)
    requires Valid(t) && WellFormed(members)
    ensures var s, r := Looped(t, members, dryRun), PulledIn(t, members, dryRun);
            && r.Committed? && r.report.skippedStIds == s.skipped
            && Committing(members, s, StoredBy(t, members, dryRun), r.t)
  {
    hide Valid, WellFormed, PulledIn, Looped, StoredMembers, CacheRight, NoDup, MembersUnique, PairsName, RowOf;
    var s, r, stored := Looped(t, members, dryRun), PulledIn(t, members, dryRun), StoredBy(t, members, dryRun);
    CommittedRows(t, members, dryRun);
    LoopTracks(t, members, dryRun);
    LoopUnique(t, members, dryRun);
    StoredMembersIn(members, s.skipped);
    forall k | 0 <= k < |stored|
      ensures s.present[k] in s.t.members && s.t.members[s.present[k]].stId == stored[k].stId
    {
      RowOfStId(stored[k]);
    }
  }

  /** The stored records, their rows in the committed tables, and the pairs they name. */
  ghost predicate Committing(members: seq<Member>, s: PullState, stored: seq<Member>, after: Tables) {
    && (forall m :: m in stored <==> m in members && m.stId !in s.skipped)
    && |stored| == |s.present| && (forall k :: 0 <= k < |stored| ==> s.present[k] in s.t.members)
    && (forall k :: 0 <= k < |stored| ==> s.t.members[s.present[k]].stId == stored[k].stId)
    && (forall k :: 0 <= k < |stored| ==> PairsName(s.t.bodies, s.pairs, stored[k], s.present[k]))
    && (forall p :: p in s.pairs ==> p.0 in s.present && p.1 in s.t.bodies)
    && after.bodies == s.t.bodies && after.members.Keys == s.t.members.Keys
    && (forall i :: i in s.t.members ==> after.members[i].stId == s.t.members[i].stId)
    && MembersUnique(s.t.members)
  }

  lemma PairIsLed(members: seq<Member>, s: PullState, stored: seq<Member>, after: Tables, id: Uuid, b: Uuid)
    requires Committing(members, s, stored, after) && (id, b) in s.pairs
    ensures RecordLeads(members, after, s.skipped, id, b)
  {
    hide MembersUnique, Named;
    var k :| 0 <= k < |s.present| && s.present[k] == id;
    assert stored[k] in stored && PairsName(s.t.bodies, s.pairs, stored[k], id);
  }

  lemma LedIsPair(members: seq<Member>, s: PullState, stored: seq<Member>, after: Tables, id: Uuid, b: Uuid)
    requires Committing(members, s, stored, after) && RecordLeads(members, after, s.skipped, id, b)
    ensures (id, b) in s.pairs
  {
    var m :| m in members && m.stId == after.members[id].stId && m.stId !in s.skipped
        && LeadershipOf(after.bodies[b]) in m.leads;
    assert m in stored;
    var k :| 0 <= k < |stored| && stored[k] == m;
    SameStId(s.t.members, id, s.present[k]);
    hide MembersUnique, Named;
    assert PairsName(s.t.bodies, s.pairs, m, id);
  }

  lemma LoopUnique(t: Tables, members: seq<Member>, dryRun: bool)
    requires Valid(t)
    ensures MembersUnique(Looped(t, members, dryRun).t.members)
  {
    LoopKeeps(t, members, dryRun);
    hide Looped, KeepsMembers, KeepsBans, KeepsMemberships, MembersUnique;
  }

  lemma SameStId(members: map<Uuid, MemberRow>, i: Uuid, j: Uuid)
    requires MembersUnique(members) && i in members && j in members && members[i].stId == members[j].stId
    ensures i == j
  {
  }

  /** A pull keeps the row, with its heir, unless it promotes or loses it. */
  lemma PullEndsExactly(t: Tables, members: seq<Member>, dryRun: bool, id: Uuid, b: Uuid)
    requires Valid(t) && WellFormed(members) && HoldsRow(t, id, b)
    ensures var step := PullStep(members, dryRun);
            HoldsRow(After(t, step), HeirAfter(t, step, id), b) <==> !Ends(t, step, id, b)
  {
    var s, r := Looped(t, members, dryRun), PulledIn(t, members, dryRun);
    var heir := HeirOf(s.heirs, id);
    PairsMean(t, members, dryRun, heir, b);
    PullStands(t, members, dryRun, id, b);
  }

  /** The same by the pull's own pairs. */
  lemma PullStands(t: Tables, members: seq<Member>, dryRun: bool, id: Uuid, b: Uuid)
    requires Valid(t) && WellFormed(members) && HoldsRow(t, id, b)
    ensures var s, r := Looped(t, members, dryRun), PulledIn(t, members, dryRun);
            var heir := HeirOf(s.heirs, id);
            && r.Committed?
            && (HoldsRow(r.t, heir, b) <==> (heir, b) !in s.pairs && !StaleLeaderRow(t, members, r.t, heir, b))
  {
    var s, r := Looped(t, members, dryRun), PulledIn(t, members, dryRun);
    var heir := HeirOf(s.heirs, id);
    OtherRowsStand(t, members, dryRun);
    MergeConservation(t, members, dryRun);
    LoopHeirsStored(t, members, dryRun);
    PairsLead(t, members, dryRun);
    hide Valid, WellFormed, Looped, PulledIn, KeepsBans, StaleLeaderRow;
    if id in s.heirs {
      HeirPresent(s, id);
      if (heir, b) in r.t.memberships && (heir, b) !in s.pairs {
        HeirRowIsMember(t, members, dryRun, heir, b);
      }
    } else {
      NotStale(t, members, r.t, id, b);
    }
  }

  lemma NotStale(t: Tables, members: seq<Member>, after: Tables, id: Uuid, b: Uuid)
    requires HoldsRow(t, id, b)
    ensures !StaleLeaderRow(t, members, after, id, b)
  {
  }

  lemma PairsLead(t: Tables, members: seq<Member>, dryRun: bool)
    requires Valid(t) && WellFormed(members)
    ensures var s, r := Looped(t, members, dryRun), PulledIn(t, members, dryRun);
            r.Committed? && forall k :: k in s.pairs ==> k in r.t.memberships && r.t.memberships[k].role.AsLeader?
  {
    CommittedRows(t, members, dryRun);
    ReconciledRows(Looped(t, members, dryRun));
    hide Valid, WellFormed, Looped, PulledIn, Reconciled;
  }

  /** A stored member's row that the pull's pairs do not name is no leader row. */
  lemma HeirRowIsMember(t: Tables, members: seq<Member>, dryRun: bool, id: Uuid, b: Uuid)
    requires Valid(t) && WellFormed(members) && id in Looped(t, members, dryRun).present
    requires (id, b) !in Looped(t, members, dryRun).pairs && PulledIn(t, members, dryRun).Committed?
    requires (id, b) in PulledIn(t, members, dryRun).t.memberships
    ensures HoldsRow(PulledIn(t, members, dryRun).t, id, b)
  {
    CommittedRows(t, members, dryRun);
    ReconciledRows(Looped(t, members, dryRun));
    hide Valid, WellFormed, Looped, PulledIn, Reconciled;
  }

  // ------------------------------------------------------------- whole histories

  ghost predicate WellFormedPulls(steps: seq<Step>) {
    forall k :: 0 <= k < |steps| && steps[k].PullStep? ==> WellFormed(steps[k].members)
  }

  /** One step keeps the row exactly when it does not end it. */
  lemma StepEndsExactly(t: Tables, step: Step, id: Uuid, b: Uuid)
    requires Valid(t) && HoldsRow(t, id, b) && (step.PullStep? ==> WellFormed(step.members))
    ensures HoldsRow(After(t, step), HeirAfter(t, step, id), b) <==> !Ends(t, step, id, b)
  {
    hide PulledIn, Provision.Provision, Valid, HoldsRow;
    match step
    case PullStep(members, dryRun) => PullEndsExactly(t, members, dryRun, id, b);
    case AddStep(body, member, addedBy, now) => PanelEndsExactly(t, body, member, addedBy, now, id, b);
    case RemoveStep(body, member) => PanelEndsExactly(t, body, member, 0, 0, id, b);
    case ProvisionStep(prov, bootstrapped, config, main, rehearsal) => SameRow(t, After(t, step), id, b);
  }

  lemma SameRow(t: Tables, after: Tables, id: Uuid, b: Uuid)
    requires after.memberships == t.memberships
    ensures HoldsRow(after, id, b) <==> HoldsRow(t, id, b)
  {
  }

  lemma PanelEndsExactly(t: Tables, body: Uuid, member: Uuid, addedBy: Uuid, now: int, id: Uuid, b: Uuid)
    requires Valid(t) && HoldsRow(t, id, b)
    ensures HoldsRow(Added(t, body, member, addedBy, now).0, id, b)
    ensures HoldsRow(RemovedFrom(t, body, member).0, id, b) <==> !(body == b && member == id)
  {
    hide MembersUnique, BodiesUnique, LinksUnique, LinksWhole;
    assert (id, b) in t.memberships && (id, b).1 in t.bodies;
  }

  /** The row is there after every step so far, under its heir. */
  ghost predicate HeldThroughout(t: Tables, steps: seq<Step>, id: Uuid, b: Uuid)
    requires Valid(t)
  {
    forall n: nat :: n <= |steps| ==> HoldsRow(Run(t, steps[..n]), HeirOver(t, steps[..n], id), b)
  }

  /** Step `n` ends the row as it then stands. */
  ghost predicate EndedAt(t: Tables, steps: seq<Step>, id: Uuid, b: Uuid, n: nat)
    requires Valid(t) && n < |steps|
  {
    Ends(Run(t, steps[..n]), steps[n], HeirOver(t, steps[..n], id), b)
  }

  lemma {:induction false} RunNext(t: Tables, steps: seq<Step>, step: Step, id: Uuid)
    requires Valid(t)
    ensures Run(t, steps + [step]) == After(Run(t, steps), step)
    ensures HeirOver(t, steps + [step], id) == HeirAfter(Run(t, steps), step, HeirOver(t, steps, id))
    decreases |steps|
  {
    hide Valid, After, HeirAfter;
    StepKeepsValid(t, (steps + [step])[0]);
    if steps == [] {
      assert [] + [step] == [step] && [step][1..] == [];
      StepKeepsValid(t, step);
      assert Run(After(t, step), []) == After(t, step);
    } else {
      var next := After(t, steps[0]);
      assert (steps + [step])[0] == steps[0] && (steps + [step])[1..] == steps[1..] + [step];
      RunNext(next, steps[1..], step, HeirAfter(t, steps[0], id));
    }
  }

  /** A member row, so a manual add, outlasts a whole history under its heir if and only
      if no step removes it by hand, promotes its holder, or folds it into a row that led
      the body and leads it no longer. */
  lemma {:induction false} AddOutlastsHistoryExactly(t: Tables, steps: seq<Step>, id: Uuid, b: Uuid)
    requires Valid(t) && WellFormedPulls(steps) && HoldsRow(t, id, b)
    ensures HeldThroughout(t, steps, id, b) <==> forall n: nat :: n < |steps| ==> !EndedAt(t, steps, id, b, n)
    decreases |steps|
  {
    hide Valid, After, HeirAfter, Ends, WellFormed, HoldsRow;
    if steps == [] {
      assert Run(t, []) == t && HeirOver(t, [], id) == id && steps[..0] == [];
    } else {
      var m := |steps| - 1;
      var before := steps[..m];
      AddOutlastsHistoryExactly(t, before, id, b);
      assert steps == before + [steps[m]];
      RunNext(t, before, steps[m], id);
      forall n: nat | n <= m ensures before[..n] == steps[..n] { }
      assert steps[..|steps|] == steps;
      if HoldsRow(Run(t, before), HeirOver(t, before, id), b) {
        StepEndsExactly(Run(t, before), steps[m], HeirOver(t, before, id), b);
      }
      assert HeldThroughout(t, before, id, b) <==> forall n: nat :: n < m ==> !EndedAt(t, steps, id, b, n) by {
        assert forall n: nat :: n < m ==> (EndedAt(t, before, id, b, n) <==> EndedAt(t, steps, id, b, n));
      }
      assert HeldThroughout(t, steps, id, b) <==>
          HeldThroughout(t, before, id, b) && HoldsRow(Run(t, steps), HeirOver(t, steps, id), b);
      assert before[..m] == before;
      assert HeldThroughout(t, before, id, b) ==> HoldsRow(Run(t, before), HeirOver(t, before, id), b);
      assert EndedAt(t, steps, id, b, m) <==> Ends(Run(t, before), steps[m], HeirOver(t, before, id), b);
      assert (forall n: nat :: n < |steps| ==> !EndedAt(t, steps, id, b, n)) <==>
          (forall n: nat :: n < m ==> !EndedAt(t, steps, id, b, n)) && !EndedAt(t, steps, id, b, m);
    }
  }
}
