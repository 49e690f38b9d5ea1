/** Which address a member is mirrored under, and what Google's answers mean. */
module GroupSync {
  import opened Basics

  const EXAMPLE_DOMAIN := "@example.com"
  const GMAIL_DOMAIN := "@gmail.com"

  /** Google's latest answer on each address, by its lower-cased form. */
  datatype EmailStatuses = EmailStatuses(accepted: set<string>, refusedAt: map<string, int>, live: set<string>) {

    function Lapsed(): set<string> {
      refusedAt.Keys - live
    }
  }

  predicate IsExample(address: Email) {
    EndsWith(Norm(address), EXAMPLE_DOMAIN)
  }

  function Candidates(primary: Email, alternate: Option<Email>): seq<Email> {
    match alternate
    case None => [primary]
    case Some(other) =>
      if Norm(other) == Norm(primary) then [primary]
      else if IsExample(other) then [primary]
      else if EndsWith(Norm(other), GMAIL_DOMAIN) then [other, primary]
      else [primary, other]
  }

  /** The first address satisfying `p`. */
  function FirstWhere(p: Email -> bool, candidates: seq<Email>): Option<Email> {
    if candidates == [] then None
    else if p(candidates[0]) then Some(candidates[0])
    else FirstWhere(p, candidates[1..])
  }

  /** Python's `min(candidates, key=refused_at)`: the first of the oldest. */
  function OldestRefused(candidates: seq<Email>, statuses: EmailStatuses): (r: Email)
    requires candidates != [] && forall c :: c in candidates ==> Norm(c) in statuses.refusedAt
    ensures r in candidates
    ensures forall c :: c in candidates ==> statuses.refusedAt[Norm(r)] <= statuses.refusedAt[Norm(c)]
  {
    if |candidates| == 1 then candidates[0]
    else
      var rest := OldestRefused(candidates[1..], statuses);
      assert candidates == [candidates[0]] + candidates[1..];
      if statuses.refusedAt[Norm(candidates[0])] <= statuses.refusedAt[Norm(rest)] then candidates[0] else rest
  }

  lemma {:induction false} FirstWhereFinds(p: Email -> bool, candidates: seq<Email>)
    ensures var r := FirstWhere(p, candidates);
            if r.Some? then r.value in candidates && p(r.value) else forall c :: c in candidates ==> !p(c)
  {
    if candidates != [] && !p(candidates[0]) {
      FirstWhereFinds(p, candidates[1..]);
      assert candidates == [candidates[0]] + candidates[1..];
    }
  }

  function SyncTarget(email: Email, alternate: Option<Email>, statuses: EmailStatuses): Email {
    if IsExample(email) then email
    else
      var candidates := Candidates(email, alternate);
      var accepted := FirstWhere((c: Email) => Norm(c) in statuses.accepted, candidates);
      var untried := FirstWhere((c: Email) => Norm(c) !in statuses.refusedAt, candidates);
      if accepted.Some? then accepted.value
      else if untried.Some? then untried.value
      else
        FirstWhereFinds((c: Email) => Norm(c) !in statuses.refusedAt, candidates);
        OldestRefused(candidates, statuses)
  }

  /** One row per address, and live means refused after one common cutoff. */
  ghost predicate StatusesWell(statuses: EmailStatuses) {
    && statuses.accepted !! statuses.refusedAt.Keys
    && statuses.live <= statuses.refusedAt.Keys
    && exists cutoff: int :: LiveAfter(statuses, cutoff)
  }

  ghost predicate LiveAfter(statuses: EmailStatuses, cutoff: int) {
    forall a :: a in statuses.refusedAt ==> (a in statuses.live <==> statuses.refusedAt[a] > cutoff)
  }

  /** Accepted before never refused before refused. */
  function Rank(statuses: EmailStatuses, address: Email): nat {
    if Norm(address) in statuses.accepted then 0 else if Norm(address) !in statuses.refusedAt then 1 else 2
  }

  /** An alternate counts if it is another address and no example one: before the primary
      if it is at gmail, after it if not. An example primary never redirects. */
  lemma CandidatesExactly(email: Email, alternate: Option<Email>, statuses: EmailStatuses)
    ensures var candidates := Candidates(email, alternate);
            var counts := alternate.Some? && Norm(alternate.value) != Norm(email)
                && !EndsWith(Norm(alternate.value), "@example.com");
            && (!counts ==> candidates == [email])
            && (counts && EndsWith(Norm(alternate.value), "@gmail.com") ==> candidates == [alternate.value, email])
            && (counts && !EndsWith(Norm(alternate.value), "@gmail.com") ==> candidates == [email, alternate.value])
    ensures EndsWith(Norm(email), "@example.com") ==> SyncTarget(email, alternate, statuses) == email
  {
  }

  /** One or two candidates, never the same address twice, the primary among them. */
  lemma CandidatesAre(email: Email, alternate: Option<Email>)
    ensures var candidates := Candidates(email, alternate);
            && email in candidates && (forall c :: c in candidates ==> c == email || alternate == Some(c))
            && (candidates == [candidates[0]]
                   || (candidates == [candidates[0], candidates[1]] && Norm(candidates[0]) != Norm(candidates[1])))
            && (candidates[0] != email ==> EndsWith(Norm(candidates[0]), GMAIL_DOMAIN))
  {
  }

  lemma FirstOfTwo(p: Email -> bool, a: Email, b: Email)
    ensures FirstWhere(p, [a, b]) == if p(a) then Some(a) else if p(b) then Some(b) else None
    ensures FirstWhere(p, [a]) == if p(a) then Some(a) else None
  {
    assert FirstWhere(p, []) == None;
    assert [b][1..] == [] && [a][1..] == [];
    assert FirstWhere(p, [b]) == if p(b) then Some(b) else None;
    assert [a, b][1..] == [b] && [a, b][0] == a;
  }

  /** A better rank, or both refused and longer ago. */
  predicate Beats(statuses: EmailStatuses, a: Email, b: Email) {
    || Rank(statuses, a) < Rank(statuses, b)
    || (Rank(statuses, a) == Rank(statuses, b) == 2 && statuses.refusedAt[Norm(a)] < statuses.refusedAt[Norm(b)])
  }

  /** The target is the best candidate: a better rank always wins, among refused
      addresses the one refused longest ago, and the first where they tie. */
  lemma SyncTargetIsBest(email: Email, alternate: Option<Email>, statuses: EmailStatuses)
    requires !IsExample(email)
    ensures var r, candidates := SyncTarget(email, alternate, statuses), Candidates(email, alternate);
            && r in candidates
            && (forall c :: c in candidates ==> !Beats(statuses, c, r))
            && (r != candidates[0] ==> Beats(statuses, r, candidates[0]))
  {
    var candidates := Candidates(email, alternate);
    CandidatesAre(email, alternate);
    FirstWhereFinds((c: Email) => Norm(c) in statuses.accepted, candidates);
    FirstWhereFinds((c: Email) => Norm(c) !in statuses.refusedAt, candidates);
    var other := candidates[|candidates| - 1];
    FirstOfTwo((c: Email) => Norm(c) in statuses.accepted, candidates[0], other);
    FirstOfTwo((c: Email) => Norm(c) !in statuses.refusedAt, candidates[0], other);
    hide Candidates, Norm, IsExample, FirstWhere;
  }

  /** A member is withheld for a live refusal only when every address they could be
      mirrored under is refused and live. */
  lemma LiveTargetOnlyIfAllLive(email: Email, alternate: Option<Email>, statuses: EmailStatuses)
    requires StatusesWell(statuses) && !IsExample(email)
    ensures Norm(SyncTarget(email, alternate, statuses)) in statuses.live <==>
              forall c :: c in Candidates(email, alternate) ==> Norm(c) in statuses.live
  {
    SyncTargetIsBest(email, alternate, statuses);
    var cutoff :| LiveAfter(statuses, cutoff);
  }

  /** The statuses once an address is recorded accepted, or refused at `now`. */
  function AfterAccept(statuses: EmailStatuses, address: Email): EmailStatuses {
    var a := Norm(address);
    EmailStatuses(statuses.accepted + {a}, statuses.refusedAt - {a}, statuses.live - {a})
  }

  function AfterRefusal(statuses: EmailStatuses, address: Email, now: int): EmailStatuses {
    var a := Norm(address);
    EmailStatuses(statuses.accepted - {a}, statuses.refusedAt[a := now], statuses.live + {a})
  }

  /** A member stays under the address Google took: recording their target accepted
      never moves them. */
  lemma AcceptedTargetIsKept(email: Email, alternate: Option<Email>, statuses: EmailStatuses)
    ensures var r := SyncTarget(email, alternate, statuses);
            SyncTarget(email, alternate, AfterAccept(statuses, r)) == r
  {
    if !IsExample(email) {
      var r, candidates := SyncTarget(email, alternate, statuses), Candidates(email, alternate);
      var after := AfterAccept(statuses, r);
      CandidatesAre(email, alternate);
      SyncTargetIsBest(email, alternate, statuses);
      SyncTargetIsBest(email, alternate, after);
      hide Candidates, Norm, IsExample, SyncTarget;
      assert forall c :: c in candidates ==> !Beats(after, c, r);
      assert r == candidates[0] || Beats(after, r, candidates[0]);
    }
  }

  /** A member moves off the address Google refused: recording their target refused,
      later than any other refusal, makes their other candidate the target. */
  lemma RefusedTargetRotates(email: Email, alternate: Option<Email>, statuses: EmailStatuses, now: int)
    requires !IsExample(email)
    requires forall a :: a in statuses.refusedAt ==> statuses.refusedAt[a] < now
    ensures var r := SyncTarget(email, alternate, statuses);
            SyncTarget(email, alternate, AfterRefusal(statuses, r, now)) == r <==> |Candidates(email, alternate)| == 1
  {
    var r, candidates := SyncTarget(email, alternate, statuses), Candidates(email, alternate);
    var after := AfterRefusal(statuses, r, now);
    CandidatesAre(email, alternate);
    SyncTargetIsBest(email, alternate, statuses);
    SyncTargetIsBest(email, alternate, after);
    hide Candidates, Norm, IsExample, SyncTarget;
    var next := SyncTarget(email, alternate, after);
    if |candidates| == 2 {
      var other := if r == candidates[0] then candidates[1] else candidates[0];
      assert other in candidates && Norm(other) != Norm(r);
      assert next != r;
    }
  }

  // ----------------------------------------------------------------- outcomes

  datatype SyncOutcome =
    | Applied | SkippedUnlinked | SkippedExampleEmail | SkippedDryRun
    | AlreadyConverged | NoGoogleAccount | AddressNotFound | Failed
  {
    predicate Unmirrorable() { NoGoogleAccount? || AddressNotFound? }

    predicate Accepted() { Applied? || AlreadyConverged? }

    predicate Skipped() { SkippedUnlinked? || SkippedExampleEmail? || SkippedDryRun? }
  }

  /** What a membership call came back with. */
  datatype Response = Ok | HttpError(status: Option<int>, reasons: set<string>)

  datatype Operation = Add | Remove

  function AddOutcome(status: Option<int>, reasons: set<string>): SyncOutcome {
    if status == Some(409) then AlreadyConverged
    else if status == Some(412) && "conditionNotMet" in reasons then NoGoogleAccount
    else if status == Some(404) && "notFound" in reasons then AddressNotFound
    else Failed
  }

  function RemoveOutcome(status: Option<int>): SyncOutcome {
    if status == Some(404) then AlreadyConverged else Failed
  }

  /** The two gates: `Some` is the outcome to stop on. */
  function SkipGate(group: Option<Email>, address: Email): Option<SyncOutcome> {
    if group.None? then Some(SkippedUnlinked)
    else if IsExample(address) then Some(SkippedExampleEmail)
    else None
  }

  /** One real or rehearsed call: gates first, then Google's answer classified. */
  function Mirror(op: Operation, group: Option<Email>, address: Email, dryRun: bool, response: Response): SyncOutcome {
    match SkipGate(group, address)
    case Some(outcome) => outcome
    case None =>
      if dryRun then SkippedDryRun
      else match response
        case Ok => Applied
        case HttpError(status, reasons) => if op.Add? then AddOutcome(status, reasons) else RemoveOutcome(status)
  }

  /** What a call comes to, by what Google answers. A group that is not linked, then an
      example address, then a rehearsal stop it before it is made. */
  lemma OutcomeByAnswer(op: Operation, group: Option<Email>, address: Email, dryRun: bool, response: Response)
    ensures var outcome := Mirror(op, group, address, dryRun, response);
            var made := group.Some? && !EndsWith(Norm(address), "@example.com") && !dryRun;
            && (group.None? ==> outcome == SkippedUnlinked)
            && (group.Some? && EndsWith(Norm(address), "@example.com") ==> outcome == SkippedExampleEmail)
            && (group.Some? && !EndsWith(Norm(address), "@example.com") && dryRun ==> outcome == SkippedDryRun)
            && (made && response.Ok? ==> outcome == Applied)
            && (made && response.HttpError? && op.Add? ==>
                  && (response.status == Some(409) ==> outcome == AlreadyConverged)
                  && (response.status == Some(412) && "conditionNotMet" in response.reasons ==>
                        outcome == NoGoogleAccount)
                  && (response.status == Some(404) && "notFound" in response.reasons ==> outcome == AddressNotFound)
                  && (|| response.status == Some(409)
                      || (response.status == Some(412) && "conditionNotMet" in response.reasons)
                      || (response.status == Some(404) && "notFound" in response.reasons)
                      || outcome == Failed))
            && (made && response.HttpError? && op.Remove? ==>
                  outcome == if response.status == Some(404) then AlreadyConverged else Failed)
  {
  }

  /** Which outcomes are verdicts, which leave the member in, and which made no call. */
  lemma OutcomeKinds(outcome: SyncOutcome)
    ensures outcome.Unmirrorable() <==> outcome == NoGoogleAccount || outcome == AddressNotFound
    ensures outcome.Accepted() <==> outcome == Applied || outcome == AlreadyConverged
    ensures outcome.Skipped() <==>
        outcome == SkippedUnlinked || outcome == SkippedExampleEmail || outcome == SkippedDryRun
  {
  }

  /** A verdict about an address comes only from a real add Google answered with one
      of two exact refusals; a rehearsal never reaches Google, and a removal never
      refuses an address. */
  lemma VerdictsComeFromGoogle(op: Operation, group: Option<Email>, address: Email, dryRun: bool, response: Response)
    ensures Mirror(op, group, address, dryRun, response).Unmirrorable() <==>
              && op.Add? && group.Some? && !IsExample(address) && !dryRun && response.HttpError?
              && (   (response.status == Some(412) && "conditionNotMet" in response.reasons)
                  || (response.status == Some(404) && "notFound" in response.reasons))
    ensures dryRun ==> Mirror(op, group, address, dryRun, response).Skipped()
  {
  }
}
