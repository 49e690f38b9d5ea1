/** Any number of provisioning runs, over whatever bodies each finds: the first real
    run that creates a group is the last that may create more than the cap. */
module ProvisionRuns {
  import opened Basics
  import opened Database
  import opened Provision

  /** One run: Google's answers and the bodies, as they are by then. */
  datatype Attempt = Attempt(prov: Provisioner, bodies: map<Uuid, BodyRow>, config: Config, main: Email, dryRun: bool)

  ghost predicate WellKept(attempts: seq<Attempt>) {
    forall k :: 0 <= k < |attempts| ==> BodiesUnique(attempts[k].bodies)
  }

  function Outcome(a: Attempt, armed: bool): Provisioned
    requires BodiesUnique(a.bodies)
  {
    Provision.Provision(a.prov, a.bodies, armed, a.config, a.main, a.dryRun)
  }

  /** The marker once these runs are over; a run Google stopped leaves it alone. */
  function MarkerAfter(attempts: seq<Attempt>, armed: bool): bool
    requires WellKept(attempts)
  {
    if attempts == [] then armed
    else
      var before := MarkerAfter(attempts[..|attempts| - 1], armed);
      var r := Outcome(attempts[|attempts| - 1], before);
      if r.Provisioned? then r.bootstrapped else before
  }

  /** What the k-th run comes to. */
  function OutcomeAt(attempts: seq<Attempt>, armed: bool, k: nat): Provisioned
    requires WellKept(attempts) && k < |attempts|
  {
    Outcome(attempts[k], MarkerAfter(attempts[..k], armed))
  }

  /** The k-th run is real and created a group. */
  ghost predicate Creates(attempts: seq<Attempt>, armed: bool, k: nat)
    requires WellKept(attempts) && k < |attempts|
  {
    var r := OutcomeAt(attempts, armed, k);
    !attempts[k].dryRun && r.Provisioned? && r.report.created > 0
  }

  /** The k-th run came to more than its cap. */
  ghost predicate Exceeds(attempts: seq<Attempt>, armed: bool, k: nat)
    requires WellKept(attempts) && k < |attempts|
  {
    Creates(attempts, armed, k) && OutcomeAt(attempts, armed, k).report.created > attempts[k].config.cap
  }

  lemma SamePrefix(attempts: seq<Attempt>, n: nat, k: nat)
    requires k <= n <= |attempts|
    ensures attempts[..n][..k] == attempts[..k]
  {
  }

  /** The marker remembers: it is set exactly when it was at first or a real run has
      created something since. */
  lemma {:induction false} MarkerRemembers(attempts: seq<Attempt>, armed: bool)
    requires WellKept(attempts)
    ensures MarkerAfter(attempts, armed) <==> armed || exists k: nat :: k < |attempts| && Creates(attempts, armed, k)
  {
    hide Provision.Provision;
    if attempts != [] {
      var n := |attempts| - 1;
      var earlier, last := attempts[..n], attempts[n];
      var before := MarkerAfter(earlier, armed);
      MarkerRemembers(earlier, armed);
      MarkerAfterRun(last.prov, last.bodies, before, last.config, last.main, last.dryRun);
      forall k: nat | k < n ensures Creates(attempts, armed, k) <==> Creates(earlier, armed, k) {
        SamePrefix(attempts, n, k);
      }
      assert MarkerAfter(attempts, armed) <==> before || Creates(attempts, armed, n);
      if k: nat :| k < |attempts| && Creates(attempts, armed, k) {
        assert k == n || Creates(earlier, armed, k);
      }
      if k: nat :| k < n && Creates(earlier, armed, k) {
        assert Creates(attempts, armed, k);
      }
    }
  }

  /** Once a real run has created something the cap binds every later run, rehearsals
      too. */
  lemma CappedEverAfter(attempts: seq<Attempt>, armed: bool, j: nat, k: nat)
    requires WellKept(attempts) && j < k < |attempts| && Creates(attempts, armed, j)
    ensures var r, a := OutcomeAt(attempts, armed, k), attempts[k];
            r.Provisioned? ==> Capped(a.prov, a.bodies, a.config, a.main, r)
  {
    hide Provision.Provision, Capped;
    var a := attempts[k];
    MarkerRemembers(attempts[..k], armed);
    SamePrefix(attempts, k, j);
    assert Creates(attempts[..k], armed, j);
    CreationCap(a.prov, a.bodies, a.config, a.main, a.dryRun);
  }

  /** So after a run that created something no later run asks Google to ensure anything
      while it finds more groups missing than the cap. */
  lemma NoneEnsuredPastCap(attempts: seq<Attempt>, armed: bool, j: nat, k: nat)
    requires WellKept(attempts) && j < k < |attempts| && Creates(attempts, armed, j)
    ensures var r, a := OutcomeAt(attempts, armed, k), attempts[k];
            r.Provisioned? && |Missing(a.prov, PlanPending(a.bodies, a.config, a.main).groups)| > a.config.cap ==>
              r.bodies == a.bodies && forall i :: 0 <= i < |r.log| ==> r.log[i].Asked?
  {
    hide OutcomeAt, PlanPending, Missing, Minted, Contradicted, Consistent, SizeUp, Emails;
    CappedEverAfter(attempts, armed, j, k);
  }

  /** A real run exceeds its cap exactly when the groups it ensures at addresses Google
      called missing do, and either those missing are within it after all or nothing
      has armed the cap: not at first, and no run so far. */
  lemma ExceedsExactly(attempts: seq<Attempt>, armed: bool, k: nat)
    requires WellKept(attempts) && k < |attempts| && !attempts[k].dryRun && OutcomeAt(attempts, armed, k).Provisioned?
    ensures var a := attempts[k];
            var groups := PlanPending(a.bodies, a.config, a.main).groups;
            Exceeds(attempts, armed, k) <==>
              && |Minted(a.prov, groups)| > a.config.cap
              && (|Missing(a.prov, groups)| <= a.config.cap
                  || (!armed && forall j: nat :: j < k ==> !Creates(attempts, armed, j)))
  {
    hide Provision.Provision, PlanPending, Missing, Minted, MarkerAfter, BodiesUnique;
    var a, before := attempts[k], MarkerAfter(attempts[..k], armed);
    MarkerRemembers(attempts[..k], armed);
    assert before <==> armed || exists j: nat :: j < k && Creates(attempts, armed, j) by {
      CreatesInPrefix(attempts, armed, k);
    }
    CreatedExactly(a.prov, a.bodies, before, a.config, a.main, a.dryRun);
  }

  lemma CreatesInPrefix(attempts: seq<Attempt>, armed: bool, n: nat)
    requires WellKept(attempts) && n <= |attempts|
    ensures forall j: nat :: j < n ==> (Creates(attempts[..n], armed, j) <==> Creates(attempts, armed, j))
  {
    hide Outcome, MarkerAfter;
    forall j: nat | j < n ensures Creates(attempts[..n], armed, j) <==> Creates(attempts, armed, j) {
      SamePrefix(attempts, n, j);
    }
  }

  /** So of any runs at Googles that answer alike when asked twice, at most one real
      run creates more groups than its cap: the first that creates any, and only if
      the marker was not set before. */
  lemma AtMostOneExceeds(attempts: seq<Attempt>, armed: bool, k: nat)
    requires WellKept(attempts) && k < |attempts| && Exceeds(attempts, armed, k)
    requires Consistent(attempts[k].prov, PlanPending(attempts[k].bodies, attempts[k].config, attempts[k].main).groups)
    ensures !armed && forall j: nat :: j < k ==> !Creates(attempts, armed, j)
  {
    hide Provision.Provision, PlanPending, Consistent;
    var a := attempts[k];
    forall j: nat | j < k ensures !Creates(attempts, armed, j) {
      if Creates(attempts, armed, j) {
        CappedEverAfter(attempts, armed, j, k);
        assert false;
      }
    }
    if armed {
      MarkerRemembers(attempts[..k], armed);
      CreationCap(a.prov, a.bodies, a.config, a.main, a.dryRun);
      assert false;
    }
  }
}
