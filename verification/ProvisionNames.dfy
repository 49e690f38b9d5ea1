/** What a provisioning run asks Google for, by name; what it links, by column; and what
    its report counts. */
module ProvisionNames {
  import opened Basics
  import opened Database
  import opened Naming
  import opened NameClashes
  import opened NamesInWords
  import opened Provision
  import opened ProvisionSuccess

  // ------------------------------------------------------------------ the calls

  /** The main group under its configured name; or one of an unlinked body's two groups,
      under that body's address and label for the kind. */
  ghost predicate IsNamed(bodies: map<Uuid, BodyRow>, config: Config, main: Email, email: Email, name: string) {
    || (email == main && name == config.mainGroupName)
    || exists b, kind ::
         && b in bodies && !(bodies[b].leaderGroup.Some? && bodies[b].memberGroup.Some?)
         && GroupEmail(bodies[b].name, bodies[b].bodyType, kind, config.domain) == Some(email)
         && GroupLabel(bodies[b].name, bodies[b].bodyType, kind) == Some(name)
  }

  ghost predicate AllNamed(bodies: map<Uuid, BodyRow>, config: Config, main: Email, groups: seq<PlannedGroup>) {
    forall g :: g in groups ==> IsNamed(bodies, config, main, g.email, g.name)
  }

  lemma PlanNextNamed(bodies: map<Uuid, BodyRow>, id: Uuid, config: Config, main: Email, p: Pending)
    requires id in bodies && AllNamed(bodies, config, main, p.groups)
    ensures AllNamed(bodies, config, main, PlanNext(bodies, id, config, p).groups)
  {
    hide GroupEmail, GroupLabel;
    if !IsLinked(bodies[id]) && PlanBody(id, bodies[id], config).Some? {
      var pair := PlanBody(id, bodies[id], config).value;
      forall g | g in pair ensures IsNamed(bodies, config, main, g.email, g.name) {
        assert g == pair[0] || g == pair[1];
      }
    }
  }

  lemma {:induction false} PlanEachNamed(bodies: map<Uuid, BodyRow>, ids: seq<Uuid>, config: Config, main: Email,
      p: Pending)
    requires (forall id :: id in ids ==> id in bodies) && AllNamed(bodies, config, main, p.groups)
    ensures AllNamed(bodies, config, main, PlanEach(bodies, ids, config, p).groups)
  {
    hide PlanNext, AllNamed;
    if ids != [] {
      PlanEachNamed(bodies, ids[..|ids| - 1], config, main, p);
      PlanNextNamed(bodies, ids[|ids| - 1], config, main, PlanEach(bodies, ids[..|ids| - 1], config, p));
    }
  }

  lemma PendingNamed(bodies: map<Uuid, BodyRow>, config: Config, main: Email)
    requires BodiesUnique(bodies)
    ensures AllNamed(bodies, config, main, PlanPending(bodies, config, main).groups)
  {
    hide PlanEach, AllBodies, BodiesUnique, GroupEmail, GroupLabel;
    PlanEachNamed(bodies, AllBodies(bodies), config, main,
        Pending([PlannedGroup(main, config.mainGroupName, None, Leaders)], 0));
  }

  /** A run ensures groups under their right names only, each after asking about every
      pending group once. */
  lemma CallsAreNamed(prov: Provisioner, bodies: map<Uuid, BodyRow>, bootstrapped: bool, config: Config, main: Email,
      dryRun: bool)
    requires BodiesUnique(bodies)
    ensures var r, groups :=
        Provision.Provision(prov, bodies, bootstrapped, config, main, dryRun), PlanPending(bodies, config, main).groups;
            && (forall k :: 0 <= k < |r.log| && r.log[k].Ensured? ==>
                  IsNamed(bodies, config, main, r.log[k].email, r.log[k].name))
            && (r.Provisioned? ==>
                  r.log == if TripwireRefuses(bootstrapped, |Missing(prov, groups)|, config.cap) then Questions(groups)
                           else Questions(groups) + Ensures(groups))
  {
    hide PlanPending, SizeUp, EnsureEach, LinkEach, Emails, AlreadyLinked, BodiesUnique, IsNamed, Missing,
        SaidMissing, Answer, EnsuredAt, Questions, Ensures;
    var pending := PlanPending(bodies, config, main);
    var groups := pending.groups;
    var sized := SizeUp(prov, groups, Sizing([], [], false));
    PendingNamed(bodies, config, main);
    SizedUp(prov, groups, Sizing([], [], false));
    SizedUpExactly(prov, groups);
    if !sized.aborted {
      EnsuredSoFar(prov, groups, |groups|, Emails(sized.missing), StartEnsuring(sized.log, pending.nameFailures));
      assert groups[..|groups|] == groups;
      EnsuresNamed(bodies, config, main, groups);
      QuestionsAsk(groups);
    }
  }

  lemma QuestionsAsk(groups: seq<PlannedGroup>)
    ensures forall k :: 0 <= k < |Questions(groups)| ==> Questions(groups)[k].Asked?
  {
  }

  lemma EnsuresNamed(bodies: map<Uuid, BodyRow>, config: Config, main: Email, groups: seq<PlannedGroup>)
    requires AllNamed(bodies, config, main, groups)
    ensures forall k :: 0 <= k < |Ensures(groups)| && Ensures(groups)[k].Ensured? ==>
        IsNamed(bodies, config, main, Ensures(groups)[k].email, Ensures(groups)[k].name)
  {
    hide IsNamed;
  }

  // ------------------------------------------------------------------ the links

  /** A body changed by the link writes holds its own two addresses. */
  ghost predicate LinkedRight(bodies: map<Uuid, BodyRow>, after: map<Uuid, BodyRow>, config: Config) {
    forall b :: b in bodies && b in after && after[b] != bodies[b] ==>
      && after[b].leaderGroup == AddressOf(bodies[b], Leaders, config)
      && after[b].memberGroup == AddressOf(bodies[b], Editors, config)
  }

  lemma {:induction false} LinksRight(links: Links, order: seq<Uuid>, dryRun: bool, bodies: map<Uuid, BodyRow>,
      config: Config, failed: nat)
    requires (forall id :: id in order ==> id in links) && LinksAddresses(bodies, config, links)
    ensures LinkedRight(bodies, LinkEach(links, order, dryRun, Linking(bodies, failed)).bodies, config)
  {
    hide AddressOf, Taken;
    if order != [] {
      LinksRight(links, order[..|order| - 1], dryRun, bodies, config, failed);
    }
  }

  /** A body a run links holds its leaders' address in its leader column and its editors'
      in its member column, each as its name and type give it. */
  lemma LinkedAsNamed(prov: Provisioner, bodies: map<Uuid, BodyRow>, bootstrapped: bool, config: Config, main: Email,
      dryRun: bool, b: Uuid)
    requires BodiesUnique(bodies) && LinksWhole(bodies) && LinksUnique(bodies)
    requires var r := Provision.Provision(prov, bodies, bootstrapped, config, main, dryRun);
             r.Provisioned? && b in bodies && b in r.bodies && r.bodies[b] != bodies[b]
    ensures var row := Provision.Provision(prov, bodies, bootstrapped, config, main, dryRun).bodies[b];
            && row.leaderGroup.Some? && row.memberGroup.Some?
            && row.leaderGroup == GroupEmail(bodies[b].name, bodies[b].bodyType, Leaders, config.domain)
            && row.memberGroup == GroupEmail(bodies[b].name, bodies[b].bodyType, Editors, config.domain)
            && (exists local :: row.leaderGroup.value == local + "-leaders" + "@" + config.domain)
            && (exists local :: row.memberGroup.value == local + "-editors" + "@" + config.domain)
  {
    hide PlanPending, SizeUp, EnsureEach, LinkEach, Emails, AlreadyLinked, LinkedRight, Provision.Provision, GroupEmail,
        BodiesUnique, LinksUnique, AllBodies;
    LinksNeverRepointed(prov, bodies, bootstrapped, config, main, dryRun);
    RunLinksRight(prov, bodies, bootstrapped, config, main, dryRun);
    var row := Provision.Provision(prov, bodies, bootstrapped, config, main, dryRun).bodies[b];
    LinkedOne(bodies, Provision.Provision(prov, bodies, bootstrapped, config, main, dryRun).bodies, config, b);
    EndsInKind(bodies[b].name, bodies[b].bodyType, Leaders, config.domain);
    EndsInKind(bodies[b].name, bodies[b].bodyType, Editors, config.domain);
  }

  lemma LinkedOne(bodies: map<Uuid, BodyRow>, after: map<Uuid, BodyRow>, config: Config, b: Uuid)
    requires LinkedRight(bodies, after, config) && b in bodies && b in after && after[b] != bodies[b]
    requires !IsLinked(bodies[b])
    ensures after[b].leaderGroup == GroupEmail(bodies[b].name, bodies[b].bodyType, Leaders, config.domain)
    ensures after[b].memberGroup == GroupEmail(bodies[b].name, bodies[b].bodyType, Editors, config.domain)
  {
    hide GroupEmail;
  }

  lemma RunLinksRight(prov: Provisioner, bodies: map<Uuid, BodyRow>, bootstrapped: bool, config: Config, main: Email,
      dryRun: bool)
    requires BodiesUnique(bodies)
    ensures var r := Provision.Provision(prov, bodies, bootstrapped, config, main, dryRun);
            r.Provisioned? ==> LinkedRight(bodies, r.bodies, config)
  {
    hide PlanPending, SizeUp, EnsureEach, LinkEach, Emails, AlreadyLinked, BodiesUnique, AddressOf, IsLinked,
        PlansAddresses;
    var pending := PlanPending(bodies, config, main);
    var sized := SizeUp(prov, pending.groups, Sizing([], [], false));
    var start := StartEnsuring(sized.log, pending.nameFailures);
    var e := EnsureEach(prov, pending.groups, Emails(sized.missing), start);
    PendingAddresses(bodies, config, main);
    NoLinks(bodies, config);
    hide LinksAddresses;
    EnsureEachAddresses(prov, pending.groups, Emails(sized.missing), start, bodies, config);
    ProvisionedBodies(prov, bodies, bootstrapped, config, main, dryRun);
    LinksRight(e.links, e.order, dryRun, bodies, config, e.failed);
    NothingLinkedWrong(bodies, config);
  }

  lemma NoLinks(bodies: map<Uuid, BodyRow>, config: Config)
    ensures LinksAddresses(bodies, config, map[])
  {
  }

  lemma NothingLinkedWrong(bodies: map<Uuid, BodyRow>, config: Config)
    ensures LinkedRight(bodies, bodies, config)
  {
  }

  lemma EndsInKind(name: string, bodyType: string, kind: GroupKind, domain: string)
    ensures var a, end := GroupEmail(name, bodyType, kind, domain), if kind == Leaders then "-leaders" else "-editors";
            a.Some? ==> exists local :: a.value == local + end + "@" + domain
  {
    hide GroupEmail, DashedWords, WordInitials;
    EmailInWords(name, bodyType, kind, domain);
    var end := if kind == Leaders then "-leaders" else "-editors";
    var a := GroupEmail(name, bodyType, kind, domain);
    if a.Some? {
      var one := DashedWords(name) + "-" + DashedWords(bodyType);
      var two, three :=
          DashedWords(name) + "-" + WordInitials(bodyType), WordInitials(name) + "-" + WordInitials(bodyType);
      assert a.value == one + end + "@" + domain || a.value == two + end + "@" + domain
          || a.value == three + end + "@" + domain;
    }
  }

  // ------------------------------------------------------------------ the report

  predicate Has(seen: Seen, key: string, value: string) {
    key in seen.settings && seen.settings[key] == value
  }

  /** Who may join it, see it and bring others in. */
  predicate WhoMayJoin(seen: Seen) {
    && Has(seen, "whoCanJoin", "INVITED_CAN_JOIN")
    && Has(seen, "whoCanViewMembership", "ALL_OWNERS_CAN_VIEW")
    && Has(seen, "whoCanViewGroup", "ALL_OWNERS_CAN_VIEW")
    && Has(seen, "whoCanInvite", "ALL_OWNERS_CAN_INVITE")
    && Has(seen, "whoCanAdd", "ALL_OWNERS_CAN_ADD")
  }

  /** Who may write to it, leave it, and reach its owners. */
  predicate WhoMayPost(seen: Seen) {
    && Has(seen, "whoCanPostMessage", "ALL_OWNERS_CAN_POST")
    && Has(seen, "whoCanLeaveGroup", "NONE_CAN_LEAVE")
    && Has(seen, "whoCanContactOwner", "ALL_OWNERS_CAN_CONTACT")
  }

  /** What is closed and what is listed. */
  predicate WhatIsShown(seen: Seen) {
    && Has(seen, "allowExternalMembers", "false")
    && Has(seen, "allowWebPosting", "false")
    && Has(seen, "showInGroupDirectory", "false")
    && Has(seen, "includeInGlobalAddressList", "false")
  }

  /** How it is moderated. */
  predicate HowModerated(seen: Seen) {
    && Has(seen, "membersCanPostAsTheGroup", "false")
    && Has(seen, "messageModerationLevel", "MODERATE_ALL_MESSAGES")
    && Has(seen, "spamModerationLevel", "REJECT")
  }

  /** An adopted group as it should be: these fifteen settings, and the labels of a
      discussion forum, a security group, and nothing else. */
  predicate Secure(seen: Seen) {
    && WhoMayJoin(seen) && WhoMayPost(seen) && WhatIsShown(seen) && HowModerated(seen)
    && seen.labels == map[
         "cloudidentity.googleapis.com/groups.discussion_forum" := "",
         "cloudidentity.googleapis.com/groups.security" := ""]
  }

  ghost predicate SettingsKept(seen: Seen) {
    forall k :: k in SECURE_SETTINGS ==> Has(seen, k, SECURE_SETTINGS[k])
  }

  lemma KeptWhoMayJoin(seen: Seen)
    requires SettingsKept(seen)
    ensures WhoMayJoin(seen)
  {
    hide Has;
    assert "whoCanJoin" in SECURE_SETTINGS
        && SECURE_SETTINGS["whoCanJoin"] == "INVITED_CAN_JOIN";
    assert "whoCanViewMembership" in SECURE_SETTINGS
        && SECURE_SETTINGS["whoCanViewMembership"] == "ALL_OWNERS_CAN_VIEW";
    assert "whoCanViewGroup" in SECURE_SETTINGS
        && SECURE_SETTINGS["whoCanViewGroup"] == "ALL_OWNERS_CAN_VIEW";
    assert "whoCanInvite" in SECURE_SETTINGS
        && SECURE_SETTINGS["whoCanInvite"] == "ALL_OWNERS_CAN_INVITE";
    assert "whoCanAdd" in SECURE_SETTINGS
        && SECURE_SETTINGS["whoCanAdd"] == "ALL_OWNERS_CAN_ADD";
  }

  lemma KeptWhoMayPost(seen: Seen)
    requires SettingsKept(seen)
    ensures WhoMayPost(seen)
  {
    hide Has;
    assert "whoCanPostMessage" in SECURE_SETTINGS
        && SECURE_SETTINGS["whoCanPostMessage"] == "ALL_OWNERS_CAN_POST";
    assert "whoCanLeaveGroup" in SECURE_SETTINGS
        && SECURE_SETTINGS["whoCanLeaveGroup"] == "NONE_CAN_LEAVE";
    assert "whoCanContactOwner" in SECURE_SETTINGS
        && SECURE_SETTINGS["whoCanContactOwner"] == "ALL_OWNERS_CAN_CONTACT";
  }

  lemma KeptWhatIsShown(seen: Seen)
    requires SettingsKept(seen)
    ensures WhatIsShown(seen)
  {
    hide Has;
    assert "allowExternalMembers" in SECURE_SETTINGS
        && SECURE_SETTINGS["allowExternalMembers"] == "false";
    assert "allowWebPosting" in SECURE_SETTINGS
        && SECURE_SETTINGS["allowWebPosting"] == "false";
    assert "showInGroupDirectory" in SECURE_SETTINGS
        && SECURE_SETTINGS["showInGroupDirectory"] == "false";
    assert "includeInGlobalAddressList" in SECURE_SETTINGS
        && SECURE_SETTINGS["includeInGlobalAddressList"] == "false";
  }

  lemma KeptHowModerated(seen: Seen)
    requires SettingsKept(seen)
    ensures HowModerated(seen)
  {
    hide Has;
    assert "membersCanPostAsTheGroup" in SECURE_SETTINGS
        && SECURE_SETTINGS["membersCanPostAsTheGroup"] == "false";
    assert "messageModerationLevel" in SECURE_SETTINGS
        && SECURE_SETTINGS["messageModerationLevel"] == "MODERATE_ALL_MESSAGES";
    assert "spamModerationLevel" in SECURE_SETTINGS
        && SECURE_SETTINGS["spamModerationLevel"] == "REJECT";
  }

  lemma AllKept(seen: Seen, k: string)
    requires WhoMayJoin(seen) && WhoMayPost(seen) && WhatIsShown(seen) && HowModerated(seen) && k in SECURE_SETTINGS
    ensures Has(seen, k, SECURE_SETTINGS[k])
  {
    hide Has;
  }

  /** A group differs from the defaults exactly when it is not as it should be. */
  lemma DivergesExactly(seen: Seen)
    ensures Diverged(seen) <==> !Secure(seen)
  {
    hide WhoMayJoin, WhoMayPost, WhatIsShown, HowModerated;
    if SettingsKept(seen) {
      KeptWhoMayJoin(seen);
      KeptWhoMayPost(seen);
      KeptWhatIsShown(seen);
      KeptHowModerated(seen);
    }
    if Secure(seen) {
      forall k | k in SECURE_SETTINGS ensures Has(seen, k, SECURE_SETTINGS[k]) { AllKept(seen, k); }
    }
  }

  /** The groups ensured at an address Google never called missing. */
  ghost function Adopted(prov: Provisioner, groups: seq<PlannedGroup>): set<nat> {
    set k: nat | k < |groups| && EnsuredAt(prov, groups, k) && !SaidMissing(prov, groups, groups[k].email)
  }

  /** What Google showed of the k-th pending group when it was ensured. */
  function ShownAt(prov: Provisioner, groups: seq<PlannedGroup>, k: nat): Option<Seen>
    requires k < |groups|
  {
    prov.ensure(Questions(groups) + Ensures(groups[..k]), groups[k].email, groups[k].name)
  }

  ghost function AdoptedTo(prov: Provisioner, groups: seq<PlannedGroup>, n: nat, creating: set<Email>): set<nat>
    requires n <= |groups|
  {
    set k: nat | k < n && EnsuredAt(prov, groups, k) && groups[k].email !in creating
  }

  ghost function DivergedTo(prov: Provisioner, groups: seq<PlannedGroup>, n: nat, creating: set<Email>): set<nat>
    requires n <= |groups|
  {
    set k: nat | k < n && WrongAt(prov, groups, k, creating)
  }

  lemma AdoptedNext(prov: Provisioner, groups: seq<PlannedGroup>, n: nat, creating: set<Email>)
    requires n < |groups|
    ensures |AdoptedTo(prov, groups, n + 1, creating)| == |AdoptedTo(prov, groups, n, creating)|
        + (if EnsuredAt(prov, groups, n) && groups[n].email !in creating then 1 else 0)
  {
    hide EnsuredAt;
    var one: set<nat> := if EnsuredAt(prov, groups, n) && groups[n].email !in creating then {n} else {};
    assert AdoptedTo(prov, groups, n + 1, creating) == AdoptedTo(prov, groups, n, creating) + one;
  }

  /** The k-th pending group was adopted, and not as it should be. */
  predicate WrongAt(prov: Provisioner, groups: seq<PlannedGroup>, k: nat, creating: set<Email>)
    requires k < |groups|
  {
    var seen := ShownAt(prov, groups, k);
    seen.Some? && groups[k].email !in creating && !Secure(seen.value)
  }

  lemma DivergedNext(prov: Provisioner, groups: seq<PlannedGroup>, n: nat, creating: set<Email>)
    requires n < |groups|
    ensures |DivergedTo(prov, groups, n + 1, creating)| == |DivergedTo(prov, groups, n, creating)|
        + (if WrongAt(prov, groups, n, creating) then 1 else 0)
  {
    hide WrongAt;
    var one: set<nat> := if WrongAt(prov, groups, n, creating) then {n} else {};
    assert DivergedTo(prov, groups, n + 1, creating) == DivergedTo(prov, groups, n, creating) + one;
  }

  lemma CountsOnce(prov: Provisioner, groups: seq<PlannedGroup>, k: nat, creating: set<Email>, e: Ensuring)
    requires k < |groups| && e.log == Questions(groups) + Ensures(groups[..k])
    ensures var r := EnsureOne(prov, groups[k], creating, e);
            && r.adopted == e.adopted + (if EnsuredAt(prov, groups, k) && groups[k].email !in creating then 1 else 0)
            && r.diverged == e.diverged + (if WrongAt(prov, groups, k, creating) then 1 else 0)
  {
    hide Questions, Ensures, Diverged, Secure;
    if ShownAt(prov, groups, k).Some? {
      DivergesExactly(ShownAt(prov, groups, k).value);
    }
  }

  lemma {:induction false} CountedSoFar(prov: Provisioner, groups: seq<PlannedGroup>, n: nat, creating: set<Email>,
      e: Ensuring)
    requires n <= |groups| && e.log == Questions(groups)
    ensures var r := EnsureEach(prov, groups[..n], creating, e);
            && r.adopted == e.adopted + |AdoptedTo(prov, groups, n, creating)|
            && r.diverged == e.diverged + |DivergedTo(prov, groups, n, creating)|
  {
    hide Questions, EnsureOne, EnsuredAt, WrongAt, AdoptedTo, DivergedTo, Ensures;
    if n == 0 {
      NoneCounted(prov, groups, creating);
    } else {
      CountedSoFar(prov, groups, n - 1, creating, e);
      EnsuredSoFar(prov, groups, n - 1, creating, e);
      assert groups[..n][..n - 1] == groups[..n - 1] && groups[..n][n - 1] == groups[n - 1];
      CountsOnce(prov, groups, n - 1, creating, EnsureEach(prov, groups[..n - 1], creating, e));
      AdoptedNext(prov, groups, n - 1, creating);
      DivergedNext(prov, groups, n - 1, creating);
    }
  }

  lemma NoneCounted(prov: Provisioner, groups: seq<PlannedGroup>, creating: set<Email>)
    ensures AdoptedTo(prov, groups, 0, creating) == {} && DivergedTo(prov, groups, 0, creating) == {}
  {
  }

  /** The adopted that are not as they should be. */
  ghost function Wrong(prov: Provisioner, groups: seq<PlannedGroup>): set<nat> {
    set k: nat | k in Adopted(prov, groups) && ShownAt(prov, groups, k).Some?
                 && !Secure(ShownAt(prov, groups, k).value)
  }

  /** What a run that goes through reports beside the groups created: those adopted, the
      adopted that are not as they should be, and the bodies linked before. */
  lemma ReportedExactly(prov: Provisioner, bodies: map<Uuid, BodyRow>, bootstrapped: bool, config: Config, main: Email,
      dryRun: bool)
    requires BodiesUnique(bodies)
    requires Provision.Provision(prov, bodies, bootstrapped, config, main, dryRun).Provisioned?
    ensures var r, groups :=
        Provision.Provision(prov, bodies, bootstrapped, config, main, dryRun), PlanPending(bodies, config, main).groups;
            var linked := set b | b in bodies && bodies[b].leaderGroup.Some? && bodies[b].memberGroup.Some?;
            var refuses := bootstrapped && |Missing(prov, groups)| > config.cap;
            && r.report.alreadyLinked == |linked|
            && r.report.adopted == (if refuses then 0 else |Adopted(prov, groups)|)
            && r.report.diverged == (if refuses then 0 else |Wrong(prov, groups)|)
            && r.report.refusedOverCap == (if refuses then |Missing(prov, groups)| else 0)
  {
    hide PlanPending, SizeUp, EnsureEach, LinkEach, Emails, AlreadyLinked, BodiesUnique, SaidMissing, EnsuredAt, Answer,
        Questions, ShownAt, Secure, Missing, Adopted, Wrong;
    var pending := PlanPending(bodies, config, main);
    var sized := SizeUp(prov, pending.groups, Sizing([], [], false));
    LinkedAlready(bodies);
    SizedUpExactly(prov, pending.groups);
    CountedAll(prov, pending.groups, Emails(sized.missing), StartEnsuring(sized.log, pending.nameFailures));
  }

  lemma CountedAll(prov: Provisioner, groups: seq<PlannedGroup>, creating: set<Email>, e: Ensuring)
    requires e.log == Questions(groups) && e.adopted == 0 && e.diverged == 0
    requires forall email :: email in creating <==> SaidMissing(prov, groups, email)
    ensures var r := EnsureEach(prov, groups, creating, e);
            r.adopted == |Adopted(prov, groups)| && r.diverged == |Wrong(prov, groups)|
  {
    hide EnsureEach, SaidMissing, EnsuredAt, Questions, ShownAt, Secure;
    CountedSoFar(prov, groups, |groups|, creating, e);
    assert groups[..|groups|] == groups;
    assert AdoptedTo(prov, groups, |groups|, creating) == Adopted(prov, groups);
    ShownMeans(prov, groups);
    assert DivergedTo(prov, groups, |groups|, creating) == Wrong(prov, groups);
  }

  lemma ShownMeans(prov: Provisioner, groups: seq<PlannedGroup>)
    ensures forall k: nat :: k < |groups| ==> (ShownAt(prov, groups, k).Some? <==> EnsuredAt(prov, groups, k))
  {
  }

  lemma LinkedAlready(bodies: map<Uuid, BodyRow>)
    ensures AlreadyLinked(bodies) == |set b | b in bodies && bodies[b].leaderGroup.Some? && bodies[b].memberGroup.Some?|
  {
    assert (set b | b in bodies && IsLinked(bodies[b])) ==
        set b | b in bodies && bodies[b].leaderGroup.Some? && bodies[b].memberGroup.Some?;
  }

  // ------------------------------------------------------------------ the order

  /** Bodies are taken by type, and by name within one. */
  lemma BodiesInOrder(bodies: map<Uuid, BodyRow>, i: nat, j: nat)
    requires BodiesUnique(bodies) && i < j < |AllBodies(bodies)|
    ensures var a, b := bodies[AllBodies(bodies)[i]], bodies[AllBodies(bodies)[j]];
            LexLeq(a.bodyType, b.bodyType) && (a.bodyType == b.bodyType ==> LexLeq(a.name, b.name))
  {
    hide LexLeq, BodiesUnique;
    ByTypeThenNameTotal(bodies);
    var ids := AllBodies(bodies);
    assert ids[i] in ids && ids[j] in ids;
    assert ByTypeThenName(bodies, ids[i], ids[j]);
    LexReflexive(bodies[ids[i]].bodyType);
  }

  lemma {:induction false} LexReflexive(s: string)
    ensures LexLeq(s, s)
  {
    if s != [] { LexReflexive(s[1..]); }
  }
}
