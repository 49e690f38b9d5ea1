/** One group's plan: the diff of the desired addresses against Google's list,
    the recheck against fresh records, and what both promise. */
module Plan {
  import opened Basics

  const REMOVAL_FUSE_FLOOR := 5

  datatype Permission = Owner | Manager | Member | Other

  /** A member of a group, as Google lists it. */
  datatype Entry = Entry(email: Email, level: Permission, kind: Option<string>) {
    /** Only plain members are ever removable. */
    predicate Plain() {
      level.Member? && kind == Some("USER")
    }
  }

  datatype PlannedAdd = PlannedAdd(address: Email, memberId: Uuid)

  datatype GroupPlan = GroupPlan(
    groupEmail: Email, adds: seq<PlannedAdd>, removes: seq<Email>,
    excluded: seq<PlannedAdd>, retried: seq<Email>, refusedRemoves: nat)
  {
    predicate FuseTripped() {
      refusedRemoves > 0
    }
  }

  /** What a plan is made from. `desired` and the refusal sets are keyed by
      lower-cased address. */
  datatype Inputs = Inputs(
    desired: map<string, Uuid>, actual: seq<Entry>, unmirrorable: set<string>,
    lapsed: set<string>, retrySlots: int, allowMassRemoval: bool)

  function RemovalBudget(actualSize: nat): nat {
    Max(REMOVAL_FUSE_FLOOR, TenthRoundedUp(actualSize))
  }

  function Keys(actual: seq<Entry>): set<string> {
    set e | e in actual :: Norm(e.email)
  }

  // ----------------------------------------------------------------- planning

  /** The three lists the loop over the desired addresses fills. */
  datatype Offers = Offers(adds: seq<PlannedAdd>, excluded: seq<PlannedAdd>, retried: seq<Email>)

  function OfferNext(input: Inputs, address: string, o: Offers): Offers
    requires address in input.desired
  {
    var planned := PlannedAdd(address, input.desired[address]);
    if address in Keys(input.actual) then o
    else if address in input.unmirrorable then o.(excluded := o.excluded + [planned])
    else if address !in input.lapsed then o.(adds := o.adds + [planned])
    else if |o.retried| < input.retrySlots then o.(retried := o.retried + [address], adds := o.adds + [planned])
    else o.(excluded := o.excluded + [planned])
  }

  function OfferEach(input: Inputs, addresses: seq<string>, o: Offers): Offers
    requires forall a :: a in addresses ==> a in input.desired
    decreases |addresses|
  {
    if addresses == [] then o else OfferEach(input, addresses[1..], OfferNext(input, addresses[0], o))
  }

  predicate Removable(entry: Entry, desired: map<string, Uuid>) {
    entry.Plain() && Norm(entry.email) !in desired
  }

  function Removals(actual: seq<Entry>, desired: map<string, Uuid>): (r: seq<Email>)
    ensures |r| <= |actual|
    ensures forall a :: a in r ==> exists e :: e in actual && Removable(e, desired) && e.email == a
    ensures forall e :: e in actual && Removable(e, desired) ==> e.email in r
  {
    if actual == [] then []
    else
      var e, rest := actual[0], Removals(actual[1..], desired);
      assert actual == [e] + actual[1..];
      if Removable(e, desired) then [e.email] + rest else rest
  }

  function PlanOf(group: Email, input: Inputs): GroupPlan {
    var o := OfferEach(input, SortedKeys(input.desired.Keys), Offers([], [], []));
    var removes := Removals(input.actual, input.desired);
    var trips := |removes| > RemovalBudget(|input.actual|) && !input.allowMassRemoval;
    GroupPlan(group, o.adds, if trips then [] else removes, o.excluded, o.retried, if trips then |removes| else 0)
  }

  /** `plan_group`: fills its lists in one pass over the sorted addresses. */
  method PlanGroup(group: Email, input: Inputs) returns (plan: GroupPlan)
    ensures plan == PlanOf(group, input)
  {
    var present := Keys(input.actual);
    var adds, excluded, retried := [], [], [];
    var rest := SortedKeys(input.desired.Keys);
    while rest != []
      invariant forall a :: a in rest ==> a in input.desired
      invariant OfferEach(input, rest, Offers(adds, excluded, retried)) ==
                OfferEach(input, SortedKeys(input.desired.Keys), Offers([], [], []))
      decreases |rest|
    {
      var address := rest[0];
      var planned := PlannedAdd(address, input.desired[address]);
      if address !in present {
        if address in input.unmirrorable {
          excluded := excluded + [planned];
        } else if address !in input.lapsed {
          adds := adds + [planned];
        } else if |retried| < input.retrySlots {
          retried, adds := retried + [address], adds + [planned];
        } else {
          excluded := excluded + [planned];
        }
      }
      rest := rest[1..];
    }
    var removes := Removals(input.actual, input.desired);
    var fuseTrips := |removes| > RemovalBudget(|input.actual|) && !input.allowMassRemoval;
    plan := GroupPlan(group, adds, if fuseTrips then [] else removes, excluded, retried,
                      if fuseTrips then |removes| else 0);
  }

  // ---------------------------------------------------------- what a plan says

  function Addresses(adds: seq<PlannedAdd>): (r: seq<Email>)
    ensures |r| == |adds|
  {
    seq(|adds|, k requires 0 <= k < |adds| => adds[k].address)
  }

  lemma AddressesIn(adds: seq<PlannedAdd>, a: Email)
    ensures a in Addresses(adds) <==> exists p :: p in adds && p.address == a
  {
    if a in Addresses(adds) {
      var k :| 0 <= k < |adds| && Addresses(adds)[k] == a;
      assert adds[k] in adds;
    }
    if p :| p in adds && p.address == a {
      var k :| 0 <= k < |adds| && adds[k] == p;
      assert Addresses(adds)[k] == a;
    }
  }

  lemma AddressesAppend(adds: seq<PlannedAdd>, p: PlannedAdd)
    ensures Addresses(adds + [p]) == Addresses(adds) + [p.address]
  {
  }

  /** The lists once the addresses in `done` have been looked at. */
  ghost predicate OffersRight(input: Inputs, done: seq<string>, o: Offers) {
    var adds, excluded := Addresses(o.adds), Addresses(o.excluded);
    && (forall p :: p in o.adds + o.excluded ==> p.address in input.desired && p.memberId == input.desired[p.address])
    && NoDup(adds) && NoDup(o.retried)
    && |o.retried| <= Max(0, input.retrySlots)
    && (forall a :: a in o.retried <==> a in adds && a in input.lapsed)
    && (forall a :: a in adds ==> a in done && a !in Keys(input.actual) && a !in input.unmirrorable)
    && (forall a :: a in excluded ==> a in done && a !in Keys(input.actual) && a !in adds)
    && (forall a :: a in excluded && a !in input.unmirrorable ==> a in input.lapsed && |o.retried| >= input.retrySlots)
    && (forall a :: a in done && a !in Keys(input.actual) ==> a in adds || a in excluded)
  }

  lemma OfferNextRight(input: Inputs, done: seq<string>, address: string, o: Offers)
    requires address in input.desired && address !in done && OffersRight(input, done, o)
    ensures OffersRight(input, done + [address], OfferNext(input, address, o))
  {
    var planned := PlannedAdd(address, input.desired[address]);
    AddressesAppend(o.adds, planned);
    AddressesAppend(o.excluded, planned);
  }

  lemma {:induction false} OfferEachRight(input: Inputs, done: seq<string>, rest: seq<string>, o: Offers)
    requires NoDup(done + rest) && (forall a :: a in rest ==> a in input.desired) && OffersRight(input, done, o)
    ensures OffersRight(input, done + rest, OfferEach(input, rest, o))
    decreases |rest|
  {
    if rest == [] {
      assert done + rest == done;
    } else {
      assert done + rest == (done + [rest[0]]) + rest[1..];
      assert rest[0] !in done by {
        assert (done + rest)[|done|] == rest[0];
        assert forall k :: 0 <= k < |done| ==> (done + rest)[k] == done[k];
      }
      OfferNextRight(input, done, rest[0], o);
      hide OffersRight, OfferNext;
      OfferEachRight(input, done + [rest[0]], rest[1..], OfferNext(input, rest[0], o));
    }
  }

  /** What a plan's adds and exclusions are, told without the loop. */
  ghost predicate AddsRight(input: Inputs, plan: GroupPlan) {
    var adds, excluded := Addresses(plan.adds), Addresses(plan.excluded);
    && (forall p ::
           p in plan.adds + plan.excluded ==> p.address in input.desired && p.memberId == input.desired[p.address])
    && NoDup(adds) && NoDup(plan.retried)
    && |plan.retried| <= Max(0, input.retrySlots)
    && (forall a :: a in plan.retried <==> a in adds && a in input.lapsed)
    && (forall a :: a in adds ==> a !in Keys(input.actual) && a !in input.unmirrorable)
    && (forall a :: a in excluded ==> a !in Keys(input.actual) && a !in adds)
    && (forall a ::
           a in excluded && a !in input.unmirrorable ==> a in input.lapsed && |plan.retried| >= input.retrySlots)
    && (forall a :: a in input.desired && a !in Keys(input.actual) ==> a in adds || a in excluded)
  }

  /** Every desired address Google lacks is offered once or withheld, never both;
      it is withheld exactly for a live refusal or for want of a retry slot, and a
      retry is spent on each lapsed address offered and on nothing else. */
  lemma PlanPartitionsDesired(group: Email, input: Inputs)
    ensures AddsRight(input, PlanOf(group, input))
  {
    var keys, none := SortedKeys(input.desired.Keys), Offers([], [], []);
    NothingOffered(input);
    hide OffersRight, OfferEach, SortedKeys, AddsRight, NoDup, Removals;
    assert [] + keys == keys;
    OfferEachRight(input, [], keys, none);
    OffersMakePlan(input, keys, OfferEach(input, keys, none), PlanOf(group, input));
  }

  lemma NothingOffered(input: Inputs)
    ensures OffersRight(input, [], Offers([], [], []))
  {
  }

  lemma OffersMakePlan(input: Inputs, done: seq<string>, o: Offers, plan: GroupPlan)
    requires OffersRight(input, done, o) && forall a :: a in input.desired ==> a in done
    requires plan.adds == o.adds && plan.excluded == o.excluded && plan.retried == o.retried
    ensures AddsRight(input, plan)
  {
    hide Keys;
  }

  /** An entry for a plain member nobody desires, by the listing's columns. */
  predicate Unwanted(e: Entry, desired: map<string, Uuid>) {
    e.level == Permission.Member && e.kind == Some("USER") && Norm(e.email) !in desired
  }

  /** Where a listing has such entries. */
  function UnwantedIn(actual: seq<Entry>, desired: map<string, Uuid>): set<nat> {
    set k: nat | k < |actual| && Unwanted(actual[k], desired)
  }

  lemma UnwantedMeans(desired: map<string, Uuid>)
    ensures forall e :: Removable(e, desired) <==> Unwanted(e, desired)
  {
  }

  /** `removes` are the addresses of the unwanted entries at `at`, which are all of them,
      first to last. */
  ghost predicate TakenInTurn(actual: seq<Entry>, desired: map<string, Uuid>, at: seq<nat>, removes: seq<Email>) {
    && |at| == |removes|
    && (forall i, j :: 0 <= i < j < |at| ==> at[i] < at[j])
    && (forall i :: 0 <= i < |at| ==> at[i] < |actual| && removes[i] == actual[at[i]].email)
    && (forall k: nat :: k in at <==> k < |actual| && Unwanted(actual[k], desired))
  }

  function Shift(at: seq<nat>): (r: seq<nat>)
    ensures |r| == |at| && forall k: nat :: k in r <==> k > 0 && k - 1 in at
  {
    if at == [] then [] else [at[0] + 1] + Shift(at[1..])
  }

  lemma {:induction false} ShiftAt(at: seq<nat>, i: nat)
    requires i < |at|
    ensures Shift(at)[i] == at[i] + 1
  {
    if i > 0 {
      ShiftAt(at[1..], i - 1);
    }
  }

  lemma TakenFirst(e: Entry, actual: seq<Entry>, desired: map<string, Uuid>, at: seq<nat>, removes: seq<Email>)
    requires TakenInTurn(actual, desired, at, removes) && Unwanted(e, desired)
    ensures TakenInTurn([e] + actual, desired, [0] + Shift(at), [e.email] + removes)
  {
    hide Shift, Unwanted;
    forall i | 0 <= i < |at| ensures Shift(at)[i] == at[i] + 1 {
      ShiftAt(at, i);
    }
  }

  lemma PassedOver(e: Entry, actual: seq<Entry>, desired: map<string, Uuid>, at: seq<nat>, removes: seq<Email>)
    requires TakenInTurn(actual, desired, at, removes) && !Unwanted(e, desired)
    ensures TakenInTurn([e] + actual, desired, Shift(at), removes)
  {
    hide Shift, Unwanted;
    forall i | 0 <= i < |at| ensures Shift(at)[i] == at[i] + 1 {
      ShiftAt(at, i);
    }
  }

  lemma RemovalsNext(actual: seq<Entry>, desired: map<string, Uuid>)
    requires actual != []
    ensures actual == [actual[0]] + actual[1..]
    ensures Removals(actual, desired) ==
            (if Unwanted(actual[0], desired) then [actual[0].email] else []) + Removals(actual[1..], desired)
  {
  }

  lemma {:induction false} RemovalsTaken(actual: seq<Entry>, desired: map<string, Uuid>) returns (at: seq<nat>)
    ensures TakenInTurn(actual, desired, at, Removals(actual, desired))
  {
    if actual == [] {
      return [];
    }
    var later := RemovalsTaken(actual[1..], desired);
    var removes := Removals(actual[1..], desired);
    RemovalsNext(actual, desired);
    hide TakenInTurn, Unwanted, Shift, Removals;
    if Unwanted(actual[0], desired) {
      TakenFirst(actual[0], actual[1..], desired, later, removes);
      at := [0] + Shift(later);
    } else {
      PassedOver(actual[0], actual[1..], desired, later, removes);
      at := Shift(later);
    }
  }

  lemma RemovalsCounted(actual: seq<Entry>, desired: map<string, Uuid>)
    ensures |Removals(actual, desired)| == |UnwantedIn(actual, desired)|
  {
    hide Unwanted, Removals;
    var at := RemovalsTaken(actual, desired);
    assert NoDup(at);
    NoDupSize(at);
    assert ToSet(at) == UnwantedIn(actual, desired);
  }

  /** Removals few enough to make without permission: at most five, or at most a tenth
      of the listed entries, rounded up. */
  predicate FewEnough(removals: nat, listed: nat) {
    removals <= 5 || 10 * (removals - 1) < listed
  }

  lemma BudgetMeans(removals: nat, listed: nat)
    ensures removals <= RemovalBudget(listed) <==> FewEnough(removals, listed)
  {
  }

  /** No plan removes an owner, a manager, a nested group or a desired address. Without
      permission the fuse trips exactly when the entries to remove are more than five
      and more than a tenth of those listed, rounded up; then all of them are refused,
      and otherwise each is removed. */
  lemma PlanRemovesSafely(group: Email, input: Inputs)
    ensures var plan := PlanOf(group, input);
            var unwanted, listed := |UnwantedIn(input.actual, input.desired)|, |input.actual|;
            var trips := !input.allowMassRemoval && unwanted > 5 && 10 * (unwanted - 1) >= listed;
            && (forall r :: r in plan.removes ==>
                  exists e :: e in input.actual && e.email == r && Unwanted(e, input.desired))
            && |plan.removes| == (if trips then 0 else unwanted)
            && plan.refusedRemoves == (if trips then unwanted else 0)
            && (!trips ==> forall e :: e in input.actual && Unwanted(e, input.desired) ==> e.email in plan.removes)
            && (!input.allowMassRemoval ==> FewEnough(|plan.removes|, listed))
  {
    hide Removals, Unwanted, Removable, OfferEach, SortedKeys, UnwantedIn;
    UnwantedMeans(input.desired);
    RemovalsCounted(input.actual, input.desired);
    BudgetMeans(|Removals(input.actual, input.desired)|, |input.actual|);
  }

  // ----------------------------------------------------------------- recheck

  function Still(adds: seq<PlannedAdd>, current: set<string>): (r: seq<PlannedAdd>)
    ensures |r| <= |adds| && forall p :: p in r <==> p in adds && Norm(p.address) in current
  {
    if adds == [] then []
    else
      assert adds == [adds[0]] + adds[1..];
      (if Norm(adds[0].address) in current then [adds[0]] else []) + Still(adds[1..], current)
  }

  function Kept(addresses: seq<Email>, current: set<string>, wanted: bool): (r: seq<Email>)
    ensures |r| <= |addresses| && forall a :: a in r <==> a in addresses && ((Norm(a) in current) == wanted)
  {
    if addresses == [] then []
    else
      assert addresses == [addresses[0]] + addresses[1..];
      (if (Norm(addresses[0]) in current) == wanted then [addresses[0]] else []) + Kept(addresses[1..], current, wanted)
  }

  /** `_recheck`: drops what a panel write since the snapshot has outdated. */
  function Recheck(plan: GroupPlan, current: set<string>): GroupPlan {
    GroupPlan(plan.groupEmail, Still(plan.adds, current), Kept(plan.removes, current, false),
              Still(plan.excluded, current), Kept(plan.retried, current, true), plan.refusedRemoves)
  }

  /** A recheck keeps, of each list, exactly what the fresh records still bear out. */
  lemma RecheckedExactly(plan: GroupPlan, current: set<string>)
    ensures var r := Recheck(plan, current);
            && r.groupEmail == plan.groupEmail && r.refusedRemoves == plan.refusedRemoves
            && (forall p :: p in r.adds <==> p in plan.adds && Norm(p.address) in current)
            && (forall p :: p in r.excluded <==> p in plan.excluded && Norm(p.address) in current)
            && (forall a :: a in r.removes <==> a in plan.removes && Norm(a) !in current)
            && (forall a :: a in r.retried <==> a in plan.retried && Norm(a) in current)
  {
  }

  lemma {:induction false} StillDistinct(adds: seq<PlannedAdd>, current: set<string>)
    requires NoDup(Addresses(adds))
    ensures NoDup(Addresses(Still(adds, current)))
  {
    if adds != [] {
      var first, rest := adds[0], adds[1..];
      var still := Still(rest, current);
      assert Addresses(adds)[0] == first.address && Addresses(adds)[1..] == Addresses(rest);
      StillDistinct(rest, current);
      forall k | 0 <= k < |still| ensures still[k].address != first.address {
        assert still[k] in still && still[k] in rest;
        AddressesIn(rest, still[k].address);
      }
      hide NoDup;
      assert Still(adds, current) == (if Norm(first.address) in current then [first] else []) + still;
      DistinctBefore(first, still);
    }
  }

  lemma DistinctBefore(first: PlannedAdd, still: seq<PlannedAdd>)
    requires NoDup(Addresses(still)) && forall k :: 0 <= k < |still| ==> still[k].address != first.address
    ensures NoDup(Addresses([first] + still)) && NoDup(Addresses([] + still))
  {
    assert Addresses([first] + still) == [first.address] + Addresses(still);
    assert [] + still == still;
  }

  /** Nothing is left to do or to withhold. */
  predicate Idle(plan: GroupPlan) {
    |plan.adds| == 0 && |plan.removes| == 0 && |plan.excluded| == 0
  }

  lemma {:induction false} StillAll(adds: seq<PlannedAdd>, current: set<string>)
    requires forall p :: p in adds ==> Norm(p.address) in current
    ensures Still(adds, current) == adds
  {
    if adds != [] {
      StillAll(adds[1..], current);
      assert adds == [adds[0]] + adds[1..];
    }
  }

  lemma {:induction false} KeptAll(addresses: seq<Email>, current: set<string>, wanted: bool)
    requires forall a :: a in addresses ==> (Norm(a) in current) == wanted
    ensures Kept(addresses, current, wanted) == addresses
  {
    if addresses != [] {
      KeptAll(addresses[1..], current, wanted);
      assert addresses == [addresses[0]] + addresses[1..];
    }
  }

  /** With unchanged records the recheck changes no plan. */
  lemma RecheckUnchanged(group: Email, input: Inputs)
    requires forall a :: a in input.desired ==> Norm(a) == a
    ensures Recheck(PlanOf(group, input), input.desired.Keys) == PlanOf(group, input)
  {
    var plan, current := PlanOf(group, input), input.desired.Keys;
    PlanPartitionsDesired(group, input);
    PlanRemovesSafely(group, input);
    hide PlanOf;
    assert forall p :: p in plan.adds ==> p in plan.adds + plan.excluded;
    assert forall p :: p in plan.excluded ==> p in plan.adds + plan.excluded;
    forall a | a in plan.retried ensures Norm(a) in current { AddressesIn(plan.adds, a); }
    StillAll(plan.adds, current);
    StillAll(plan.excluded, current);
    KeptAll(plan.removes, current, false);
    KeptAll(plan.retried, current, true);
  }
}
