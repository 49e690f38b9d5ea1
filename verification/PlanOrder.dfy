/** The order a plan takes its addresses in, and which lapsed ones its retry slots go to. */
module PlanOrder {
  import opened Basics
  import opened Plan

  ghost predicate Ascending(addresses: seq<string>) {
    forall i, j :: 0 <= i < j < |addresses| ==> LexLeq(addresses[i], addresses[j])
  }

  /** All of `addresses` come before all of `rest`. */
  ghost predicate Before(addresses: seq<string>, rest: seq<string>) {
    forall a, r :: a in addresses && r in rest ==> LexLeq(a, r)
  }

  /** A lapsed address left without a slot comes after every retried one, and is left
      only once the slots are spent. */
  ghost predicate FirstRetried(input: Inputs, o: Offers) {
    forall x :: x in Addresses(o.excluded) && x !in input.unmirrorable ==>
      |o.retried| >= input.retrySlots && forall r :: r in o.retried ==> LexLeq(r, x)
  }

  ghost predicate Ordered(input: Inputs, o: Offers, rest: seq<string>) {
    && Ascending(Addresses(o.adds)) && Ascending(Addresses(o.excluded))
    && Before(Addresses(o.adds), rest) && Before(Addresses(o.excluded), rest) && Before(o.retried, rest)
    && FirstRetried(input, o)
  }

  lemma AscendingMore(addresses: seq<string>, a: string)
    requires Ascending(addresses) && Before(addresses, [a])
    ensures Ascending(addresses + [a])
  {
    hide LexLeq;
    assert a in [a];
  }

  lemma BeforeNext(addresses: seq<string>, rest: seq<string>)
    requires rest != [] && Ascending(rest) && Before(addresses, rest)
    ensures Before(addresses, rest[1..]) && Before(addresses + [rest[0]], rest[1..]) && Before(addresses, [rest[0]])
  {
    hide LexLeq;
    forall r | r in rest[1..] ensures LexLeq(rest[0], r) && r in rest {
      var k :| 0 <= k < |rest[1..]| && rest[1..][k] == r;
      assert rest[k + 1] == r;
    }
  }

  lemma OrderedNext(input: Inputs, o: Offers, rest: seq<string>)
    requires rest != [] && rest[0] in input.desired && Ascending(rest) && Ordered(input, o, rest)
    ensures Ordered(input, OfferNext(input, rest[0], o), rest[1..])
  {
    hide LexLeq, Ascending, Keys;
    var planned := PlannedAdd(rest[0], input.desired[rest[0]]);
    BeforeNext(Addresses(o.adds), rest);
    BeforeNext(Addresses(o.excluded), rest);
    BeforeNext(o.retried, rest);
    AscendingMore(Addresses(o.adds), rest[0]);
    AscendingMore(Addresses(o.excluded), rest[0]);
    AddressesAppend(o.adds, planned);
    AddressesAppend(o.excluded, planned);
    assert rest[0] in [rest[0]];
  }

  lemma {:induction false} OrderedOn(input: Inputs, o: Offers, rest: seq<string>)
    requires (forall a :: a in rest ==> a in input.desired) && Ascending(rest) && Ordered(input, o, rest)
    ensures Ordered(input, OfferEach(input, rest, o), [])
    decreases |rest|
  {
    hide LexLeq, Ordered, OfferNext;
    if rest != [] {
      OrderedNext(input, o, rest);
      OrderedOn(input, OfferNext(input, rest[0], o), rest[1..]);
    } else {
      assert rest == [];
    }
  }

  /** A plan takes the desired addresses in alphabetical order, so that its retry slots go
      to the first lapsed ones missing: each one retried comes before each one left
      waiting for a slot. */
  lemma RetriesGoFirst(group: Email, input: Inputs)
    ensures var plan := PlanOf(group, input);
            && Ascending(Addresses(plan.adds)) && Ascending(Addresses(plan.excluded))
            && (forall r, x :: r in plan.retried && x in Addresses(plan.excluded) && x !in input.unmirrorable ==>
                  LexLeq(r, x))
  {
    hide LexLeq, OfferEach, Removals;
    var keys := SortedKeys(input.desired.Keys);
    OrderedOn(input, Offers([], [], []), keys);
  }

  /** A plan whose fuse holds removes every unwanted entry, in the order Google lists them. */
  lemma RemovesAreListed(group: Email, input: Inputs)
    ensures var plan := PlanOf(group, input);
            !plan.FuseTripped() ==> exists at :: TakenInTurn(input.actual, input.desired, at, plan.removes)
  {
    hide TakenInTurn, OfferEach, Unwanted;
    var at := RemovalsTaken(input.actual, input.desired);
  }
}
