/**
 * The pure side of the dashboard (src/App.tsx): the new lists its handlers
 * compute, and the monthly/yearly spend that `calculateTotals` accumulates.
 *
 * A monthly item is billed `price` a month, so it adds `price` to the monthly
 * and `price * 12` to the yearly total; every other item is billed `price` a
 * year and adds `price / 12` to the monthly total. Arithmetic is exact.
 */
module SubscriptionList {
  import opened Types

  datatype Spend = Spend(monthly: real, yearly: real)
  {
    function Plus(other: Spend): Spend
    {
      Spend(monthly + other.monthly, yearly + other.yearly)
    }
  }

  /** Adding spends is associative and commutative. */
  lemma PlusLaws(a: Spend, b: Spend, c: Spend)
    ensures a.Plus(b).Plus(c) == a.Plus(b.Plus(c))
    ensures a.Plus(b) == b.Plus(a)
  {
  }

  /** What one item adds to the two totals. */
  function Contribution(s: Subscription): Spend
  {
    if s.billingCycle == Monthly then Spend(s.price, s.price * 12.0)
    else Spend(s.price / 12.0, s.price)
  }

  /**
   * Each item is counted once at the cadence it is billed on, and converted
   * exactly to the other cadence: its yearly share is twelve times its monthly share.
   */
  lemma ContributionConversion(s: Subscription)
    ensures Contribution(s).yearly == 12.0 * Contribution(s).monthly
    ensures s.billingCycle == Monthly ==> Contribution(s).monthly == s.price
    ensures s.billingCycle != Monthly ==> Contribution(s).yearly == s.price
    ensures s.price >= 0.0 ==> Contribution(s).monthly >= 0.0 && Contribution(s).yearly >= 0.0
  {
  }

  /** The totals over a list, folded front to back as `forEach` does. */
  function SpendOf(subs: seq<Subscription>): Spend
  {
    if |subs| == 0 then Spend(0.0, 0.0)
    else SpendOf(subs[..|subs| - 1]).Plus(Contribution(subs[|subs| - 1]))
  }

  /** The list kept by a delete: the items whose id differs, in their order. */
  function WithoutId(subs: seq<Subscription>, id: string): (r: seq<Subscription>)
    ensures |r| <= |subs|
    ensures forall x :: x in r <==> x in subs && x.id != id
  {
    if subs == [] then []
    else if subs[0].id == id then WithoutId(subs[1..], id)
    else [subs[0]] + WithoutId(subs[1..], id)
  }

  /** The list after an update: each item with the updated record's id is replaced by it. */
  function ReplaceById(subs: seq<Subscription>, updated: Subscription): (r: seq<Subscription>)
    ensures |r| == |subs|
    ensures forall i :: 0 <= i < |r| ==> r[i].id == subs[i].id
    ensures forall i :: 0 <= i < |r| ==> r[i] == if subs[i].id == updated.id then updated else subs[i]
  {
    if subs == [] then []
    else [if subs[0].id == updated.id then updated else subs[0]] + ReplaceById(subs[1..], updated)
  }

  // ---------------------------------------------------------------- spend

  /** The totals of a concatenation are the sums of the parts' totals. */
  lemma {:induction false} SpendOfConcat(a: seq<Subscription>, b: seq<Subscription>)
    ensures SpendOf(a + b) == SpendOf(a).Plus(SpendOf(b))
    decreases |b|
  {
    if |b| == 0 {
      assert a + b == a;
    } else {
      var b' := b[..|b| - 1];
      assert (a + b)[..|a + b| - 1] == a + b';
      SpendOfConcat(a, b');
    }
  }

  /** Taking one item out of a list takes its contribution out of the totals. */
  lemma SpendOfRemoveAt(b: seq<Subscription>, j: nat)
    requires j < |b|
    ensures SpendOf(b) == SpendOf(b[..j] + b[j + 1..]).Plus(Contribution(b[j]))
  {
    var pre, post := b[..j], b[j + 1..];
    assert b[..j + 1] == pre + [b[j]];
    assert b == b[..j + 1] + post;
    SpendOfConcat(b[..j + 1], post);
    SpendOfAppend(pre, b[j]);
    SpendOfConcat(pre, post);
    var p, q, c := SpendOf(pre), SpendOf(post), Contribution(b[j]);
    PlusLaws(p, c, q);
    PlusLaws(p, q, c);
    PlusLaws(c, q, p);
  }

  /** The totals do not depend on the order of the list. */
  lemma {:induction false} SpendOfPermutation(a: seq<Subscription>, b: seq<Subscription>)
    requires multiset(a) == multiset(b)
    ensures SpendOf(a) == SpendOf(b)
    decreases |a|
  {
    if |a| == 0 {
      assert |b| == |multiset(b)| == 0;
    } else {
      var a' := a[..|a| - 1];
      var j := RemovedAt(a, b);
      SpendOfPermutation(a', b[..j] + b[j + 1..]);
      SpendOfRemoveAt(b, j);
    }
  }

  /** Where the last item of `a` sits in its permutation `b`; the rest of `b` is a permutation of the rest of `a`. */
  lemma RemovedAt(a: seq<Subscription>, b: seq<Subscription>) returns (j: nat)
    requires |a| > 0 && multiset(a) == multiset(b)
    ensures j < |b| && b[j] == a[|a| - 1]
    ensures multiset(a[..|a| - 1]) == multiset(b[..j] + b[j + 1..])
  {
    var x := a[|a| - 1];
    assert a == a[..|a| - 1] + [x];
    assert x in multiset(b);
    j :| 0 <= j < |b| && b[j] == x;
    assert b == b[..j] + [x] + b[j + 1..];
    assert multiset(b) == multiset(b[..j] + b[j + 1..]) + multiset{x};
    assert multiset(b[..j] + b[j + 1..]) == multiset(b) - multiset{x};
    assert multiset(a[..|a| - 1]) == multiset(a) - multiset{x};
  }

  /** With no negative price, neither total is negative. */
  lemma {:induction false} SpendNonNegative(subs: seq<Subscription>)
    requires forall i :: 0 <= i < |subs| ==> subs[i].price >= 0.0
    ensures SpendOf(subs).monthly >= 0.0 && SpendOf(subs).yearly >= 0.0
  {
    if |subs| > 0 {
      SpendNonNegative(subs[..|subs| - 1]);
      ContributionConversion(subs[|subs| - 1]);
    }
  }

  /**
   * The conversion between the two cadences is exact and linear: the yearly
   * total is twelve times the monthly total for every list, whatever the mix
   * of billing cycles.
   */
  lemma {:induction false} YearlyIsTwelveTimesMonthly(subs: seq<Subscription>)
    ensures SpendOf(subs).yearly == 12.0 * SpendOf(subs).monthly
  {
    if |subs| > 0 {
      YearlyIsTwelveTimesMonthly(subs[..|subs| - 1]);
      ContributionConversion(subs[|subs| - 1]);
    }
  }

  /** One monthly item at 12 and one yearly item at 120 give 22 a month and 264 a year. */
  lemma SpendExample(m: Subscription, y: Subscription)
    requires m.billingCycle == Monthly && m.price == 12.0
    requires y.billingCycle == Yearly && y.price == 120.0
    ensures SpendOf([m, y]) == Spend(22.0, 264.0)
  {
    assert Yearly != Monthly;
    assert Contribution(m) == Spend(12.0, 144.0);
    assert Contribution(y) == Spend(10.0, 120.0);
    assert SpendOf([m]) == Spend(12.0, 144.0) by {
      assert [m][..0] == [];
    }
    assert [m, y][..1] == [m];
  }

  // ---------------------------------------------------------------- list operations

  /** Removing by id distributes over concatenation, so the kept items stay in their order. */
  lemma {:induction false} WithoutIdConcat(a: seq<Subscription>, b: seq<Subscription>, id: string)
    ensures WithoutId(a + b, id) == WithoutId(a, id) + WithoutId(b, id)
  {
    if a == [] {
      assert a + b == b;
    } else {
      assert (a + b)[1..] == a[1..] + b;
      WithoutIdConcat(a[1..], b, id);
    }
  }

  /** Removing by id leaves a list with no such id unchanged. */
  lemma {:induction false} WithoutIdAbsent(subs: seq<Subscription>, id: string)
    requires forall i :: 0 <= i < |subs| ==> subs[i].id != id
    ensures WithoutId(subs, id) == subs
  {
    if subs != [] {
      WithoutIdAbsent(subs[1..], id);
    }
  }

  /** Removing by id is idempotent. */
  lemma WithoutIdIdempotent(subs: seq<Subscription>, id: string)
    ensures WithoutId(WithoutId(subs, id), id) == WithoutId(subs, id)
  {
    var r := WithoutId(subs, id);
    forall i | 0 <= i < |r| ensures r[i].id != id {
      assert r[i] in r;
    }
    WithoutIdAbsent(r, id);
  }

  /** After a removal, the totals lose exactly the contributions of the removed items. */
  lemma {:induction false} SpendAfterRemoval(subs: seq<Subscription>, id: string)
    ensures SpendOf(subs) == SpendOf(WithoutId(subs, id)).Plus(SpendOf(OnlyId(subs, id)))
    decreases |subs|
  {
    if subs != [] {
      SpendAfterRemoval(subs[1..], id);
      SpendOfHead(subs);
      var c, k, d := Contribution(subs[0]), SpendOf(WithoutId(subs[1..], id)), SpendOf(OnlyId(subs[1..], id));
      if subs[0].id == id {
        SpendOfCons(subs[0], OnlyId(subs[1..], id));
        PlusLaws(c, k, d);
        PlusLaws(k, c, d);
      } else {
        SpendOfCons(subs[0], WithoutId(subs[1..], id));
        PlusLaws(c, k, d);
      }
    }
  }

  /** Appending an item adds its contribution. */
  lemma SpendOfAppend(subs: seq<Subscription>, x: Subscription)
    ensures SpendOf(subs + [x]) == SpendOf(subs).Plus(Contribution(x))
  {
    assert (subs + [x])[..|subs|] == subs;
  }

  /** The totals of a non-empty list: its first item's contribution plus the rest's totals. */
  lemma SpendOfHead(subs: seq<Subscription>)
    requires subs != []
    ensures SpendOf(subs) == Contribution(subs[0]).Plus(SpendOf(subs[1..]))
  {
    assert subs == [subs[0]] + subs[1..];
    SpendOfCons(subs[0], subs[1..]);
  }

  /** Prepending an item adds its contribution. */
  lemma SpendOfCons(x: Subscription, rest: seq<Subscription>)
    ensures SpendOf([x] + rest) == Contribution(x).Plus(SpendOf(rest))
  {
    SpendOfConcat([x], rest);
    assert [x][..0] == [];
  }

  /** A delete keeps each other item as often as it occurred, and drops every item with the id. */
  lemma {:induction false} WithoutIdCounts(subs: seq<Subscription>, id: string, x: Subscription)
    ensures multiset(WithoutId(subs, id))[x] == if x.id == id then 0 else multiset(subs)[x]
  {
    if subs != [] {
      WithoutIdCounts(subs[1..], id, x);
      assert subs == [subs[0]] + subs[1..];
    }
  }

  /** The items a removal by id takes away. */
  function OnlyId(subs: seq<Subscription>, id: string): (r: seq<Subscription>)
    ensures forall x :: x in r <==> x in subs && x.id == id
  {
    if subs == [] then []
    else if subs[0].id == id then [subs[0]] + OnlyId(subs[1..], id)
    else OnlyId(subs[1..], id)
  }

  /** Replacing by id with a record whose id is absent from the list changes nothing. */
  lemma ReplaceByIdAbsent(subs: seq<Subscription>, updated: Subscription)
    requires forall i :: 0 <= i < |subs| ==> subs[i].id != updated.id
    ensures ReplaceById(subs, updated) == subs
  {
  }
}
