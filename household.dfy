/**
 * The household records the needs analysis reads and the wizard edits:
 * children with their education costs, insurance policies with their
 * owners, and the sums the analysis takes over them.
 */
module Household {
  import opened Wrappers

  /** A child; `cost` is None when the entered value is not a number. */
  datatype Child = Child(name: string, dob: string, cost: Option<real>)

  /** Who a policy belongs to: 'spouse1', 'spouse2', or anything else. */
  datatype Owner = Spouse1 | Spouse2 | OtherOwner

  datatype Policy = Policy(owner: Owner, kind: string, amount: Option<real>)

  /** `Number(x) || 0`: a missing or non-numeric value counts as 0. */
  function NumberOrZero(x: Option<real>): real
  {
    match x
    case Some(v) => v
    case None => 0.0
  }

  function ChildCost(c: Child): real
  {
    NumberOrZero(c.cost)
  }

  function PolicyAmount(p: Policy): real
  {
    NumberOrZero(p.amount)
  }

  /** `s.reduce((sum, x) => sum + f(x), 0)`: the left-to-right total. */
  function SumOf<T>(s: seq<T>, f: T -> real): real
  {
    if s == [] then 0.0 else SumOf(s[..|s| - 1], f) + f(s[|s| - 1])
  }

  /** The total of the children's education costs. */
  function EducationTotal(children: seq<Child>): real
  {
    SumOf(children, ChildCost)
  }

  /** `policies.filter(p => p.owner === owner)`. */
  function OwnedBy(policies: seq<Policy>, owner: Owner): (r: seq<Policy>)
  {
    if policies == [] then []
    else
      var rest := OwnedBy(policies[..|policies| - 1], owner);
      var last := policies[|policies| - 1];
      if last.owner == owner then rest + [last] else rest
  }

  /** The insurance a spouse already holds: the amounts of the policies they own. */
  function Insurance(policies: seq<Policy>, owner: Owner): real
  {
    SumOf(OwnedBy(policies, owner), PolicyAmount)
  }

  lemma {:induction false} SumOfAppend<T>(a: seq<T>, b: seq<T>, f: T -> real)
    ensures SumOf(a + b, f) == SumOf(a, f) + SumOf(b, f)
  {
    if b == [] {
      assert a + b == a;
    } else {
      assert (a + b)[..|a + b| - 1] == a + b[..|b| - 1];
      SumOfAppend(a, b[..|b| - 1], f);
    }
  }

  /** The total does not depend on the order of the elements. */
  lemma {:induction false} SumOfPermutation<T>(a: seq<T>, b: seq<T>, f: T -> real)
    requires multiset(a) == multiset(b)
    ensures SumOf(a, f) == SumOf(b, f)
    decreases |a|
  {
    if a != [] {
      var x := a[|a| - 1];
      assert x in multiset(b);
      var i :| 0 <= i < |b| && b[i] == x;
      var rest := b[..i] + b[i + 1..];
      assert b == b[..i] + [x] + b[i + 1..];
      assert a == a[..|a| - 1] + [x];
      assert multiset(a[..|a| - 1]) == multiset(rest) by {
        calc {
          multiset(a[..|a| - 1]) + multiset{x};
          multiset(a);
          multiset(b);
          multiset(b[..i]) + multiset{x} + multiset(b[i + 1..]);
          multiset(rest) + multiset{x};
        }
        var m1, m2 := multiset(a[..|a| - 1]), multiset(rest);
        assert m1 == (m1 + multiset{x}) - multiset{x};
        assert m2 == (m2 + multiset{x}) - multiset{x};
      }
      SumOfPermutation(a[..|a| - 1], rest, f);
      SumOfAppend(b[..i] + [x], b[i + 1..], f);
      SumOfAppend(b[..i], [x], f);
      SumOfAppend(b[..i], b[i + 1..], f);
      assert SumOf([x], f) == f(x) by {
        assert [x][..0] == [];
      }
    }
  }

  lemma {:induction false} OwnedByAppend(a: seq<Policy>, b: seq<Policy>, owner: Owner)
    ensures OwnedBy(a + b, owner) == OwnedBy(a, owner) + OwnedBy(b, owner)
  {
    if b == [] {
      assert a + b == a;
    } else {
      assert (a + b)[..|a + b| - 1] == a + b[..|b| - 1];
      OwnedByAppend(a, b[..|b| - 1], owner);
    }
  }

  /** Filtering keeps each policy of that owner as often as it occurs, and no other. */
  lemma {:induction false} OwnedByCount(policies: seq<Policy>, owner: Owner, p: Policy)
    ensures multiset(OwnedBy(policies, owner))[p] == if p.owner == owner then multiset(policies)[p] else 0
  {
    if policies != [] {
      var init := policies[..|policies| - 1];
      assert policies == init + [policies[|policies| - 1]];
      OwnedByCount(init, owner, p);
    }
  }

  lemma OwnedByPermutation(a: seq<Policy>, b: seq<Policy>, owner: Owner)
    requires multiset(a) == multiset(b)
    ensures multiset(OwnedBy(a, owner)) == multiset(OwnedBy(b, owner))
  {
    forall p ensures multiset(OwnedBy(a, owner))[p] == multiset(OwnedBy(b, owner))[p] {
      OwnedByCount(a, owner, p);
      OwnedByCount(b, owner, p);
    }
  }

  /** The insurance held by one owner does not depend on the order of the policies. */
  lemma InsurancePermutation(a: seq<Policy>, b: seq<Policy>, owner: Owner)
    requires multiset(a) == multiset(b)
    ensures Insurance(a, owner) == Insurance(b, owner)
  {
    OwnedByPermutation(a, b, owner);
    SumOfPermutation(OwnedBy(a, owner), OwnedBy(b, owner), PolicyAmount);
  }

  /** Adding a policy of another owner does not change an owner's insurance. */
  lemma InsuranceIgnoresOtherOwners(policies: seq<Policy>, p: Policy, i: nat, owner: Owner)
    requires i <= |policies| && p.owner != owner
    ensures Insurance(policies[..i] + [p] + policies[i..], owner) == Insurance(policies, owner)
  {
    OwnedByAppend(policies[..i] + [p], policies[i..], owner);
    OwnedByAppend(policies[..i], [p], owner);
    OwnedByAppend(policies[..i], policies[i..], owner);
    assert [p][..0] == [];
    assert policies[..i] + policies[i..] == policies;
  }
}
