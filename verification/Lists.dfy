/** The list operations behind the driver's LIST_ENTRY queues, on sequences of
    identifiers: occurrence counts, removal of one entry, and first match. */
module Lists {

  /** The value of a boolean in a sum. */
  function Ind(b: bool): (n: nat) {
    if b then 1 else 0
  }

  function Count(s: seq<nat>, x: nat): nat {
    if s == [] then 0 else Ind(s[0] == x) + Count(s[1..], x)
  }

  /** Unlinks the entry of x, wherever it stands in the list. */
  function Remove(s: seq<nat>, x: nat): seq<nat> {
    if s == [] then [] else if s[0] == x then s[1..] else [s[0]] + Remove(s[1..], x)
  }

  /** The index of the first entry that belongs to r, or |s|. */
  function FirstIn(s: seq<nat>, r: set<nat>): (i: nat)
    ensures i <= |s|
    ensures i < |s| ==> s[i] in r
    ensures forall j :: 0 <= j < i ==> s[j] !in r
  {
    if s == [] || s[0] in r then 0 else
      var i := FirstIn(s[1..], r);
      assert forall j :: 1 <= j < i + 1 ==> s[j] == s[1..][j - 1];
      i + 1
  }

  function Elements(s: seq<nat>): (e: set<nat>)
    ensures forall x :: x in e <==> x in s
  {
    set x | x in s
  }

  lemma {:induction false} CountAppend(a: seq<nat>, b: seq<nat>, x: nat)
    ensures Count(a + b, x) == Count(a, x) + Count(b, x)
  {
    if a == [] {
      assert a + b == b;
    } else {
      assert (a + b)[1..] == a[1..] + b;
      CountAppend(a[1..], b, x);
    }
  }

  lemma CountSingle(a: seq<nat>, y: nat)
    ensures forall x :: Count(a + [y], x) == Count(a, x) + Ind(x == y)
  {
    forall x ensures Count(a + [y], x) == Count(a, x) + Ind(x == y) {
      CountAppend(a, [y], x);
      assert [y][1..] == [];
      assert Count([y], x) == Ind(y == x) + Count([y][1..], x);
    }
  }

  lemma {:induction false} CountIn(s: seq<nat>, x: nat)
    ensures x in s <==> Count(s, x) > 0
  {
    if s != [] {
      CountIn(s[1..], x);
      assert x in s <==> s[0] == x || x in s[1..];
    }
  }

  lemma CountTail(s: seq<nat>)
    requires s != []
    ensures forall x :: Count(s, x) == Ind(x == s[0]) + Count(s[1..], x)
  {
  }

  lemma {:induction false} CountRemove(s: seq<nat>, x: nat)
    requires x in s
    ensures |Remove(s, x)| == |s| - 1
    ensures forall y :: Count(Remove(s, x), y) == Count(s, y) - Ind(x == y)
    ensures forall y :: y in Remove(s, x) ==> y in s
  {
    if s[0] != x {
      CountRemove(s[1..], x);
      var t := Remove(s[1..], x);
      assert ([s[0]] + t)[1..] == t;
    }
  }

  /** Unlinking the first entry of a value by its position. */
  lemma {:induction false} RemoveAt(s: seq<nat>, i: nat)
    requires i < |s| && forall j :: 0 <= j < i ==> s[j] != s[i]
    ensures Remove(s, s[i]) == s[..i] + s[i + 1..]
  {
    if i > 0 {
      assert s[1..][i - 1] == s[i];
      forall j | 0 <= j < i - 1 ensures s[1..][j] != s[i] {
        assert s[1..][j] == s[j + 1];
      }
      RemoveAt(s[1..], i - 1);
      assert [s[0]] + (s[1..][..i - 1] + s[1..][i..]) == s[..i] + s[i + 1..];
    }
  }

  /** The entries that belong to r, in list order. */
  function Keep(s: seq<nat>, r: set<nat>): (k: seq<nat>)
    ensures |k| <= |s|
  {
    if s == [] then [] else (if s[0] in r then [s[0]] else []) + Keep(s[1..], r)
  }

  /** Claiming the first entry in r, by unlinking it and taking it out of r, takes the head off Keep. */
  lemma {:induction false} KeepClaim(s: seq<nat>, r: set<nat>)
    requires forall x :: Count(s, x) <= 1
    requires FirstIn(s, r) < |s|
    ensures var x := s[FirstIn(s, r)]; Keep(s, r) == [x] + Keep(Remove(s, x), r - {x})
    ensures forall y :: Count(Remove(s, s[FirstIn(s, r)]), y) <= 1
  {
    var x := s[FirstIn(s, r)];
    CountTail(s);
    CountRemove(s, x);
    if s[0] in r {
      CountIn(s[1..], s[0]);
      KeepOthers(s[1..], r, s[0]);
    } else {
      assert FirstIn(s, r) == FirstIn(s[1..], r) + 1 && s[1..][FirstIn(s[1..], r)] == x;
      KeepClaim(s[1..], r);
      var t := Remove(s[1..], x);
      assert Remove(s, x) == [s[0]] + t && ([s[0]] + t)[1..] == t;
    }
  }

  lemma {:induction false} KeepOthers(s: seq<nat>, r: set<nat>, x: nat)
    requires x !in s
    ensures Keep(s, r - {x}) == Keep(s, r)
  {
    if s != [] {
      KeepOthers(s[1..], r, x);
    }
  }

  lemma {:induction false} KeepNone(s: seq<nat>, r: set<nat>)
    ensures Keep(s, r) == [] <==> FirstIn(s, r) == |s|
  {
    if s != [] {
      KeepNone(s[1..], r);
    }
  }

  /** A list that holds no entry twice is as long as the set of its entries. */
  lemma {:induction false} DistinctSize(ch: seq<nat>)
    requires forall x :: Count(ch, x) <= 1
    ensures |Elements(ch)| == |ch|
  {
    if ch == [] {
      assert Elements(ch) == {};
    } else {
      CountTail(ch);
      CountIn(ch[1..], ch[0]);
      DistinctSize(ch[1..]);
      assert Elements(ch) == Elements(ch[1..]) + {ch[0]};
    }
  }

  /** Taking a chain of distinct members out of a set shrinks it by the length of the chain. */
  lemma RemoveChain(a: set<nat>, ch: seq<nat>)
    requires forall x :: Count(ch, x) <= 1
    requires Elements(ch) <= a
    ensures |a - Elements(ch)| == |a| - |ch|
    ensures forall x :: Ind(x in a - Elements(ch)) == Ind(x in a) - Count(ch, x)
  {
    DistinctSize(ch);
    assert a == (a - Elements(ch)) + Elements(ch);
    forall x ensures Ind(x in a - Elements(ch)) == Ind(x in a) - Count(ch, x) {
      CountIn(ch, x);
    }
  }
}
