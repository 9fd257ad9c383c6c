/**
  Cart lines and the insertion-ordered store that both carts keep: the
  browser cart is a JavaScript `Map` and the server cart a Python `dict`,
  and both enumerate their entries in first-insertion order.  A store is
  modelled as the sequence of its values in that order; the key of a value
  is its `id`, so a well-formed store has pairwise distinct ids.
*/
module Lines {
  import opened Common

  /** One cart line.  Prices are integer cents. */
  datatype CartLine = CartLine(id: string, name: string, price: nat, qty: int, image: Option<string>)

  /** Position of the line stored under `id`, if any. */
  function IndexOf(s: seq<CartLine>, id: string): (r: Option<nat>)
    ensures r.Some? ==> r.value < |s| && s[r.value].id == id
    ensures r.Some? ==> forall j :: 0 <= j < r.value ==> s[j].id != id
    ensures r.None? ==> forall j :: 0 <= j < |s| ==> s[j].id != id
  {
    if |s| == 0 then None
    else if s[0].id == id then Some(0)
    else match IndexOf(s[1..], id)
      case None => None
      case Some(k) => Some(k + 1)
  }

  /** `map.has(id)` / `id in dict`. */
  predicate Has(s: seq<CartLine>, id: string) {
    IndexOf(s, id).Some?
  }

  /** `map.get(id)` / `dict.get(id)`. */
  function Lookup(s: seq<CartLine>, id: string): (r: Option<CartLine>)
    ensures r.Some? <==> Has(s, id)
    ensures r.Some? ==> r.value in s && r.value.id == id
  {
    match IndexOf(s, id)
    case Some(k) => Some(s[k])
    case None => None
  }

  /** The key invariant of a map: no id occurs twice. */
  predicate DistinctIds(s: seq<CartLine>) {
    forall i, j :: 0 <= i < j < |s| ==> s[i].id != s[j].id
  }

  function RemoveAt(s: seq<CartLine>, k: nat): (r: seq<CartLine>)
    requires k < |s|
    ensures |r| == |s| - 1
  {
    s[..k] + s[k + 1..]
  }

  /** The store with the line under `id` left out, all others in their order. */
  function Without(s: seq<CartLine>, id: string): (r: seq<CartLine>)
    ensures forall j :: 0 <= j < |r| ==> r[j].id != id
    ensures |r| <= |s|
  {
    if |s| == 0 then []
    else (if s[0].id == id then [] else [s[0]]) + Without(s[1..], id)
  }

  function Sum(s: seq<CartLine>, f: CartLine -> int): int {
    if |s| == 0 then 0 else f(s[0]) + Sum(s[1..], f)
  }

  function Qty(l: CartLine): int { l.qty }

  function Subtotal(l: CartLine): int { l.price * l.qty }

  /** Total number of units in the cart. */
  function SumQty(s: seq<CartLine>): int { Sum(s, Qty) }

  /** Total amount in cents: the sum of price times quantity over all lines. */
  function SumAmount(s: seq<CartLine>): int { Sum(s, Subtotal) }

  // ---------------------------------------------------------------------
  // Lookup

  /** A line stored in a well-formed store is what a lookup of its id finds. */
  lemma LookupMember(s: seq<CartLine>, l: CartLine)
    requires DistinctIds(s) && l in s
    ensures Lookup(s, l.id) == Some(l)
  {
    var i :| 0 <= i < |s| && s[i] == l;
    var k := IndexOf(s, l.id).value;
    assert k == i;
  }

  /** A lookup in a store with one more line in front. */
  lemma LookupCons(x: CartLine, t: seq<CartLine>, id: string)
    ensures Lookup([x] + t, id) == if x.id == id then Some(x) else Lookup(t, id)
  {
    assert ([x] + t)[1..] == t;
  }

  /** Leaving out one id does not change what a lookup of another id finds. */
  lemma {:induction false} LookupWithout(s: seq<CartLine>, id: string, other: string)
    requires other != id
    ensures Lookup(Without(s, id), other) == Lookup(s, other)
  {
    if |s| > 0 {
      LookupWithout(s[1..], id, other);
      assert s == [s[0]] + s[1..];
      LookupCons(s[0], s[1..], other);
      if s[0].id != id {
        assert Without(s, id) == [s[0]] + Without(s[1..], id);
        LookupCons(s[0], Without(s[1..], id), other);
      } else {
        assert Without(s, id) == Without(s[1..], id);
      }
    }
  }

  // ---------------------------------------------------------------------
  // Distinct ids

  lemma DistinctRemoveAt(s: seq<CartLine>, k: nat)
    requires DistinctIds(s) && k < |s|
    ensures DistinctIds(RemoveAt(s, k)) && !Has(RemoveAt(s, k), s[k].id)
  {
    var r := RemoveAt(s, k);
    forall j | 0 <= j < |r| ensures r[j] == (if j < k then s[j] else s[j + 1]) { }
  }

  lemma DistinctSetAt(s: seq<CartLine>, k: nat, x: CartLine)
    requires DistinctIds(s) && k < |s| && x.id == s[k].id
    ensures DistinctIds(s[k := x]) && IndexOf(s[k := x], x.id) == Some(k)
  {
    var t := s[k := x];
    assert t[k].id == x.id;
    var r := IndexOf(t, x.id);
    assert r.Some?;
  }

  lemma DistinctAppend(s: seq<CartLine>, x: CartLine)
    requires DistinctIds(s) && !Has(s, x.id)
    ensures DistinctIds(s + [x]) && IndexOf(s + [x], x.id) == Some(|s|)
  {
    var t := s + [x];
    forall i, j | 0 <= i < j < |t| ensures t[i].id != t[j].id {
      if j == |s| {
        assert t[i] == s[i];
      } else {
        assert t[i] == s[i] && t[j] == s[j];
      }
    }
    assert t[|s|].id == x.id;
    var r := IndexOf(t, x.id);
    assert r.Some?;
  }

  // ---------------------------------------------------------------------
  // Without

  lemma {:induction false} WithoutConcat(a: seq<CartLine>, b: seq<CartLine>, id: string)
    ensures Without(a + b, id) == Without(a, id) + Without(b, id)
  {
    if |a| == 0 {
      assert a + b == b;
    } else {
      assert (a + b)[1..] == a[1..] + b;
      WithoutConcat(a[1..], b, id);
    }
  }

  lemma {:induction false} WithoutAbsent(s: seq<CartLine>, id: string)
    requires forall j :: 0 <= j < |s| ==> s[j].id != id
    ensures Without(s, id) == s
  {
    if |s| > 0 {
      WithoutAbsent(s[1..], id);
    }
  }

  /** In a well-formed store, leaving out an id is removing the one line at its position. */
  lemma {:induction false} WithoutAt(s: seq<CartLine>, k: nat)
    requires DistinctIds(s) && k < |s|
    ensures Without(s, s[k].id) == RemoveAt(s, k)
  {
    var id := s[k].id;
    if k == 0 {
      WithoutAbsent(s[1..], id);
    } else {
      assert s[1..][k - 1] == s[k];
      WithoutAt(s[1..], k - 1);
      assert RemoveAt(s, k) == [s[0]] + RemoveAt(s[1..], k - 1);
    }
  }

  /** Replacing the line at the position of `id` leaves the other lines and their order alone. */
  lemma {:induction false} WithoutSetAt(s: seq<CartLine>, k: nat, x: CartLine)
    requires k < |s| && x.id == s[k].id
    ensures Without(s[k := x], x.id) == Without(s, x.id)
  {
    if k > 0 {
      assert s[k := x][1..] == s[1..][k - 1 := x];
      WithoutSetAt(s[1..], k - 1, x);
    } else {
      assert s[k := x][1..] == s[1..];
    }
  }

  lemma {:induction false} WithoutRemoveAt(s: seq<CartLine>, k: nat)
    requires k < |s|
    ensures Without(RemoveAt(s, k), s[k].id) == Without(s, s[k].id)
  {
    if k > 0 {
      var t := RemoveAt(s[1..], k - 1);
      assert s[1..][k - 1] == s[k];
      WithoutRemoveAt(s[1..], k - 1);
      assert RemoveAt(s, k) == [s[0]] + t;
      assert ([s[0]] + t)[1..] == t;
    } else {
      assert RemoveAt(s, k) == s[1..];
    }
  }

  lemma WithoutAppend(s: seq<CartLine>, x: CartLine)
    ensures Without(s + [x], x.id) == Without(s, x.id)
  {
    WithoutConcat(s, [x], x.id);
  }

  // ---------------------------------------------------------------------
  // Sums

  lemma {:induction false} SumConcat(a: seq<CartLine>, b: seq<CartLine>, f: CartLine -> int)
    ensures Sum(a + b, f) == Sum(a, f) + Sum(b, f)
  {
    if |a| == 0 {
      assert a + b == b;
    } else {
      assert (a + b)[1..] == a[1..] + b;
      SumConcat(a[1..], b, f);
    }
  }

  lemma {:induction false} SumRemoveAt(s: seq<CartLine>, k: nat, f: CartLine -> int)
    requires k < |s|
    ensures Sum(RemoveAt(s, k), f) == Sum(s, f) - f(s[k])
  {
    if k > 0 {
      var t := RemoveAt(s[1..], k - 1);
      assert s[1..][k - 1] == s[k];
      SumRemoveAt(s[1..], k - 1, f);
      assert RemoveAt(s, k) == [s[0]] + t;
      assert ([s[0]] + t)[1..] == t;
    } else {
      assert RemoveAt(s, k) == s[1..];
    }
  }

  lemma {:induction false} SumSetAt(s: seq<CartLine>, k: nat, x: CartLine, f: CartLine -> int)
    requires k < |s|
    ensures Sum(s[k := x], f) == Sum(s, f) - f(s[k]) + f(x)
  {
    if k > 0 {
      assert s[k := x][1..] == s[1..][k - 1 := x];
      SumSetAt(s[1..], k - 1, x, f);
    } else {
      assert s[k := x][1..] == s[1..];
    }
  }

  /** The running sum a left-to-right loop keeps: one more line adds its own term. */
  lemma SumSnoc(s: seq<CartLine>, i: nat, f: CartLine -> int)
    requires i < |s|
    ensures Sum(s[..i + 1], f) == Sum(s[..i], f) + f(s[i])
  {
    assert s[..i + 1] == s[..i] + [s[i]];
    SumConcat(s[..i], [s[i]], f);
  }

  /** With every quantity at least one, there are at least as many units as lines. */
  lemma {:induction false} SumQtyAtLeastSize(s: seq<CartLine>)
    requires forall k :: 0 <= k < |s| ==> s[k].qty >= 1
    ensures SumQty(s) >= |s|
  {
    if |s| > 0 {
      SumQtyAtLeastSize(s[1..]);
    }
  }
}
