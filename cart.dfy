/**
 * The shopping cart of the page: an ordered list of line items keyed by dish
 * name, with the three mutations (add, remove, update quantity) and the two
 * folds (total price, total item count).
 *
 * The value-level meaning of each mutation is a function on `seq<Line>`
 * (Added, Removed, Updated); the `Cart` class keeps the list in a field and
 * its methods are proved to move the field exactly as those functions say.
 */
module CartStore {
  import opened Wrappers

  /** One line item: a dish name, its unit price and how many are ordered. */
  datatype Line = Line(name: string, price: int, quantity: int)

  /** The amount a line contributes to the total. */
  function Amount(l: Line): int {
    l.price * l.quantity
  }

  /** Some line of `s` carries the name `n`. */
  predicate Contains(s: seq<Line>, n: string) {
    exists i :: 0 <= i < |s| && s[i].name == n
  }

  /** No two lines share a name: the cart's invariant. */
  predicate UniqueNames(s: seq<Line>) {
    forall i, j :: 0 <= i < j < |s| ==> s[i].name != s[j].name
  }

  /** Every line has a quantity of at least one. */
  predicate AllPositive(s: seq<Line>) {
    forall i :: 0 <= i < |s| ==> s[i].quantity >= 1
  }

  /** The position of the first line named `n`, as `Array.prototype.find` locates it. */
  function IndexOf(s: seq<Line>, n: string): (r: Option<nat>)
    ensures r.None? <==> !Contains(s, n)
    ensures r.Some? ==> r.value < |s| && s[r.value].name == n
    ensures r.Some? ==> forall j :: 0 <= j < r.value ==> s[j].name != n
  {
    if |s| == 0 then None
    else if s[0].name == n then Some(0)
    else
      match IndexOf(s[1..], n)
      case None =>
        assert forall i :: 1 <= i < |s| ==> s[i] == s[1..][i - 1];
        None
      case Some(k) =>
        assert s[1..][k] == s[k + 1];
        Some(k + 1)
  }

  /** In a cart with unique names, the line named `n` is where IndexOf says. */
  lemma IndexOfUnique(s: seq<Line>, n: string, k: nat)
    requires UniqueNames(s)
    requires k < |s| && s[k].name == n
    ensures IndexOf(s, n) == Some(k)
  {
    assert Contains(s, n);
  }

  /**
   * The cart after adding `q` of dish `n` at unit price `p`: an existing line
   * has its quantity raised by `q` and keeps its price; otherwise a new line
   * is appended.
   */
  function Added(s: seq<Line>, n: string, p: int, q: int): (r: seq<Line>)
    ensures Contains(s, n) ==>
      var k := IndexOf(s, n).value;
      |r| == |s| &&
      r[k] == Line(n, s[k].price, s[k].quantity + q) &&
      forall j :: 0 <= j < |s| && j != k ==> r[j] == s[j]
    ensures !Contains(s, n) ==> r == s + [Line(n, p, q)]
  {
    match IndexOf(s, n)
    case Some(k) => s[k := s[k].(quantity := s[k].quantity + q)]
    case None => s + [Line(n, p, q)]
  }

  /** The cart with every line named `n` filtered out, the others kept in order. */
  function Removed(s: seq<Line>, n: string): (r: seq<Line>)
    ensures |r| <= |s|
    ensures forall i :: 0 <= i < |r| ==> r[i].name != n
    ensures forall i :: 0 <= i < |r| ==> r[i] in s
    ensures forall i :: 0 <= i < |s| && s[i].name != n ==> s[i] in r
  {
    if |s| == 0 then []
    else
      var rest := Removed(s[1..], n);
      assert forall i :: 1 <= i < |s| ==> s[i] == s[1..][i - 1];
      if s[0].name == n then rest else [s[0]] + rest
  }

  /**
   * The cart after setting the quantity of dish `n` to `q`: nothing happens
   * for an absent dish, a non-positive quantity removes the line, and any
   * other quantity replaces the line's quantity.
   */
  function Updated(s: seq<Line>, n: string, q: int): (r: seq<Line>)
    ensures !Contains(s, n) ==> r == s
    ensures Contains(s, n) && q <= 0 ==> r == Removed(s, n)
    ensures Contains(s, n) && q > 0 ==>
      var k := IndexOf(s, n).value;
      |r| == |s| &&
      r[k] == Line(n, s[k].price, q) &&
      forall j :: 0 <= j < |s| && j != k ==> r[j] == s[j]
  {
    match IndexOf(s, n)
    case None => s
    case Some(k) =>
      if q <= 0 then Removed(s, n) else s[k := s[k].(quantity := q)]
  }

  /** Sum of price times quantity, folded from the left as `reduce` does. */
  function Total(s: seq<Line>): int {
    if |s| == 0 then 0 else Total(s[..|s| - 1]) + Amount(s[|s| - 1])
  }

  /** Sum of quantities, folded from the left as `reduce` does. */
  function TotalItems(s: seq<Line>): int {
    if |s| == 0 then 0 else TotalItems(s[..|s| - 1]) + s[|s| - 1].quantity
  }

  // ---------------------------------------------------------------------
  // Removing

  /** Removing an absent name leaves the cart as it was. */
  lemma {:induction false} RemovedAbsent(s: seq<Line>, n: string)
    requires !Contains(s, n)
    ensures Removed(s, n) == s
  {
    if |s| > 0 {
      assert s[0].name != n;
      assert !Contains(s[1..], n) by {
        forall i | 0 <= i < |s[1..]| ensures s[1..][i].name != n {
          assert s[1..][i] == s[i + 1];
        }
      }
      RemovedAbsent(s[1..], n);
      assert s == [s[0]] + s[1..];
    }
  }

  /** Removing distributes over concatenation, so the kept lines stay in their original order. */
  lemma {:induction false} RemovedConcat(a: seq<Line>, b: seq<Line>, n: string)
    ensures Removed(a + b, n) == Removed(a, n) + Removed(b, n)
  {
    if |a| == 0 {
      assert a + b == b;
    } else {
      assert (a + b)[1..] == a[1..] + b;
      RemovedConcat(a[1..], b, n);
    }
  }

  /** Removing from a single line keeps it exactly when its name differs. */
  lemma RemovedSingle(l: Line, n: string)
    ensures Removed([l], n) == if l.name == n then [] else [l]
  {
    assert [l][1..] == [];
  }

  /** In a cart with unique names, removing the line at `k` drops exactly that position. */
  lemma {:induction false} RemovedAt(s: seq<Line>, n: string, k: nat)
    requires UniqueNames(s)
    requires k < |s| && s[k].name == n
    ensures Removed(s, n) == s[..k] + s[k + 1..]
  {
    if k == 0 {
      assert !Contains(s[1..], n) by {
        forall i | 0 <= i < |s[1..]| ensures s[1..][i].name != n {
          assert s[1..][i] == s[i + 1];
        }
      }
      RemovedAbsent(s[1..], n);
    } else {
      UniqueTail(s);
      assert s[1..][k - 1] == s[k];
      RemovedAt(s[1..], n, k - 1);
      assert s[0].name != s[k].name;
      assert [s[0]] + (s[1..][..k - 1] + s[1..][k..]) == s[..k] + s[k + 1..];
    }
  }

  /** The tail of a cart with unique names has unique names. */
  lemma UniqueTail(s: seq<Line>)
    requires UniqueNames(s) && |s| > 0
    ensures UniqueNames(s[1..])
  {
    forall i, j | 0 <= i < j < |s[1..]| ensures s[1..][i].name != s[1..][j].name {
      assert s[1..][i] == s[i + 1] && s[1..][j] == s[j + 1];
    }
  }

  // ---------------------------------------------------------------------
  // The unique-names invariant

  lemma AddedKeepsUnique(s: seq<Line>, n: string, p: int, q: int)
    requires UniqueNames(s)
    ensures UniqueNames(Added(s, n, p, q))
  {
    var r := Added(s, n, p, q);
    if !Contains(s, n) {
      forall i, j | 0 <= i < j < |r| ensures r[i].name != r[j].name {
        if j == |s| {
          assert r[i] == s[i];
        }
      }
    }
  }

  lemma {:induction false} RemovedKeepsUnique(s: seq<Line>, n: string)
    requires UniqueNames(s)
    ensures UniqueNames(Removed(s, n))
  {
    if |s| > 0 {
      UniqueTail(s);
      RemovedKeepsUnique(s[1..], n);
      var rest := Removed(s[1..], n);
      if s[0].name != n {
        forall i | 0 <= i < |rest| ensures rest[i].name != s[0].name {
          var j :| 0 <= j < |s[1..]| && s[1..][j] == rest[i];
          assert s[1..][j] == s[j + 1];
        }
        UniqueCons(s[0], rest);
      }
    }
  }

  /** A line whose name is new to a cart with unique names can be put in front of it. */
  lemma UniqueCons(l: Line, t: seq<Line>)
    requires UniqueNames(t)
    requires forall i :: 0 <= i < |t| ==> t[i].name != l.name
    ensures UniqueNames([l] + t)
  {
    var r := [l] + t;
    forall i, j | 0 <= i < j < |r| ensures r[i].name != r[j].name {
      assert r[j] == t[j - 1];
      if i > 0 {
        assert r[i] == t[i - 1];
      }
    }
  }

  lemma UpdatedKeepsUnique(s: seq<Line>, n: string, q: int)
    requires UniqueNames(s)
    ensures UniqueNames(Updated(s, n, q))
  {
    if Contains(s, n) && q <= 0 {
      RemovedKeepsUnique(s, n);
    }
  }

  // ---------------------------------------------------------------------
  // Positive quantities (the page only ever adds one at a time)

  lemma AddedKeepsPositive(s: seq<Line>, n: string, p: int, q: int)
    requires AllPositive(s) && q >= 1
    ensures AllPositive(Added(s, n, p, q))
  {
  }

  lemma RemovedKeepsPositive(s: seq<Line>, n: string)
    requires AllPositive(s)
    ensures AllPositive(Removed(s, n))
  {
    var r := Removed(s, n);
    forall i | 0 <= i < |r| ensures r[i].quantity >= 1 {
      var j :| 0 <= j < |s| && s[j] == r[i];
    }
  }

  lemma UpdatedKeepsPositive(s: seq<Line>, n: string, q: int)
    requires AllPositive(s)
    ensures AllPositive(Updated(s, n, q))
  {
    if Contains(s, n) && q <= 0 {
      RemovedKeepsPositive(s, n);
    }
  }

  // ---------------------------------------------------------------------
  // Totals

  lemma {:induction false} TotalConcat(a: seq<Line>, b: seq<Line>)
    ensures Total(a + b) == Total(a) + Total(b)
  {
    if |b| > 0 {
      assert (a + b)[..|a + b| - 1] == a + b[..|b| - 1];
      TotalConcat(a, b[..|b| - 1]);
    } else {
      assert a + b == a;
    }
  }

  lemma {:induction false} TotalItemsConcat(a: seq<Line>, b: seq<Line>)
    ensures TotalItems(a + b) == TotalItems(a) + TotalItems(b)
  {
    if |b| > 0 {
      assert (a + b)[..|a + b| - 1] == a + b[..|b| - 1];
      TotalItemsConcat(a, b[..|b| - 1]);
    } else {
      assert a + b == a;
    }
  }

  /** A cart split around position `k` into prefix, the line at `k`, and suffix. */
  lemma SplitAt(s: seq<Line>, k: nat)
    requires k < |s|
    ensures Total(s) == Total(s[..k]) + Amount(s[k]) + Total(s[k + 1..])
    ensures TotalItems(s) == TotalItems(s[..k]) + s[k].quantity + TotalItems(s[k + 1..])
  {
    assert s == s[..k] + [s[k]] + s[k + 1..];
    TotalConcat(s[..k] + [s[k]], s[k + 1..]);
    TotalConcat(s[..k], [s[k]]);
    TotalItemsConcat(s[..k] + [s[k]], s[k + 1..]);
    TotalItemsConcat(s[..k], [s[k]]);
    assert [s[k]][..0] == [];
  }

  /** Replacing the line at `k` changes the totals by the difference of the two lines. */
  lemma TotalsReplaced(s: seq<Line>, k: nat, l: Line)
    requires k < |s|
    ensures Total(s[k := l]) == Total(s) - Amount(s[k]) + Amount(l)
    ensures TotalItems(s[k := l]) == TotalItems(s) - s[k].quantity + l.quantity
  {
    var t := s[k := l];
    SplitAt(s, k);
    SplitAt(t, k);
    assert t[..k] == s[..k] && t[k + 1..] == s[k + 1..];
  }

  /** Both totals of an empty cart are zero. */
  lemma TotalsEmpty()
    ensures Total([]) == 0 && TotalItems([]) == 0
  {
  }

  /**
   * Adding `q` of a dish raises the item count by `q` and the total by `q`
   * times the dish's unit price, which is the existing line's price when the
   * dish is already in the cart.
   */
  lemma TotalsAdded(s: seq<Line>, n: string, p: int, q: int)
    ensures TotalItems(Added(s, n, p, q)) == TotalItems(s) + q
    ensures Contains(s, n) ==>
      Total(Added(s, n, p, q)) == Total(s) + s[IndexOf(s, n).value].price * q
    ensures !Contains(s, n) ==> Total(Added(s, n, p, q)) == Total(s) + p * q
  {
    if Contains(s, n) {
      TotalsAddedPresent(s, n, p, q);
    } else {
      TotalsAddedAbsent(s, n, p, q);
    }
  }

  lemma TotalsAddedPresent(s: seq<Line>, n: string, p: int, q: int)
    requires Contains(s, n)
    ensures var k := IndexOf(s, n).value;
      TotalItems(Added(s, n, p, q)) == TotalItems(s) + q &&
      Total(Added(s, n, p, q)) == Total(s) + s[k].price * q
  {
    var k := IndexOf(s, n).value;
    var r, t := Added(s, n, p, q), s[k := s[k].(quantity := s[k].quantity + q)];
    assert |r| == |t|;
    forall j | 0 <= j < |r| ensures r[j] == t[j] {
    }
    assert r == t;
    TotalsIncreased(s, k, q);
  }

  lemma TotalsAddedAbsent(s: seq<Line>, n: string, p: int, q: int)
    requires !Contains(s, n)
    ensures TotalItems(Added(s, n, p, q)) == TotalItems(s) + q
    ensures Total(Added(s, n, p, q)) == Total(s) + p * q
  {
    TotalsAppended(s, Line(n, p, q));
  }

  /** Raising the quantity of the line at `k` by `q` adds `q` items and `q` times its price. */
  lemma TotalsIncreased(s: seq<Line>, k: nat, q: int)
    requires k < |s|
    ensures Total(s[k := s[k].(quantity := s[k].quantity + q)]) == Total(s) + s[k].price * q
    ensures TotalItems(s[k := s[k].(quantity := s[k].quantity + q)]) == TotalItems(s) + q
  {
    TotalsReplaced(s, k, s[k].(quantity := s[k].quantity + q));
    AmountIncreased(s[k], q);
  }

  lemma AmountIncreased(l: Line, q: int)
    ensures Amount(l.(quantity := l.quantity + q)) == Amount(l) + l.price * q
  {
    assert l.price * (l.quantity + q) == l.price * l.quantity + l.price * q;
  }

  /** Appending a line adds its amount to the total and its quantity to the item count. */
  lemma TotalsAppended(s: seq<Line>, l: Line)
    ensures Total(s + [l]) == Total(s) + Amount(l)
    ensures TotalItems(s + [l]) == TotalItems(s) + l.quantity
  {
    assert (s + [l])[..|s|] == s;
  }

  /** Removing a dish from a cart with unique names subtracts its line from both totals. */
  lemma TotalsRemoved(s: seq<Line>, n: string)
    requires UniqueNames(s)
    ensures Contains(s, n) ==>
      var k := IndexOf(s, n).value;
      Total(Removed(s, n)) == Total(s) - Amount(s[k]) &&
      TotalItems(Removed(s, n)) == TotalItems(s) - s[k].quantity
    ensures !Contains(s, n) ==>
      Total(Removed(s, n)) == Total(s) && TotalItems(Removed(s, n)) == TotalItems(s)
  {
    if Contains(s, n) {
      var k := IndexOf(s, n).value;
      RemovedAt(s, n, k);
      SplitAt(s, k);
      TotalConcat(s[..k], s[k + 1..]);
      TotalItemsConcat(s[..k], s[k + 1..]);
    } else {
      RemovedAbsent(s, n);
    }
  }

  /** With positive quantities the item count is zero exactly when the cart is empty. */
  lemma {:induction false} TotalItemsZeroIffEmpty(s: seq<Line>)
    requires AllPositive(s)
    ensures TotalItems(s) >= |s|
    ensures TotalItems(s) == 0 <==> s == []
  {
    if |s| > 0 {
      TotalItemsZeroIffEmpty(s[..|s| - 1]);
    }
  }

  // ---------------------------------------------------------------------
  // The cart object

  class Cart {
    var items: seq<Line>

    /** The object invariant: no two line items share a dish name. */
    ghost predicate Valid()
      reads this
    {
      UniqueNames(items)
    }

    constructor ()
      ensures Valid() && items == []
    {
      items := [];
    }

    /** `cart.add`: raise an existing line's quantity or append a new line. */
    method Add(name: string, price: int, quantity: int := 1)
      requires Valid()
      modifies this
      ensures Valid()
      ensures items == Added(old(items), name, price, quantity)
    {
      AddedKeepsUnique(items, name, price, quantity);
      var found := IndexOf(items, name);
      match found
      case Some(k) =>
        items := items[k := items[k].(quantity := items[k].quantity + quantity)];
      case None =>
        items := items + [Line(name, price, quantity)];
    }

    /** `cart.remove`: keep the lines whose name differs from `name`. */
    method Remove(name: string)
      requires Valid()
      modifies this
      ensures Valid()
      ensures items == Removed(old(items), name)
    {
      RemovedKeepsUnique(items, name);
      items := Removed(items, name);
    }

    /** `cart.updateQuantity`: set a line's quantity, removing it when the quantity is not positive. */
    method UpdateQuantity(name: string, newQuantity: int)
      requires Valid()
      modifies this
      ensures Valid()
      ensures items == Updated(old(items), name, newQuantity)
    {
      UpdatedKeepsUnique(items, name, newQuantity);
      var found := IndexOf(items, name);
      match found
      case None =>
      case Some(k) =>
        if newQuantity <= 0 {
          Remove(name);
        } else {
          items := items[k := items[k].(quantity := newQuantity)];
        }
    }

    /** `cart.getTotal`: accumulate price times quantity from the first line to the last. */
    method GetTotal() returns (sum: int)
      ensures sum == Total(items)
    {
      sum := 0;
      var i := 0;
      while i < |items|
        invariant 0 <= i <= |items|
        invariant sum == Total(items[..i])
      {
        assert items[..i + 1][..i] == items[..i];
        sum := sum + items[i].price * items[i].quantity;
        i := i + 1;
      }
      assert items[..i] == items;
    }

    /** `cart.getTotalItems`: accumulate quantities from the first line to the last. */
    method GetTotalItems() returns (sum: int)
      ensures sum == TotalItems(items)
    {
      sum := 0;
      var i := 0;
      while i < |items|
        invariant 0 <= i <= |items|
        invariant sum == TotalItems(items[..i])
      {
        assert items[..i + 1][..i] == items[..i];
        sum := sum + items[i].quantity;
        i := i + 1;
      }
      assert items[..i] == items;
    }
  }

  /** Two adds of the same dish give one line; one add then a remove gives an empty cart. */
  method Scenarios()
  {
    var c := new Cart();
    c.Add("Biryani", 250);
    c.Add("Biryani", 250, 2);
    assert c.items == [Line("Biryani", 250, 3)];
    var total := c.GetTotal();
    assert total == 750;

    var d := new Cart();
    d.Add("Dosa", 80);
    d.Remove("Dosa");
    assert d.items == [];
    var count := d.GetTotalItems();
    assert count == 0;
  }
}
