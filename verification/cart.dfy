/** The shopping cart: a sequence of products kept free of duplicates by
    the way products are added. The cart's logic is stated once, as pure
    functions over the item sequence (`Add`, `Remove`, `Total`); the `Cart`
    class is the mutable object the storefront holds, and each of its
    methods applies one of those functions to its field. */
module Carts {
  import opened Sequences
  import opened Products

  /** What a mutating cart call produces: the boolean it returns and the
      items it leaves behind. */
  datatype Mutation = Mutation(succeeded: bool, items: seq<Product>)

  /** `addItem`: appends `p` when the cart does not already hold that very
      product, and reports whether it did. */
  function Add(items: seq<Product>, p: Product): (m: Mutation)
    ensures m.succeeded <==> p !in items
    ensures m.succeeded ==> m.items == items + [p]
    ensures !m.succeeded ==> m.items == items
    ensures p in m.items
    ensures NoDuplicates(items) ==> NoDuplicates(m.items)
  {
    if p !in items then Mutation(true, items + [p]) else Mutation(false, items)
  }

  /** `removeItem`: deletes the first occurrence of `p`, if any, and reports
      whether there was one. */
  function Remove(items: seq<Product>, p: Product): (m: Mutation)
    ensures m.succeeded <==> p in items
    ensures !m.succeeded ==> m.items == items
    ensures m.succeeded ==> |m.items| == |items| - 1
    ensures m.succeeded ==>
      exists k | 0 <= k < |items| ::
        items[k] == p && p !in items[..k] && m.items == items[..k] + items[k + 1..]
    ensures m.succeeded ==> multiset(m.items) == multiset(items) - multiset{p}
    ensures NoDuplicates(items) ==> NoDuplicates(m.items) && p !in m.items
  {
    var index := IndexOf(items, p);
    if index > -1 then
      RemoveAtNoDuplicates(items, index);
      Mutation(true, RemoveAt(items, index))
    else
      Mutation(false, items)
  }

  /** `getTotal`: the number of items in the cart, which for a cart without
      duplicates is the number of distinct products. It is a count: product
      costs play no part in it. */
  function Total(items: seq<Product>): (n: nat)
    ensures n == |items|
    ensures NoDuplicates(items) ==> n == |set q | q in items|
  {
    DistinctCount(items);
    |items|
  }

  /** A second `addItem` of the same product is refused and changes
      nothing. */
  lemma AddIdempotent(items: seq<Product>, p: Product)
    ensures var once := Add(items, p);
            var twice := Add(once.items, p);
            !twice.succeeded && twice.items == once.items
  {
  }

  /** Removing a product from a duplicate-free cart removes it for good: a
      second `removeItem` of it is refused. */
  lemma RemoveTwiceRefused(items: seq<Product>, p: Product)
    requires NoDuplicates(items)
    requires p in items
    ensures Remove(items, p).succeeded
    ensures !Remove(Remove(items, p).items, p).succeeded
  {
  }

  /** Without the no-duplicates invariant only the first copy goes: a cart
      holding the same product twice still holds it after one removal. */
  lemma RemoveTakesOnlyFirstCopy(p: Product, q: Product)
    requires p != q
    ensures Remove([p, q, p], p) == Mutation(true, [q, p])
  {
    assert IndexOf([p, q, p], p) == 0;
  }

  /** Adding a product the cart lacks and then removing it gives back the
      original cart. */
  lemma AddThenRemove(items: seq<Product>, p: Product)
    requires p !in items
    ensures Add(items, p).succeeded
    ensures Remove(Add(items, p).items, p) == Mutation(true, items)
  {
    var added := items + [p];
    var index := IndexOf(added, p);
    assert added[..index] == items;
  }

  /** The count tracks successful mutations: one more after a successful
      add, one fewer after a successful remove, unchanged otherwise. */
  lemma TotalFollowsMutations(items: seq<Product>, p: Product)
    ensures Total(Add(items, p).items) == Total(items) + (if Add(items, p).succeeded then 1 else 0)
    ensures Total(Remove(items, p).items) == Total(items) - (if Remove(items, p).succeeded then 1 else 0)
  {
  }

  /** The total of a cart holding a product of cost 10 and one of cost 20 is
      2, not 30. */
  lemma TotalIsCountNotCostSum(a: Product, b: Product)
    requires a != b
    requires a.cost == 10.0 && b.cost == 20.0
    ensures Total(Add(Add([], a).items, b).items) == 2
    ensures Total(Add(Add([], a).items, b).items) as real != a.cost + b.cost
  {
  }

  /** One user action on the cart. */
  datatype Action = AddAction(product: Product) | RemoveAction(product: Product)

  /** The items after applying `actions` in order, starting from `items`. */
  function Replay(items: seq<Product>, actions: seq<Action>): seq<Product>
    decreases |actions|
  {
    if |actions| == 0 then items
    else
      var next := match actions[0]
        case AddAction(p) => Add(items, p).items
        case RemoveAction(p) => Remove(items, p).items;
      Replay(next, actions[1..])
  }

  /** Any sequence of adds and removes keeps a duplicate-free cart
      duplicate-free; in particular a cart that starts empty never holds a
      product twice. */
  lemma {:induction false} ReplayKeepsNoDuplicates(items: seq<Product>, actions: seq<Action>)
    requires NoDuplicates(items)
    ensures NoDuplicates(Replay(items, actions))
    decreases |actions|
  {
    if |actions| > 0 {
      var next := match actions[0]
        case AddAction(p) => Add(items, p).items
        case RemoveAction(p) => Remove(items, p).items;
      ReplayKeepsNoDuplicates(next, actions[1..]);
    }
  }

  /** Two products built from identical fields are different instances, so
      the cart accepts both and then holds two field-identical entries. */
  method DistinctInstancesBothAdded() returns (first: bool, second: bool, items: seq<Product>)
    ensures first && second
    ensures |items| == 2 && items[0] != items[1]
    ensures SameFields(items[0], items[1])
  {
    var a := new Product(1, "soft", "Mouse", 750.0, "A wireless mouse", "mouse.svg");
    var b := new Product(1, "soft", "Mouse", 750.0, "A wireless mouse", "mouse.svg");
    var m1 := Add([], a);
    var m2 := Add(m1.items, b);
    first, second, items := m1.succeeded, m2.succeeded, m2.items;
  }

  /** The cart object. Its constructor takes any initial items, so "no
      duplicates" is an invariant its mutators preserve, not one they
      demand. */
  class Cart {
    var items: seq<Product>

    constructor(items: seq<Product>)
      ensures this.items == items
    {
      this.items := items;
    }

    predicate Valid()
      reads this
    {
      NoDuplicates(items)
    }

    method AddItem(p: Product) returns (ok: bool)
      modifies this
      ensures ok <==> p !in old(items)
      ensures ok ==> items == old(items) + [p]
      ensures !ok ==> items == old(items)
      ensures old(Valid()) ==> Valid()
    {
      var m := Add(items, p);
      items := m.items;
      ok := m.succeeded;
    }

    method RemoveItem(p: Product) returns (ok: bool)
      modifies this
      ensures ok <==> p in old(items)
      ensures !ok ==> items == old(items)
      ensures ok ==>
        exists k | 0 <= k < |old(items)| ::
          old(items)[k] == p && p !in old(items)[..k] && items == old(items)[..k] + old(items)[k + 1..]
      ensures old(Valid()) ==> Valid() && p !in items
    {
      var m := Remove(items, p);
      items := m.items;
      ok := m.succeeded;
    }

    function GetItems(): (r: seq<Product>)
      reads this
      ensures r == items
    {
      items
    }

    function GetTotal(): (n: nat)
      reads this
      ensures n == |items|
      ensures Valid() ==> n == |set q | q in items|
    {
      Total(items)
    }
  }
}
