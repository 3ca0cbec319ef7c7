/**
 * The storefront's shopping cart: a list of line items keyed by plant id,
 * updated in place by "add to cart" and "remove from cart", whose displayed
 * total is recomputed from the lines after every change.
 */
module ShoppingCart {
  import opened Wrappers

  /** One cart line: plant id, plant name, unit price and quantity. */
  datatype Line = Line(id: string, name: string, price: int, quantity: nat)

  /** What one line contributes to the total. */
  function Subtotal(l: Line): int {
    l.price * l.quantity
  }

  /** The sum of price * quantity over all lines; 0 for the empty cart. */
  function Sum(lines: seq<Line>): int {
    if lines == [] then 0 else Subtotal(lines[0]) + Sum(lines[1..])
  }

  predicate HasId(lines: seq<Line>, id: string) {
    exists i :: 0 <= i < |lines| && lines[i].id == id
  }

  /** The cart invariant: at most one line per id, and every quantity is at least 1. */
  predicate WellFormed(lines: seq<Line>) {
    && (forall i, j :: 0 <= i < j < |lines| ==> lines[i].id != lines[j].id)
    && (forall i :: 0 <= i < |lines| ==> lines[i].quantity >= 1)
  }

  /** The index of the first line with this id, as the cart's lookup by id finds it. */
  function IndexOf(lines: seq<Line>, id: string): (r: Option<nat>)
    ensures r.None? <==> !HasId(lines, id)
    ensures r.Some? ==> r.value < |lines| && lines[r.value].id == id
    ensures r.Some? ==> forall j :: 0 <= j < r.value ==> lines[j].id != id
  {
    if lines == [] then None
    else if lines[0].id == id then Some(0)
    else match IndexOf(lines[1..], id)
      case None => None
      case Some(k) => Some(k + 1)
  }

  /**
   * The lines after adding one unit of a plant: the existing line for the id
   * gains one unit (its name and price are kept), otherwise a new line with
   * quantity 1 goes at the end.
   */
  function Added(lines: seq<Line>, id: string, name: string, price: int): (r: seq<Line>)
    ensures !HasId(lines, id) ==>
      && |r| == |lines| + 1
      && r[..|lines|] == lines
      && r[|lines|] == Line(id, name, price, 1)
    ensures HasId(lines, id) ==>
      && |r| == |lines|
      && var k := IndexOf(lines, id).value;
      && r[k].id == id && r[k].name == lines[k].name && r[k].price == lines[k].price
      && r[k].quantity == lines[k].quantity + 1
      && (forall j :: 0 <= j < |lines| && j != k ==> r[j] == lines[j])
  {
    match IndexOf(lines, id)
    case Some(k) => lines[k := lines[k].(quantity := lines[k].quantity + 1)]
    case None => lines + [Line(id, name, price, 1)]
  }

  /** The lines after removing a plant: every line with that id is dropped, whatever its quantity. */
  function Removed(lines: seq<Line>, id: string): (r: seq<Line>)
    ensures !HasId(r, id)
    ensures |r| <= |lines|
    ensures !HasId(lines, id) ==> r == lines
  {
    if lines == [] then []
    else (if lines[0].id == id then [] else [lines[0]]) + Removed(lines[1..], id)
  }

  /** Removal works line by line: it distributes over concatenation, so the kept lines stay in order. */
  lemma {:induction false} RemovedDistributes(a: seq<Line>, b: seq<Line>, id: string)
    ensures Removed(a + b, id) == Removed(a, id) + Removed(b, id)
  {
    if a == [] {
      assert a + b == b;
    } else {
      assert (a + b)[1..] == a[1..] + b;
      RemovedDistributes(a[1..], b, id);
    }
  }

  /** In a well-formed cart, removing a present id deletes exactly its line and keeps the others in order. */
  lemma RemovedExisting(lines: seq<Line>, id: string, k: nat)
    requires WellFormed(lines)
    requires k < |lines| && lines[k].id == id
    ensures Removed(lines, id) == lines[..k] + lines[k + 1..]
  {
    var head, tail := lines[..k], lines[k + 1..];
    assert lines == head + [lines[k]] + tail;
    assert !HasId(head, id) by {
      forall j | 0 <= j < |head| ensures head[j].id != id {
        assert head[j] == lines[j];
      }
    }
    assert !HasId(tail, id) by {
      forall j | 0 <= j < |tail| ensures tail[j].id != id {
        assert tail[j] == lines[k + 1 + j];
      }
    }
    RemovedDistributes(head + [lines[k]], tail, id);
    RemovedDistributes(head, [lines[k]], id);
    assert Removed([lines[k]], id) == [] by {
      assert [lines[k]][1..] == [];
    }
    calc {
      Removed(lines, id);
      Removed(head, id) + Removed([lines[k]], id) + Removed(tail, id);
      head + tail;
    }
  }

  lemma {:induction false} SumConcat(a: seq<Line>, b: seq<Line>)
    ensures Sum(a + b) == Sum(a) + Sum(b)
  {
    if a == [] {
      assert a + b == b;
    } else {
      assert (a + b)[1..] == a[1..] + b;
      SumConcat(a[1..], b);
    }
  }

  lemma SumUpdate(lines: seq<Line>, k: nat, l: Line)
    requires k < |lines|
    ensures Sum(lines[k := l]) == Sum(lines) - Subtotal(lines[k]) + Subtotal(l)
  {
    assert lines == lines[..k] + [lines[k]] + lines[k + 1..];
    assert lines[k := l] == lines[..k] + [l] + lines[k + 1..];
    SumConcat(lines[..k] + [lines[k]], lines[k + 1..]);
    SumConcat(lines[..k], [lines[k]]);
    SumConcat(lines[..k] + [l], lines[k + 1..]);
    SumConcat(lines[..k], [l]);
    assert Sum([lines[k]]) == Subtotal(lines[k]) by { assert [lines[k]][1..] == []; }
    assert Sum([l]) == Subtotal(l) by { assert [l][1..] == []; }
  }

  /**
   * Adding one unit raises the total by one unit price: the price of the
   * existing line when the plant is already in the cart, the given price otherwise.
   */
  lemma SumAdded(lines: seq<Line>, id: string, name: string, price: int)
    ensures Sum(Added(lines, id, name, price))
         == Sum(lines) + (if HasId(lines, id) then lines[IndexOf(lines, id).value].price else price)
  {
    var r := Added(lines, id, name, price);
    match IndexOf(lines, id)
    case Some(k) =>
      assert r == lines[k := lines[k].(quantity := lines[k].quantity + 1)];
      SumBumped(lines, k);
    case None =>
      assert r == lines + [Line(id, name, price, 1)];
      SumAppended(lines, Line(id, name, price, 1));
  }

  lemma SumBumped(lines: seq<Line>, k: nat)
    requires k < |lines|
    ensures Sum(lines[k := lines[k].(quantity := lines[k].quantity + 1)]) == Sum(lines) + lines[k].price
  {
    var l := lines[k].(quantity := lines[k].quantity + 1);
    SumUpdate(lines, k, l);
    assert Subtotal(l) == Subtotal(lines[k]) + lines[k].price by {
      assert lines[k].price * (lines[k].quantity + 1) == lines[k].price * lines[k].quantity + lines[k].price;
    }
  }

  lemma SumAppended(lines: seq<Line>, l: Line)
    ensures Sum(lines + [l]) == Sum(lines) + Subtotal(l)
  {
    SumConcat(lines, [l]);
    assert [l][1..] == [];
  }

  /** Removing a present plant lowers the total by exactly that line's subtotal. */
  lemma SumRemoved(lines: seq<Line>, id: string)
    requires WellFormed(lines)
    ensures Sum(Removed(lines, id))
         == Sum(lines) - (if HasId(lines, id) then Subtotal(lines[IndexOf(lines, id).value]) else 0)
  {
    if HasId(lines, id) {
      var k := IndexOf(lines, id).value;
      RemovedExisting(lines, id, k);
      SumDeleted(lines, k);
    }
  }

  lemma SumDeleted(lines: seq<Line>, k: nat)
    requires k < |lines|
    ensures Sum(lines[..k] + lines[k + 1..]) == Sum(lines) - Subtotal(lines[k])
  {
    var head, tail := lines[..k], lines[k + 1..];
    assert lines == head + [lines[k]] + tail;
    SumConcat(head + [lines[k]], tail);
    SumAppended(head, lines[k]);
    SumConcat(head, tail);
  }

  lemma AddedPreservesWellFormed(lines: seq<Line>, id: string, name: string, price: int)
    requires WellFormed(lines)
    ensures WellFormed(Added(lines, id, name, price))
  {
  }

  /** Removal keeps exactly the lines whose id differs. */
  lemma {:induction false} RemovedMembers(lines: seq<Line>, id: string)
    ensures forall l :: l in Removed(lines, id) <==> l in lines && l.id != id
  {
    if lines != [] {
      RemovedMembers(lines[1..], id);
      assert lines == [lines[0]] + lines[1..];
    }
  }

  lemma {:induction false} RemovedPreservesWellFormed(lines: seq<Line>, id: string)
    requires WellFormed(lines)
    ensures WellFormed(Removed(lines, id))
  {
    if lines != [] {
      var tail := lines[1..];
      assert WellFormed(tail) by {
        forall i, j | 0 <= i < j < |tail| ensures tail[i].id != tail[j].id {
          assert tail[i] == lines[i + 1] && tail[j] == lines[j + 1];
        }
      }
      RemovedPreservesWellFormed(tail, id);
      RemovedMembers(tail, id);
      var rest := Removed(tail, id);
      if lines[0].id != id {
        forall j | 0 <= j < |rest| ensures rest[j].id != lines[0].id {
          assert rest[j] in tail;
          var m :| 0 <= m < |tail| && tail[m] == rest[j];
          assert lines[m + 1] == rest[j];
        }
        assert Removed(lines, id) == [lines[0]] + rest;
      }
    }
  }

  /** Adding a new plant twice gives one line of quantity 2, not two lines. */
  lemma AddedTwice(lines: seq<Line>, id: string, name: string, price: int, name': string, price': int)
    requires !HasId(lines, id)
    ensures Added(Added(lines, id, name, price), id, name', price') == lines + [Line(id, name, price, 2)]
  {
    var once := Added(lines, id, name, price);
    assert once == lines + [Line(id, name, price, 1)];
    assert IndexOf(once, id) == Some(|lines|);
  }

  /** A user action on the cart. */
  datatype Action = AddItem(id: string, name: string, price: int) | RemoveItem(id: string)

  function Apply(lines: seq<Line>, a: Action): seq<Line> {
    match a
    case AddItem(id, name, price) => Added(lines, id, name, price)
    case RemoveItem(id) => Removed(lines, id)
  }

  /** The cart after a sequence of actions, starting from the empty cart of a fresh page. */
  function Replay(actions: seq<Action>): seq<Line> {
    if actions == [] then [] else Apply(Replay(actions[..|actions| - 1]), actions[|actions| - 1])
  }

  /** Whatever the user does, ids stay unique and every quantity stays at least 1. */
  lemma {:induction false} ReplayWellFormed(actions: seq<Action>)
    ensures WellFormed(Replay(actions))
  {
    if actions != [] {
      var prefix := actions[..|actions| - 1];
      ReplayWellFormed(prefix);
      match actions[|actions| - 1]
      case AddItem(id, name, price) => AddedPreservesWellFormed(Replay(prefix), id, name, price);
      case RemoveItem(id) => RemovedPreservesWellFormed(Replay(prefix), id);
    }
  }

  /** The page's cart: its lines, changed in place by Add and reassigned by Remove. */
  class Cart {
    var lines: seq<Line>

    ghost predicate Valid()
      reads this
    {
      WellFormed(lines)
    }

    constructor ()
      ensures lines == [] && Valid()
    {
      lines := [];
    }

    /** Looks up the first line with this id. */
    method Find(id: string) returns (found: Option<nat>)
      ensures found == IndexOf(lines, id)
    {
      var i := 0;
      while i < |lines|
        invariant 0 <= i <= |lines|
        invariant forall j :: 0 <= j < i ==> lines[j].id != id
      {
        if lines[i].id == id {
          return Some(i);
        }
        i := i + 1;
      }
      return None;
    }

    /** Adds one unit of a plant: bumps the quantity of its line, or appends a new line. */
    method Add(id: string, name: string, price: int)
      modifies this
      ensures lines == Added(old(lines), id, name, price)
      ensures old(Valid()) ==> Valid()
    {
      var found := Find(id);
      match found {
        case Some(k) =>
          lines := lines[k := lines[k].(quantity := lines[k].quantity + 1)];
        case None =>
          lines := lines + [Line(id, name, price, 1)];
      }
      if old(Valid()) {
        AddedPreservesWellFormed(old(lines), id, name, price);
      }
    }

    /** Removes a plant's line whatever its quantity; a plant not in the cart changes nothing. */
    method Remove(id: string)
      modifies this
      ensures lines == Removed(old(lines), id)
      ensures old(Valid()) ==> Valid()
    {
      lines := Removed(lines, id);
      if old(Valid()) {
        RemovedPreservesWellFormed(old(lines), id);
      }
    }

    /** The total shown under the cart: 0 for an empty cart, else the running sum over the lines. */
    method Total() returns (total: int)
      ensures total == Sum(lines)
    {
      if |lines| == 0 {
        return 0;
      }
      total := 0;
      var i := 0;
      while i < |lines|
        invariant 0 <= i <= |lines|
        invariant total == Sum(lines[..i])
      {
        SumConcat(lines[..i], [lines[i]]);
        assert lines[..i + 1] == lines[..i] + [lines[i]];
        assert [lines[i]][1..] == [];
        total := total + lines[i].price * lines[i].quantity;
        i := i + 1;
      }
      assert lines[..i] == lines;
    }
  }
}
