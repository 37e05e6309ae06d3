/**
 * The editing session of the quotation window: the list of items, the table
 * rows that show them (one per item, same order), and the client fields.
 */
module Session {
  import opened Wrappers
  import opened Pricing
  import opened LineItems
  import opened QuotePdf

  /** A row of the on-screen item table; `id` is the table's own handle for the row. */
  datatype Row = Row(id: nat, roomName: string, description: Description, quantity: int, price: real)

  /** The row the table shows for an item. */
  function RowOf(id: nat, item: LineItem): (row: Row)
    ensures row.id == id && row.price == item.totalPrice
    ensures row.roomName == item.roomName && row.description == item.description
    ensures row.quantity == item.quantity
  {
    Row(id, item.roomName, item.description, item.quantity, item.totalPrice)
  }

  /** The handles of the rows. */
  function IdsOf(rows: seq<Row>): (ids: set<nat>)
    decreases |rows|
  {
    if rows == [] then {} else {rows[0].id} + IdsOf(rows[1..])
  }

  predicate DistinctIds(rows: seq<Row>) {
    forall i, j :: 0 <= i < j < |rows| ==> rows[i].id != rows[j].id
  }

  lemma {:induction false} IdsOfIndex(rows: seq<Row>, id: nat)
    ensures id in IdsOf(rows) <==> exists i :: 0 <= i < |rows| && rows[i].id == id
    decreases |rows|
  {
    if rows != [] {
      IdsOfIndex(rows[1..], id);
      if id in IdsOf(rows[1..]) {
        var i :| 0 <= i < |rows[1..]| && rows[1..][i].id == id;
        assert rows[i + 1].id == id;
      }
      if exists i :: 0 <= i < |rows| && rows[i].id == id {
        var i :| 0 <= i < |rows| && rows[i].id == id;
        if i > 0 {
          assert rows[1..][i - 1].id == id;
        }
      }
    }
  }

  /** The current position of a row in the table, looked up by its handle. */
  function IndexOf(rows: seq<Row>, id: nat): (i: nat)
    requires id in IdsOf(rows)
    ensures i < |rows| && rows[i].id == id
    ensures forall j :: 0 <= j < i ==> rows[j].id != id
    decreases |rows|
  {
    if rows[0].id == id then 0 else 1 + IndexOf(rows[1..], id)
  }

  /** The rows whose handles are not in `selected`, in their order. */
  function Unselected(rows: seq<Row>, selected: set<nat>): (r: seq<Row>)
    ensures |r| <= |rows|
    decreases |rows|
  {
    if rows == [] then []
    else (if rows[0].id in selected then [] else [rows[0]]) + Unselected(rows[1..], selected)
  }

  /** The items whose rows are not in `selected`, in their order. */
  function Survivors(items: seq<LineItem>, rows: seq<Row>, selected: set<nat>): (r: seq<LineItem>)
    requires |items| == |rows|
    ensures |r| == |Unselected(rows, selected)|
    decreases |rows|
  {
    if rows == [] then []
    else (if rows[0].id in selected then [] else [items[0]]) + Survivors(items[1..], rows[1..], selected)
  }

  /** Exactly the selected handles disappear from the table. */
  lemma {:induction false} UnselectedIds(rows: seq<Row>, selected: set<nat>)
    ensures IdsOf(Unselected(rows, selected)) == IdsOf(rows) - selected
    decreases |rows|
  {
    if rows != [] {
      UnselectedIds(rows[1..], selected);
      var head := if rows[0].id in selected then [] else [rows[0]];
      var rest := Unselected(rows[1..], selected);
      IdsOfConcat(head, rest);
    }
  }

  lemma {:induction false} IdsOfConcat(a: seq<Row>, b: seq<Row>)
    ensures IdsOf(a + b) == IdsOf(a) + IdsOf(b)
    decreases |a|
  {
    if a != [] {
      assert (a + b)[0] == a[0];
      assert (a + b)[1..] == a[1..] + b;
      IdsOfConcat(a[1..], b);
      assert IdsOf(a + b) == {a[0].id} + IdsOf(a[1..] + b);
    } else {
      assert a + b == b;
    }
  }

  /** Deselecting handles that are not in the table changes nothing. */
  lemma {:induction false} UnselectedNone(items: seq<LineItem>, rows: seq<Row>, selected: set<nat>)
    requires |items| == |rows|
    requires IdsOf(rows) !! selected
    ensures Unselected(rows, selected) == rows
    ensures Survivors(items, rows, selected) == items
    decreases |rows|
  {
    if rows != [] {
      UnselectedNone(items[1..], rows[1..], selected);
    }
  }

  /** Removing the one row with handle `rows[i].id` is removing position i, in both lists. */
  lemma {:induction false} UnselectedAt(items: seq<LineItem>, rows: seq<Row>, i: nat)
    requires |items| == |rows| && i < |rows| && DistinctIds(rows)
    ensures Unselected(rows, {rows[i].id}) == rows[..i] + rows[i + 1..]
    ensures Survivors(items, rows, {rows[i].id}) == items[..i] + items[i + 1..]
    decreases i
  {
    var x := rows[i].id;
    if i == 0 {
      IdsOfIndex(rows[1..], x);
      forall j | 0 <= j < |rows[1..]|
        ensures rows[1..][j].id != x
      {
        assert rows[1..][j] == rows[j + 1];
      }
      UnselectedNone(items[1..], rows[1..], {x});
    } else {
      assert rows[1..][i - 1] == rows[i];
      UnselectedAt(items[1..], rows[1..], i - 1);
      assert rows[0].id != x;
      assert rows[..i] + rows[i + 1..] == [rows[0]] + (rows[1..][..i - 1] + rows[1..][i..]);
      assert items[..i] + items[i + 1..] == [items[0]] + (items[1..][..i - 1] + items[1..][i..]);
    }
  }

  /** Deselecting in two rounds is deselecting the union once. */
  lemma {:induction false} UnselectedTwice(items: seq<LineItem>, rows: seq<Row>, s: set<nat>, t: set<nat>)
    requires |items| == |rows|
    ensures Unselected(Unselected(rows, s), t) == Unselected(rows, s + t)
    ensures Survivors(Survivors(items, rows, s), Unselected(rows, s), t) == Survivors(items, rows, s + t)
    decreases |rows|
  {
    if rows != [] {
      UnselectedTwice(items[1..], rows[1..], s, t);
      var rest, restItems := Unselected(rows[1..], s), Survivors(items[1..], rows[1..], s);
      if rows[0].id in s {
        assert Unselected(rows, s) == rest;
        assert Survivors(items, rows, s) == restItems;
        assert Unselected(rows, s + t) == Unselected(rows[1..], s + t);
        assert Survivors(items, rows, s + t) == Survivors(items[1..], rows[1..], s + t);
      } else {
        var once, onceItems := [rows[0]] + rest, [items[0]] + restItems;
        assert Unselected(rows, s) == once;
        assert Survivors(items, rows, s) == onceItems;
        assert once[0] == rows[0] && once[1..] == rest;
        assert onceItems[0] == items[0] && onceItems[1..] == restItems;
        var head := if rows[0].id in t then [] else [rows[0]];
        var headItem := if rows[0].id in t then [] else [items[0]];
        assert Unselected(once, t) == head + Unselected(rest, t);
        assert Survivors(onceItems, once, t) == headItem + Survivors(restItems, rest, t);
        assert Unselected(rows, s + t) == head + Unselected(rows[1..], s + t);
        assert Survivors(items, rows, s + t) == headItem + Survivors(items[1..], rows[1..], s + t);
      }
    }
  }

  /** `a` is `b` with some elements left out, the rest in their order. */
  predicate IsSubsequence<T(==)>(a: seq<T>, b: seq<T>)
    decreases |b|
  {
    if a == [] then true
    else if b == [] then false
    else (a[0] == b[0] && IsSubsequence(a[1..], b[1..])) || IsSubsequence(a, b[1..])
  }

  lemma SubsequenceOfTail<T>(a: seq<T>, b: seq<T>)
    requires b != [] && IsSubsequence(a, b[1..])
    ensures IsSubsequence(a, b)
  {
  }

  /** The items left after a deletion are the old ones, unchanged and in their old order. */
  lemma {:induction false} SurvivorsKeepOrder(items: seq<LineItem>, rows: seq<Row>, selected: set<nat>)
    requires |items| == |rows|
    ensures IsSubsequence(Survivors(items, rows, selected), items)
    ensures IsSubsequence(Unselected(rows, selected), rows)
    decreases |rows|
  {
    if rows != [] {
      SurvivorsKeepOrder(items[1..], rows[1..], selected);
      var rest, restItems := Unselected(rows[1..], selected), Survivors(items[1..], rows[1..], selected);
      if rows[0].id !in selected {
        var kept, keptItems := [rows[0]] + rest, [items[0]] + restItems;
        assert Unselected(rows, selected) == kept;
        assert Survivors(items, rows, selected) == keptItems;
        assert kept[0] == rows[0] && kept[1..] == rest;
        assert keptItems[0] == items[0] && keptItems[1..] == restItems;
        assert IsSubsequence(kept, rows);
        assert IsSubsequence(keptItems, items);
      } else {
        assert Unselected(rows, selected) == rest;
        assert Survivors(items, rows, selected) == restItems;
        SubsequenceOfTail(rest, rows);
        SubsequenceOfTail(restItems, items);
      }
    }
  }

  /**
   * The table shows `items` one to one and in order, under distinct handles
   * all below `nextRowId`, and every item is well priced.
   */
  ghost predicate Aligned(items: seq<LineItem>, rows: seq<Row>, nextRowId: nat) {
    && |rows| == |items|
    && (forall i :: 0 <= i < |rows| ==>
          rows[i] == RowOf(rows[i].id, items[i]) && rows[i].id < nextRowId && WellPriced(items[i]))
    && DistinctIds(rows)
  }

  /** Removing the same position from both lists keeps them aligned. */
  lemma AlignedRemoveAt(items: seq<LineItem>, rows: seq<Row>, nextRowId: nat, i: nat)
    requires Aligned(items, rows, nextRowId) && i < |rows|
    ensures Aligned(items[..i] + items[i + 1..], rows[..i] + rows[i + 1..], nextRowId)
  {
  }

  /** Adding an item with a fresh handle keeps the lists aligned. */
  lemma AlignedAppend(items: seq<LineItem>, rows: seq<Row>, nextRowId: nat, item: LineItem)
    requires Aligned(items, rows, nextRowId) && WellPriced(item)
    ensures Aligned(items + [item], rows + [RowOf(nextRowId, item)], nextRowId + 1)
  {
  }

  /**
   * One round of "Delete Selected": after the rows in `removed` are gone,
   * looking up `x` and removing its position from both lists is the same as
   * having removed `removed + {x}`, and keeps the lists aligned.
   */
  lemma DeleteStep(items0: seq<LineItem>, rows0: seq<Row>, removed: set<nat>, x: nat, nextRowId: nat)
    returns (rows: seq<Row>, items: seq<LineItem>, i: nat)
    requires |items0| == |rows0|
    requires Aligned(Survivors(items0, rows0, removed), Unselected(rows0, removed), nextRowId)
    requires x in IdsOf(rows0) && x !in removed
    ensures rows == Unselected(rows0, removed) && items == Survivors(items0, rows0, removed)
    ensures x in IdsOf(rows) && i == IndexOf(rows, x)
    ensures rows[..i] + rows[i + 1..] == Unselected(rows0, removed + {x})
    ensures items[..i] + items[i + 1..] == Survivors(items0, rows0, removed + {x})
    ensures Aligned(items[..i] + items[i + 1..], rows[..i] + rows[i + 1..], nextRowId)
  {
    rows, items := Unselected(rows0, removed), Survivors(items0, rows0, removed);
    UnselectedIds(rows0, removed);
    i := IndexOf(rows, x);
    UnselectedAt(items, rows, i);
    UnselectedTwice(items0, rows0, removed, {x});
    AlignedRemoveAt(items, rows, nextRowId, i);
  }

  /** The set of handles listed in a selection. */
  function Handles(selected: seq<nat>): (s: set<nat>)
    ensures forall x :: x in s <==> x in selected
  {
    set x | x in selected
  }

  /** The handles of a selection are table handles, each listed once. */
  predicate IsSelectionOf(selected: seq<nat>, rows: seq<Row>) {
    && (forall x :: x in selected ==> x in IdsOf(rows))
    && (forall a, b :: 0 <= a < b < |selected| ==> selected[a] != selected[b])
  }

  /**
   * One round of the deletion loop, stated on the loop's own variables: after
   * the first k selected rows are gone, removing the current position of the
   * next one leaves exactly the first k + 1 removed.
   */
  lemma DeleteRound(items: seq<LineItem>, rows: seq<Row>, nextRowId: nat, selected: seq<nat>, k: nat,
                    items': seq<LineItem>, rows': seq<Row>)
    requires Aligned(items, rows, nextRowId) && IsSelectionOf(selected, rows) && k < |selected|
    requires rows' == Unselected(rows, Handles(selected[..k]))
    requires items' == Survivors(items, rows, Handles(selected[..k]))
    requires Aligned(items', rows', nextRowId)
    ensures selected[k] in IdsOf(rows')
    ensures var i := IndexOf(rows', selected[k]);
            && rows'[..i] + rows'[i + 1..] == Unselected(rows, Handles(selected[..k + 1]))
            && items'[..i] + items'[i + 1..] == Survivors(items, rows, Handles(selected[..k + 1]))
            && Aligned(items'[..i] + items'[i + 1..], rows'[..i] + rows'[i + 1..], nextRowId)
  {
    var x := selected[k];
    var removed := Handles(selected[..k]);
    assert x !in removed;
    assert selected[..k + 1] == selected[..k] + [x];
    assert Handles(selected[..k + 1]) == removed + {x};
    var _, _, _ := DeleteStep(items, rows, removed, x, nextRowId);
  }

  /**
   * The loop of "Delete Selected": for each selected handle in turn, find the
   * row's current position, and remove that position from the table and from
   * the item list.
   */
  method RemoveSelectedRows(items: seq<LineItem>, rows: seq<Row>, nextRowId: nat, selected: seq<nat>)
    returns (items': seq<LineItem>, rows': seq<Row>)
    requires Aligned(items, rows, nextRowId)
    requires IsSelectionOf(selected, rows)
    ensures Aligned(items', rows', nextRowId)
    ensures rows' == Unselected(rows, Handles(selected))
    ensures items' == Survivors(items, rows, Handles(selected))
    ensures IdsOf(rows') == IdsOf(rows) - Handles(selected)
    ensures |items'| == |items| - |selected|
  {
    items', rows' := items, rows;
    var k := 0;
    assert Handles(selected[..0]) == {};
    UnselectedNone(items, rows, {});
    while k < |selected|
      invariant 0 <= k <= |selected|
      invariant Aligned(items', rows', nextRowId)
      invariant rows' == Unselected(rows, Handles(selected[..k]))
      invariant items' == Survivors(items, rows, Handles(selected[..k]))
      invariant |rows'| == |rows| - k
    {
      DeleteRound(items, rows, nextRowId, selected, k, items', rows');
      var index := IndexOf(rows', selected[k]);
      rows' := rows'[..index] + rows'[index + 1..];
      items' := items'[..index] + items'[index + 1..];
      k := k + 1;
    }
    assert selected[..k] == selected;
    UnselectedIds(rows, Handles(selected));
  }

  /** The outcome of "Generate Quotation". */
  datatype GenerateOutcome =
    | Refused(reason: GenerateError)
    | Cancelled
    | Saved(path: string, document: Document)
    | SaveFailed(path: string)

  /** The quotation window's data: the item list, the table showing it, and the client fields. */
  class QuotationApp {
    var items: seq<LineItem>
    var rows: seq<Row>
    var client: ClientInfo
    /** The handle the table gives the next row it inserts. */
    var nextRowId: nat

    /** The table shows the items one to one and in order, under distinct handles. */
    ghost predicate Valid()
      reads this
    {
      Aligned(items, rows, nextRowId)
    }

    constructor ()
      ensures Valid()
      ensures items == [] && rows == [] && client == NoClient
    {
      items, rows, client, nextRowId := [], [], NoClient, 0;
    }

    /**
     * "Add Item": on success the new item goes to the end of the list and its
     * row to the end of the table; on failure nothing changes.
     */
    method AddItem(form: EntryForm) returns (error: Option<AddError>)
      requires Valid()
      modifies this
      ensures Valid()
      ensures client == old(client)
      ensures match PriceItem(form)
              case Success(item) =>
                && error == None
                && items == old(items) + [item]
                && rows == old(rows) + [RowOf(old(nextRowId), item)]
                && Subtotal(items) == Subtotal(old(items)) + item.totalPrice
              case Failure(e) =>
                && error == Some(e)
                && items == old(items) && rows == old(rows)
    {
      var priced := PriceItem(form);
      match priced
      case Failure(e) =>
        error := Some(e);
      case Success(item) =>
        SubtotalAppend(items, item);
        AlignedAppend(items, rows, nextRowId, item);
        items := items + [item];
        rows := rows + [RowOf(nextRowId, item)];
        nextRowId := nextRowId + 1;
        error := None;
    }

    /**
     * "Delete Selected": for each selected row in turn, find its current
     * position in the table, remove the row, and remove the item at that
     * position.
     */
    method DeleteSelected(selected: seq<nat>)
      requires Valid()
      requires IsSelectionOf(selected, rows)
      modifies this
      ensures Valid()
      ensures rows == Unselected(old(rows), Handles(selected))
      ensures items == Survivors(old(items), old(rows), Handles(selected))
      ensures IdsOf(rows) == IdsOf(old(rows)) - Handles(selected)
      ensures |items| == |old(items)| - |selected|
      ensures client == old(client) && nextRowId == old(nextRowId)
    {
      if |selected| == 0 {
        UnselectedNone(items, rows, Handles(selected));
        UnselectedIds(rows, Handles(selected));
        return;
      }
      items, rows := RemoveSelectedRows(items, rows, nextRowId, selected);
    }

    /** "Clear All": when confirmed, the items, the table and the client fields are emptied. */
    method ClearAll(confirmed: bool)
      requires Valid()
      modifies this
      ensures Valid()
      ensures confirmed ==> items == [] && rows == [] && client == NoClient
      ensures !confirmed ==> items == old(items) && rows == old(rows) && client == old(client)
      ensures nextRowId == old(nextRowId)
    {
      if confirmed {
        items := [];
        rows := [];
        client := NoClient;
      }
    }

    /**
     * "Generate Quotation": refuse an empty list, then incomplete client
     * details; otherwise ask for a file (`savePath`, "" when the dialog is
     * cancelled) and write the composed document there (`written` tells
     * whether writing succeeded). The session itself is left unchanged.
     */
    method GenerateQuotation(savePath: string, written: bool) returns (outcome: GenerateOutcome)
      ensures items == [] ==> outcome == Refused(NoItems)
      ensures items != [] && !Complete(client) ==> outcome == Refused(IncompleteClient)
      ensures items != [] && Complete(client) && savePath == "" ==> outcome == Cancelled
      ensures outcome.Saved? <==> items != [] && Complete(client) && savePath != "" && written
      ensures outcome.SaveFailed? <==> items != [] && Complete(client) && savePath != "" && !written
      ensures outcome.Saved? ==>
                && outcome.path == savePath
                && outcome.document.items == items
                && outcome.document.client == client
                && outcome.document.totals.subtotal == Subtotal(items)
                && outcome.document.totals.grandTotal == Subtotal(items) * 1.05
                && outcome.document.totals.vatAmount == Subtotal(items) * 0.05
                && outcome.document.terms == Terms
    ensures outcome.Saved? ==> Compose(items, client) == Success(outcome.document)
    {
      var composed := Compose(items, client);
      if composed.Failure? {
        return Refused(composed.error);
      }
      if savePath == "" {
        return Cancelled;
      }
      if written {
        outcome := Saved(savePath, composed.value);
      } else {
        outcome := SaveFailed(savePath);
      }
    }
  }
}
