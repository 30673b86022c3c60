/**
 * Purchase planning: the requirements of the selected orders are compared with the stock
 * of each (material, colour); the shortfall is what to buy. A purchase order stores one
 * item per requirement key; recalculating it clears its items and rebuilds them.
 */
module Purchases {
  import opened Wrappers
  import opened Text
  import opened Inventory
  import opened Requirements
  import opened SalesCalculator
  import opened Sorting

  /** `max(0, qtd_needed - current_stock)` */
  function ToBuy(needed: real, stock: real): (b: real)
    ensures b >= 0.0 && b >= needed - stock
    ensures b == 0.0 <==> stock >= needed
    ensures b > 0.0 ==> stock + b == needed
  {
    if needed - stock > 0.0 then needed - stock else 0.0
  }

  /** `OrdemCompraItem`: needed quantity, the stock at the time, and the quantity to buy. */
  datatype PoItem = PoItem(material: nat, cor: Option<nat>, necessaria: real, estoque: real, comprar: real)

  /** The item for one requirement key; a missing stock row counts as 0.0. */
  function ItemFor(k: Key, needed: real, stock: map<Key, real>): PoItem {
    var current := Get(stock, k);
    PoItem(k.0, k.1, needed, current, ToBuy(needed, current))
  }

  predicate KeysIn(keys: seq<Key>, reqs: map<Key, real>) {
    forall i :: 0 <= i < |keys| ==> keys[i] in reqs
  }

  /** The items for the requirement keys, in the given order. */
  function ItemsFor(keys: seq<Key>, reqs: map<Key, real>, stock: map<Key, real>): (items: seq<PoItem>)
    requires KeysIn(keys, reqs)
    ensures |items| == |keys|
    ensures forall i :: 0 <= i < |keys| ==> items[i] == ItemFor(keys[i], reqs[keys[i]], stock)
  {
    seq(|keys|, i requires 0 <= i < |keys| => ItemFor(keys[i], reqs[keys[i]], stock))
  }

  /** The keys of a report, in the order the report's dictionary lists them. */
  function KeyOrder(orders: seq<Order>, materials: map<nat, Material>): seq<Key>
    requires OrdersOk(orders, materials)
  {
    FirstKeys(OrdersContribs(orders, materials))
  }

  lemma KeyOrderEnumerates(orders: seq<Order>, materials: map<nat, Material>)
    requires OrdersOk(orders, materials)
    ensures Distinct(KeyOrder(orders, materials))
    ensures forall k :: k in KeyOrder(orders, materials) <==> k in Report(orders, materials)
    ensures KeysIn(KeyOrder(orders, materials), Report(orders, materials))
  {
    FirstKeysEnumerate(OrdersContribs(orders, materials));
  }

  /**
   * One item per requirement key and no other: every key of the requirements has exactly
   * one item, every item belongs to a key, and each item stores the needed quantity, the
   * stock (0.0 when there is no stock row) and the shortfall.
   */
  lemma ItemsExactlyPerKey(keys: seq<Key>, reqs: map<Key, real>, stock: map<Key, real>)
    requires Distinct(keys) && KeysIn(keys, reqs) && forall k :: k in reqs ==> k in keys
    ensures var items := ItemsFor(keys, reqs, stock);
            (forall k :: k in reqs <==> exists i :: 0 <= i < |items| && (items[i].material, items[i].cor) == k)
            && (forall i, j :: 0 <= i < j < |items| ==> (items[i].material, items[i].cor) != (items[j].material, items[j].cor))
            && (forall i :: 0 <= i < |items| ==>
                  var k := (items[i].material, items[i].cor);
                  k in reqs && items[i].necessaria == reqs[k] && items[i].estoque == Get(stock, k)
                  && items[i].comprar == ToBuy(reqs[k], Get(stock, k)))
  {
    var items := ItemsFor(keys, reqs, stock);
    assert forall i :: 0 <= i < |items| ==> (items[i].material, items[i].cor) == keys[i];
    forall k | k in reqs
      ensures exists i :: 0 <= i < |items| && (items[i].material, items[i].cor) == k
    {
      var i :| 0 <= i < |keys| && keys[i] == k;
      assert (items[i].material, items[i].cor) == k;
    }
  }

  /** `Pedido.objects.filter(id__in=ids)`: the orders of the table with a selected id, in table order. */
  function WithIds(table: seq<Order>, ids: set<nat>): (r: seq<Order>)
    ensures |r| <= |table|
    ensures forall i :: 0 <= i < |r| ==> r[i] in table && r[i].id in ids
    ensures forall o :: o in table && o.id in ids ==> o in r
  {
    if table == [] then []
    else
      var last := table[|table| - 1];
      WithIds(table[..|table| - 1], ids) + (if last.id in ids then [last] else [])
  }

  /** The ids of a list of orders, as `oc.pedidos.set(orders)` stores them. */
  function OrderIds(orders: seq<Order>): set<nat> {
    set o | o in orders :: o.id
  }

  /** The purchase order stores the selected ids that name an existing order, and only those. */
  lemma {:induction false} WithIdsIds(table: seq<Order>, ids: set<nat>)
    ensures OrderIds(WithIds(table, ids)) == ids * OrderIds(table)
  {
    var r := WithIds(table, ids);
    forall n | n in ids * OrderIds(table)
      ensures n in OrderIds(r)
    {
      var o :| o in table && o.id == n;
      assert o in r;
    }
  }

  /**
   * Looking up the stored ids again gives back the very orders the creation summed, so a
   * recalculation on an unchanged table uses the same orders.
   */
  lemma {:induction false} WithIdsStable(table: seq<Order>, ids: set<nat>)
    ensures WithIds(table, OrderIds(WithIds(table, ids))) == WithIds(table, ids)
  {
    WithIdsIds(table, ids);
    WithIdsSameFilter(table, ids, OrderIds(WithIds(table, ids)));
  }

  /** Two id sets that agree on the table's ids select the same orders. */
  lemma {:induction false} WithIdsSameFilter(table: seq<Order>, a: set<nat>, b: set<nat>)
    requires forall o :: o in table ==> (o.id in a <==> o.id in b)
    ensures WithIds(table, a) == WithIds(table, b)
    decreases |table|
  {
    if table != [] {
      var front := table[..|table| - 1];
      assert forall o :: o in front ==> o in table;
      WithIdsSameFilter(front, a, b);
      assert table[|table| - 1] in table;
    }
  }

  /** `OrdemCompra` with its orders and items. */
  class PurchaseOrder {
    var status: string
    var pedidos: set<nat>
    var itens: seq<PoItem>

    constructor (pedidos0: set<nat>)
      ensures status == "aberta" && pedidos == pedidos0 && itens == []
    {
      status := "aberta";
      pedidos := pedidos0;
      itens := [];
    }

    /** The item-creation loop over the requirements. */
    method CreateItems(keys: seq<Key>, reqs: map<Key, real>, stock: map<Key, real>)
      requires KeysIn(keys, reqs)
      modifies this
      ensures itens == old(itens) + ItemsFor(keys, reqs, stock)
      ensures status == old(status) && pedidos == old(pedidos)
    {
      ghost var start := itens;
      for i := 0 to |keys|
        invariant itens == start + ItemsFor(keys[..i], reqs, stock)
        invariant status == old(status) && pedidos == old(pedidos)
      {
        var k := keys[i];
        var qtdNeeded := reqs[k];
        var currentStock := if k in stock then stock[k] else 0.0;
        var toBuy := if qtdNeeded - currentStock > 0.0 then qtdNeeded - currentStock else 0.0;
        itens := itens + [PoItem(k.0, k.1, qtdNeeded, currentStock, toBuy)];
        assert ItemsFor(keys[..i + 1], reqs, stock) == ItemsFor(keys[..i], reqs, stock) + [ItemFor(k, reqs[k], stock)];
      }
      assert keys[..|keys|] == keys;
    }

    /**
     * `purchase_order_recalculate`: the existing items are deleted, the requirements of
     * the purchase order's own orders (`oc.pedidos.all()`, looked up in the order table)
     * are computed again, and one item per key is created.
     */
    method Recalculate(table: seq<Order>, materials: map<nat, Material>, stock: map<Key, real>)
      requires OrdersOk(table, materials)
      modifies this
      ensures OrdersOk(WithIds(table, pedidos), materials)
      ensures var orders := WithIds(table, pedidos);
              KeysIn(KeyOrder(orders, materials), Report(orders, materials))
              && itens == ItemsFor(KeyOrder(orders, materials), Report(orders, materials), stock)
      ensures status == old(status) && pedidos == old(pedidos)
    {
      itens := [];
      var orders := WithIds(table, pedidos);
      var requirements := MaterialRequirements(orders, materials);
      KeyOrderEnumerates(orders, materials);
      CreateItems(KeyOrder(orders, materials), requirements, stock);
    }
  }

  /**
   * `purchase_order_create`: nothing without a selection; otherwise a new open purchase
   * order whose orders are the selected orders that exist, with one item per key of their
   * requirements.
   */
  method PurchaseOrderCreate(selected: set<nat>, table: seq<Order>, materials: map<nat, Material>, stock: map<Key, real>)
    returns (oc: PurchaseOrder?)
    requires OrdersOk(table, materials)
    ensures selected == {} ==> oc == null
    ensures OrdersOk(WithIds(table, selected), materials)
    ensures selected != {} ==>
              var orders := WithIds(table, selected);
              oc != null && fresh(oc) && oc.status == "aberta" && oc.pedidos == OrderIds(orders)
              && KeysIn(KeyOrder(orders, materials), Report(orders, materials))
              && oc.itens == ItemsFor(KeyOrder(orders, materials), Report(orders, materials), stock)
  {
    if selected == {} {
      return null;
    }
    var orders := WithIds(table, selected);
    oc := new PurchaseOrder(OrderIds(orders));
    var requirements := MaterialRequirements(orders, materials);
    KeyOrderEnumerates(orders, materials);
    oc.CreateItems(KeyOrder(orders, materials), requirements, stock);
  }

  /**
   * After a recalculation the purchase order's items correspond exactly to the current
   * requirement keys, one each, whatever items it had before.
   */
  lemma RecalculatedItemsExact(orders: seq<Order>, materials: map<nat, Material>, stock: map<Key, real>)
    requires OrdersOk(orders, materials)
    ensures KeysIn(KeyOrder(orders, materials), Report(orders, materials))
    ensures var items := ItemsFor(KeyOrder(orders, materials), Report(orders, materials), stock);
            (forall k :: k in Report(orders, materials) <==>
               exists i :: 0 <= i < |items| && (items[i].material, items[i].cor) == k)
            && forall i, j :: 0 <= i < j < |items| ==>
                 (items[i].material, items[i].cor) != (items[j].material, items[j].cor)
  {
    KeyOrderEnumerates(orders, materials);
    ItemsExactlyPerKey(KeyOrder(orders, materials), Report(orders, materials), stock);
  }

  // ---------------------------------------------------------------------------------------
  // The preview list, sorted by material name

  datatype PreviewRow = PreviewRow(nome: string, item: PoItem)

  /** The sort key of the preview: rows compare by material name. */
  predicate NameLe(a: PreviewRow, b: PreviewRow) {
    StrLe(a.nome, b.nome)
  }

  /**
   * `preview_list.sort(key=lambda x: x['material'].nome)`: the sorted preview holds the
   * same rows, each name not greater than the next.
   */
  lemma NameOrderTotal()
    ensures Total(NameLe)
  {
    forall a: PreviewRow, b: PreviewRow
      ensures NameLe(a, b) || NameLe(b, a)
    {
      StrLeTotal(a.nome, b.nome);
    }
  }

  lemma SortByNameCorrect(rows: seq<PreviewRow>)
    ensures SortedBy(NameLe, SortBy(NameLe, rows))
    ensures multiset(SortBy(NameLe, rows)) == multiset(rows)
  {
    NameOrderTotal();
    SortByCorrect(NameLe, rows);
  }

  predicate NamesKnown(keys: seq<Key>, materials: map<nat, Material>) {
    forall i :: 0 <= i < |keys| ==> keys[i].0 in materials
  }

  /** The preview rows in the order of the keys, before sorting. */
  function PreviewRows(keys: seq<Key>, reqs: map<Key, real>, stock: map<Key, real>, materials: map<nat, Material>)
    : (rows: seq<PreviewRow>)
    requires KeysIn(keys, reqs) && NamesKnown(keys, materials)
    ensures |rows| == |keys|
    ensures forall i :: 0 <= i < |keys| ==>
              rows[i] == PreviewRow(materials[keys[i].0].nome, ItemFor(keys[i], reqs[keys[i]], stock))
  {
    seq(|keys|, i requires 0 <= i < |keys| => PreviewRow(materials[keys[i].0].nome, ItemFor(keys[i], reqs[keys[i]], stock)))
  }

  /**
   * The preview of `visualize_purchase_creation`: one row per requirement key with the
   * needed quantity, the stock and the shortfall, sorted by material name.
   */
  method PreviewList(keys: seq<Key>, reqs: map<Key, real>, stock: map<Key, real>, materials: map<nat, Material>)
    returns (preview: seq<PreviewRow>)
    requires KeysIn(keys, reqs) && NamesKnown(keys, materials)
    ensures preview == SortBy(NameLe, PreviewRows(keys, reqs, stock, materials))
  {
    var rows: seq<PreviewRow> := [];
    for i := 0 to |keys|
      invariant rows == PreviewRows(keys[..i], reqs, stock, materials)
    {
      var k := keys[i];
      var qtdNeeded := reqs[k];
      var currentStock := if k in stock then stock[k] else 0.0;
      var toBuy := if qtdNeeded - currentStock > 0.0 then qtdNeeded - currentStock else 0.0;
      rows := rows + [PreviewRow(materials[k.0].nome, PoItem(k.0, k.1, qtdNeeded, currentStock, toBuy))];
    }
    assert keys[..|keys|] == keys;
    preview := SortBy(NameLe, rows);
  }

  /** The report's keys all name known materials, so every preview row has a name to sort by. */
  lemma KeyOrderNamesKnown(orders: seq<Order>, materials: map<nat, Material>)
    requires OrdersOk(orders, materials)
    ensures NamesKnown(KeyOrder(orders, materials), materials)
  {
    var cs := OrdersContribs(orders, materials);
    var keys := KeyOrder(orders, materials);
    FirstKeysEnumerate(cs);
    OrdersContribsKnown(orders, materials);
    forall i | 0 <= i < |keys|
      ensures keys[i].0 in materials
    {
      AccumulateMeaning(map[], cs, keys[i]);
      var c :| c in cs && c.key == keys[i];
    }
  }

  /**
   * `visualize_purchase_creation`: nothing (a redirect) without a selection; otherwise the
   * sorted preview for the selected orders that exist.
   */
  method VisualizePurchaseCreation(selected: set<nat>, table: seq<Order>, materials: map<nat, Material>,
                                   stock: map<Key, real>)
    returns (preview: Option<seq<PreviewRow>>)
    requires OrdersOk(table, materials)
    ensures OrdersOk(WithIds(table, selected), materials)
    ensures var orders := WithIds(table, selected);
            KeysIn(KeyOrder(orders, materials), Report(orders, materials))
            && NamesKnown(KeyOrder(orders, materials), materials)
    ensures selected == {} <==> preview.None?
    ensures var orders := WithIds(table, selected);
            preview.Some? ==>
              preview.value == SortBy(NameLe, PreviewRows(KeyOrder(orders, materials), Report(orders, materials), stock, materials))
  {
    var orders := WithIds(table, selected);
    KeyOrderEnumerates(orders, materials);
    KeyOrderNamesKnown(orders, materials);
    if selected == {} {
      return None;
    }
    var requirements := MaterialRequirements(orders, materials);
    var rows := PreviewList(KeyOrder(orders, materials), requirements, stock, materials);
    preview := Some(rows);
  }
}
