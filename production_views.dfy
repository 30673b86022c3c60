/**
 * Production planning over the order lines: the dashboard's grouping of released lines by
 * product, the creation of a production order (OP) for one product or for a selection of
 * lines, the allocation of machines to an OP, and the per-product totals of what is in
 * production. An order line is identified by its index in the line table.
 */
module ProductionViews {
  import opened Wrappers
  import opened Text
  import opened SalesModels
  import Requirements

  /**
   * An order line as production sees it. `hasOp` is whether some OP item already points at
   * the line (the reverse relation `producoes` is not empty).
   */
  datatype OrderLine = OrderLine(produto: Option<nat>, molde: Option<nat>, quantidade: int, status: ItemStatus, hasOp: bool)

  /** The quantity of line `i`, 0 for an index outside the table. */
  function QtyAt(items: seq<OrderLine>, i: nat): int {
    if i < |items| then items[i].quantidade else 0
  }

  /** `sum(item.quantidade for item in ...)` over the listed lines. */
  function SumAt(items: seq<OrderLine>, idx: seq<nat>): int {
    if idx == [] then 0 else SumAt(items, idx[..|idx| - 1]) + QtyAt(items, idx[|idx| - 1])
  }

  lemma SumAtSnoc(items: seq<OrderLine>, idx: seq<nat>, i: nat)
    ensures SumAt(items, idx + [i]) == SumAt(items, idx) + QtyAt(items, i)
  {
    assert (idx + [i])[..|idx|] == idx;
  }

  /** Listing lines in increasing order: each index once. */
  predicate Increasing(idx: seq<nat>) {
    forall a, b :: 0 <= a < b < |idx| ==> idx[a] < idx[b]
  }

  // ---------------------------------------------------------------------------------------
  // The dashboard

  /** Released for production and not yet in any OP: the dashboard's query. */
  predicate ReadyForOp(it: OrderLine) {
    it.status == LiberadoProducao && !it.hasOp
  }

  predicate ReadyFor(it: OrderLine, p: nat) {
    ReadyForOp(it) && it.produto == Some(p)
  }

  /** The lines among the first n that are ready and of product p, in table order. */
  function ReadyIdx(items: seq<OrderLine>, p: nat, n: nat): seq<nat>
    requires n <= |items|
  {
    if n == 0 then [] else ReadyIdx(items, p, n - 1) + (if ReadyFor(items[n - 1], p) then [n - 1] else [])
  }

  /** Exactly the ready lines of the product, each once and in order. */
  lemma {:induction false} ReadyIdxMeaning(items: seq<OrderLine>, p: nat, n: nat)
    requires n <= |items|
    ensures forall k :: 0 <= k < |ReadyIdx(items, p, n)| ==> ReadyIdx(items, p, n)[k] < n
    ensures forall i :: 0 <= i < n ==> (i in ReadyIdx(items, p, n) <==> ReadyFor(items[i], p))
    ensures Increasing(ReadyIdx(items, p, n))
  {
    if n > 0 {
      ReadyIdxMeaning(items, p, n - 1);
    }
  }

  /** A dashboard group: the product's ready lines and their total quantity. */
  datatype Group = Group(items: seq<nat>, totalQty: int)

  /** The groups after the first n lines, built as the loop builds them. */
  function GroupsUpTo(items: seq<OrderLine>, n: nat): map<nat, Group>
    requires n <= |items|
  {
    if n == 0 then map[]
    else
      var g := GroupsUpTo(items, n - 1);
      var it := items[n - 1];
      if ReadyForOp(it) && it.produto.Some? then
        var old_ := if it.produto.value in g then g[it.produto.value] else Group([], 0);
        g[it.produto.value := Group(old_.items + [n - 1], old_.totalQty + it.quantidade)]
      else g
  }

  lemma {:induction false} GroupMeaningAt(items: seq<OrderLine>, n: nat, p: nat)
    requires n <= |items|
    ensures p in GroupsUpTo(items, n) <==> ReadyIdx(items, p, n) != []
    ensures p in GroupsUpTo(items, n) ==>
              GroupsUpTo(items, n)[p] == Group(ReadyIdx(items, p, n), SumAt(items, ReadyIdx(items, p, n)))
  {
    if n > 0 {
      GroupMeaningAt(items, n - 1, p);
      if ReadyFor(items[n - 1], p) {
        GroupStepHit(items, n, p);
      } else {
        GroupStepMiss(items, n, p);
      }
    }
  }

  /** A ready line of p appends itself to p's group and adds its quantity. */
  lemma GroupStepHit(items: seq<OrderLine>, n: nat, p: nat)
    requires 0 < n <= |items| && ReadyFor(items[n - 1], p)
    requires var g := GroupsUpTo(items, n - 1); var r := ReadyIdx(items, p, n - 1);
             (p in g <==> r != []) && (p in g ==> g[p] == Group(r, SumAt(items, r)))
    ensures p in GroupsUpTo(items, n) && ReadyIdx(items, p, n) != []
    ensures GroupsUpTo(items, n)[p] == Group(ReadyIdx(items, p, n), SumAt(items, ReadyIdx(items, p, n)))
  {
    var g := GroupsUpTo(items, n - 1);
    var r := ReadyIdx(items, p, n - 1);
    var it := items[n - 1];
    assert it.produto.value == p;
    var before := if p in g then g[p] else Group([], 0);
    assert before == Group(r, SumAt(items, r));
    var after := Group(before.items + [n - 1], before.totalQty + it.quantidade);
    assert GroupsUpTo(items, n) == g[p := after];
    assert ReadyIdx(items, p, n) == r + [n - 1];
    SumAtSnoc(items, r, n - 1);
    assert after == Group(r + [n - 1], SumAt(items, r + [n - 1]));
  }

  /** Any other line leaves p's group as it was. */
  lemma GroupStepMiss(items: seq<OrderLine>, n: nat, p: nat)
    requires 0 < n <= |items| && !ReadyFor(items[n - 1], p)
    ensures ReadyIdx(items, p, n) == ReadyIdx(items, p, n - 1)
    ensures p in GroupsUpTo(items, n) <==> p in GroupsUpTo(items, n - 1)
    ensures p in GroupsUpTo(items, n) ==> GroupsUpTo(items, n)[p] == GroupsUpTo(items, n - 1)[p]
  {
    var it := items[n - 1];
    assert !(ReadyForOp(it) && it.produto.Some?) || it.produto.value != p;
  }

  /**
   * The groups are the products with a ready line; each holds exactly those lines, in
   * table order, and the sum of their quantities.
   */
  lemma GroupsMeaning(items: seq<OrderLine>, n: nat)
    requires n <= |items|
    ensures forall p :: p in GroupsUpTo(items, n) <==> ReadyIdx(items, p, n) != []
    ensures forall p :: p in GroupsUpTo(items, n) ==>
              GroupsUpTo(items, n)[p] == Group(ReadyIdx(items, p, n), SumAt(items, ReadyIdx(items, p, n)))
  {
    forall p {
      GroupMeaningAt(items, n, p);
    }
  }

  /**
   * `production_dashboard`: one group per product that has a ready line, holding exactly
   * those lines and the sum of their quantities; lines without a product are skipped.
   */
  method Dashboard(items: seq<OrderLine>) returns (grouped: map<nat, Group>)
    ensures forall p :: p in grouped <==> ReadyIdx(items, p, |items|) != []
    ensures forall p :: p in grouped ==>
              grouped[p] == Group(ReadyIdx(items, p, |items|), SumAt(items, ReadyIdx(items, p, |items|)))
  {
    grouped := map[];
    for j := 0 to |items|
      invariant grouped == GroupsUpTo(items, j)
    {
      var item := items[j];
      if !ReadyForOp(item) || item.produto.None? {
        continue;
      }
      var skuId := item.produto.value;
      if skuId !in grouped {
        grouped := grouped[skuId := Group([], 0)];
      }
      grouped := grouped[skuId := Group(grouped[skuId].items + [j], grouped[skuId].totalQty + item.quantidade)];
    }
    GroupsMeaning(items, |items|);
  }

  // ---------------------------------------------------------------------------------------
  // The "same product already in production" alert

  /** The alert's key: the product's id, else `m_` and the mould's id, else no key. */
  function ProdKey(it: OrderLine): Option<string> {
    if it.produto.Some? then Some(NatToString(it.produto.value))
    else if it.molde.Some? then Some("m_" + NatToString(it.molde.value))
    else None
  }

  /** A mould's key starts with `m`; a product's starts with a digit. */
  lemma ProdKeyHead(it: OrderLine)
    requires ProdKey(it).Some?
    ensures |ProdKey(it).value| > 0 && (ProdKey(it).value[0] == 'm' <==> it.produto.None?)
  {
  }

  /** Keys never mix up two products, two moulds, or a product with a mould. */
  lemma ProdKeyInjective(a: OrderLine, b: OrderLine)
    requires ProdKey(a).Some? && ProdKey(a) == ProdKey(b)
    ensures a.produto == b.produto
    ensures a.produto.None? ==> a.molde == b.molde
  {
    ProdKeyHead(a);
    ProdKeyHead(b);
    if a.produto.Some? && b.produto.Some? {
      NatToStringInjective(a.produto.value, b.produto.value);
    } else if a.produto.None? && b.produto.None? {
      var ka := ProdKey(a).value;
      var kb := ProdKey(b).value;
      assert ka[2..] == NatToString(a.molde.value);
      assert kb[2..] == NatToString(b.molde.value);
      NatToStringInjective(a.molde.value, b.molde.value);
    }
  }

  predicate InProdFor(it: OrderLine, key: string) {
    it.status == EmProducao && ProdKey(it) == Some(key)
  }

  /** The lines among the first n in production under `key`, in table order. */
  function InProdIdx(items: seq<OrderLine>, key: string, n: nat): seq<nat>
    requires n <= |items|
  {
    if n == 0 then [] else InProdIdx(items, key, n - 1) + (if InProdFor(items[n - 1], key) then [n - 1] else [])
  }

  lemma {:induction false} InProdIdxMeaning(items: seq<OrderLine>, key: string, n: nat)
    requires n <= |items|
    ensures forall k :: 0 <= k < |InProdIdx(items, key, n)| ==> InProdIdx(items, key, n)[k] < n
    ensures forall i :: 0 <= i < n ==> (i in InProdIdx(items, key, n) <==> InProdFor(items[i], key))
  {
    if n > 0 {
      InProdIdxMeaning(items, key, n - 1);
    }
  }

  /** `products_in_production` (its quantities) after the first n lines. */
  function InProdUpTo(items: seq<OrderLine>, n: nat): map<string, int>
    requires n <= |items|
  {
    if n == 0 then map[]
    else
      var m := InProdUpTo(items, n - 1);
      var it := items[n - 1];
      if it.status == EmProducao && ProdKey(it).Some? then
        var key := ProdKey(it).value;
        m[key := (if key in m then m[key] else 0) + it.quantidade]
      else m
  }

  lemma {:induction false} InProdMeaningAt(items: seq<OrderLine>, n: nat, key: string)
    requires n <= |items|
    ensures key in InProdUpTo(items, n) <==> InProdIdx(items, key, n) != []
    ensures key in InProdUpTo(items, n) ==> InProdUpTo(items, n)[key] == SumAt(items, InProdIdx(items, key, n))
  {
    if n > 0 {
      InProdMeaningAt(items, n - 1, key);
      var m := InProdUpTo(items, n - 1);
      if InProdFor(items[n - 1], key) {
        SumAtSnoc(items, InProdIdx(items, key, n - 1), n - 1);
        assert InProdUpTo(items, n)[key] == (if key in m then m[key] else 0) + items[n - 1].quantidade;
        assert InProdIdx(items, key, n) == InProdIdx(items, key, n - 1) + [n - 1];
        if key !in m {
          assert InProdIdx(items, key, n - 1) == [];
        }
      } else {
        assert InProdIdx(items, key, n) == InProdIdx(items, key, n - 1);
        assert key in InProdUpTo(items, n) ==> InProdUpTo(items, n)[key] == m[key];
      }
    }
  }

  /**
   * The quantities of `products_in_production`: one entry per key with a line in
   * production, holding the sum of those lines' quantities; lines with neither a product
   * nor a mould are skipped.
   */
  method InProductionTotals(items: seq<OrderLine>) returns (totals: map<string, int>)
    ensures forall key :: key in totals <==> InProdIdx(items, key, |items|) != []
    ensures forall key :: key in totals ==> totals[key] == SumAt(items, InProdIdx(items, key, |items|))
  {
    totals := map[];
    for j := 0 to |items|
      invariant totals == InProdUpTo(items, j)
    {
      var ip := items[j];
      if ip.status != EmProducao {
        continue;
      }
      var prodKey := ProdKey(ip);
      if prodKey.Some? {
        var key := prodKey.value;
        if key !in totals {
          totals := totals[key := 0];
        }
        totals := totals[key := totals[key] + ip.quantidade];
      }
    }
    forall key
      ensures key in totals <==> InProdIdx(items, key, |items|) != []
      ensures key in totals ==> totals[key] == SumAt(items, InProdIdx(items, key, |items|))
    {
      InProdMeaningAt(items, |items|, key);
    }
  }

  // ---------------------------------------------------------------------------------------
  // Machine allocation

  /** Step 1 of `op_allocation`: machines held by the OP but not selected are released. */
  function ReleaseMachines(m: seq<Option<nat>>, op: nat, sel: set<nat>): seq<Option<nat>> {
    seq(|m|, i requires 0 <= i < |m| => if m[i] == Some(op) && i !in sel then None else m[i])
  }

  /** Step 2: every selected machine is taken by the OP, from whichever OP held it. */
  function AssignMachines(m: seq<Option<nat>>, op: nat, sel: set<nat>): seq<Option<nat>> {
    seq(|m|, i requires 0 <= i < |m| => if i in sel then Some(op) else m[i])
  }

  /**
   * The machines' `op_atual` after `op_allocation`: the OP holds exactly the selected
   * machines, a machine of another OP stays with it unless selected, and a free machine
   * stays free unless selected.
   */
  function Allocated(m: seq<Option<nat>>, op: nat, sel: set<nat>): (r: seq<Option<nat>>)
    ensures |r| == |m|
    ensures forall i :: 0 <= i < |m| ==> (r[i] == Some(op) <==> i in sel)
    ensures forall i :: 0 <= i < |m| && i !in sel && m[i] != Some(op) ==> r[i] == m[i]
    ensures forall i :: 0 <= i < |m| && i !in sel && m[i] == Some(op) ==> r[i].None?
  {
    AssignMachines(ReleaseMachines(m, op, sel), op, sel)
  }

  /** Allocating the same machines twice is allocating them once. */
  lemma AllocationIdempotent(m: seq<Option<nat>>, op: nat, sel: set<nat>)
    ensures Allocated(Allocated(m, op, sel), op, sel) == Allocated(m, op, sel)
  {
    var a := Allocated(m, op, sel);
    assert forall i :: 0 <= i < |a| ==> Allocated(a, op, sel)[i] == a[i];
  }

  /** Another OP loses exactly its machines that were selected, and gains none. */
  lemma AllocationSteals(m: seq<Option<nat>>, op: nat, other: nat, sel: set<nat>, i: nat)
    requires other != op && i < |m|
    ensures Allocated(m, op, sel)[i] == Some(other) <==> m[i] == Some(other) && i !in sel
  {
  }

  // ---------------------------------------------------------------------------------------
  // Production orders

  /** `OrdemProducao`: the product, the total quantity and the status. */
  datatype Op = Op(produto: nat, quantidadeTotal: int, status: string)

  /** `OrdemProducaoItem`: which order line an OP serves, and with how many pieces. */
  datatype OpItem = OpItem(op: nat, pedidoItem: nat, quantidade: int)

  const Planejada := "PLANEJADA"

  /** A line once an OP item points at it: `item.status = 'EM_PRODUCAO'`. */
  function Linked(it: OrderLine): OrderLine {
    it.(status := EmProducao, hasOp := true)
  }

  /** The line table with the lines in `s` linked to an OP. */
  function MarkAll(items: seq<OrderLine>, s: set<nat>): (r: seq<OrderLine>)
    ensures |r| == |items|
    ensures forall i :: 0 <= i < |items| ==> r[i] == (if i in s then Linked(items[i]) else items[i])
  {
    seq(|items|, i requires 0 <= i < |items| => if i in s then Linked(items[i]) else items[i])
  }

  /** The lines a list names. */
  function SetOf(idx: seq<nat>): set<nat> {
    set i | i in idx
  }

  lemma SetOfSnoc(idx: seq<nat>, k: nat)
    requires k < |idx|
    ensures SetOf(idx[..k + 1]) == SetOf(idx[..k]) + {idx[k]}
  {
    assert idx[..k + 1] == idx[..k] + [idx[k]];
  }

  /** Linking one more line, the way the loop writes it. */
  lemma MarkAllAdd(items: seq<OrderLine>, s: set<nat>, i: nat)
    requires i < |items|
    ensures MarkAll(items, s)[i := Linked(MarkAll(items, s)[i])] == MarkAll(items, s + {i})
  {
  }

  /** Linking changes no quantity. */
  lemma MarkAllKeepsQty(items: seq<OrderLine>, s: set<nat>)
    ensures forall i: nat :: QtyAt(MarkAll(items, s), i) == QtyAt(items, i)
  {
  }

  /** One OP item per listed line, with the line's quantity. */
  function OpItemsFor(op: nat, items: seq<OrderLine>, idx: seq<nat>): seq<OpItem> {
    if idx == [] then []
    else OpItemsFor(op, items, idx[..|idx| - 1]) + [OpItem(op, idx[|idx| - 1], QtyAt(items, idx[|idx| - 1]))]
  }

  function OpItemsTotal(ois: seq<OpItem>): int {
    if ois == [] then 0 else OpItemsTotal(ois[..|ois| - 1]) + ois[|ois| - 1].quantidade
  }

  lemma {:induction false} OpItemsTotalAppend(a: seq<OpItem>, b: seq<OpItem>)
    ensures OpItemsTotal(a + b) == OpItemsTotal(a) + OpItemsTotal(b)
    decreases |b|
  {
    if b == [] {
      assert a + b == a;
    } else {
      assert (a + b)[..|a + b| - 1] == a + b[..|b| - 1];
      OpItemsTotalAppend(a, b[..|b| - 1]);
    }
  }

  /** The OP items of a group carry, between them, exactly the group's total quantity. */
  lemma LinkedTotal(op: nat, items: seq<OrderLine>, idx: seq<nat>)
    ensures OpItemsTotal(OpItemsFor(op, items, idx)) == SumAt(items, idx)
    ensures |OpItemsFor(op, items, idx)| == |idx|
    ensures forall k :: 0 <= k < |idx| ==> OpItemsFor(op, items, idx)[k] == OpItem(op, idx[k], QtyAt(items, idx[k]))
  {
    LinkedSum(op, items, idx);
    LinkedShape(op, items, idx);
  }

  lemma {:induction false} LinkedSum(op: nat, items: seq<OrderLine>, idx: seq<nat>)
    ensures OpItemsTotal(OpItemsFor(op, items, idx)) == SumAt(items, idx)
    decreases |idx|
  {
    if idx != [] {
      var front := idx[..|idx| - 1];
      LinkedSum(op, items, front);
      var f := OpItemsFor(op, items, front);
      var last := OpItem(op, idx[|idx| - 1], QtyAt(items, idx[|idx| - 1]));
      assert OpItemsFor(op, items, idx) == f + [last];
      assert (f + [last])[..|f|] == f;
    }
  }

  lemma {:induction false} LinkedShape(op: nat, items: seq<OrderLine>, idx: seq<nat>)
    ensures |OpItemsFor(op, items, idx)| == |idx|
    ensures forall k :: 0 <= k < |idx| ==> OpItemsFor(op, items, idx)[k] == OpItem(op, idx[k], QtyAt(items, idx[k]))
    decreases |idx|
  {
    if idx != [] {
      var front := idx[..|idx| - 1];
      LinkedShape(op, items, front);
      var f := OpItemsFor(op, items, front);
      forall k | 0 <= k < |idx|
        ensures OpItemsFor(op, items, idx)[k] == OpItem(op, idx[k], QtyAt(items, idx[k]))
      {
        if k < |front| {
          assert front[k] == idx[k];
        }
      }
    }
  }

  /** OP items and sums read only the quantities. */
  lemma {:induction false} SameQtySameItems(op: nat, a: seq<OrderLine>, b: seq<OrderLine>, idx: seq<nat>)
    requires forall i: nat :: QtyAt(a, i) == QtyAt(b, i)
    ensures OpItemsFor(op, a, idx) == OpItemsFor(op, b, idx)
    ensures SumAt(a, idx) == SumAt(b, idx)
    decreases |idx|
  {
    if idx != [] {
      SameQtySameItems(op, a, b, idx[..|idx| - 1]);
    }
  }

  // ---------------------------------------------------------------------------------------
  // Bulk creation

  /** `status__in=['PENDENTE_CADASTRO', 'LIBERADO_PRODUCAO']`, and a product to group by. */
  predicate BulkEligible(it: OrderLine) {
    (it.status == PendenteCadastro || it.status == LiberadoProducao) && it.produto.Some?
  }

  predicate BulkFor(it: OrderLine, i: nat, sel: set<nat>, p: nat) {
    i in sel && BulkEligible(it) && it.produto == Some(p)
  }

  /** The selected eligible lines among the first n with product p, in table order. */
  function BulkIdx(items: seq<OrderLine>, sel: set<nat>, p: nat, n: nat): seq<nat>
    requires n <= |items|
  {
    if n == 0 then [] else BulkIdx(items, sel, p, n - 1) + (if BulkFor(items[n - 1], n - 1, sel, p) then [n - 1] else [])
  }

  /** The selected eligible lines among the first n, whatever their product. */
  function AllBulk(items: seq<OrderLine>, sel: set<nat>, n: nat): seq<nat>
    requires n <= |items|
  {
    if n == 0 then []
    else AllBulk(items, sel, n - 1) + (if n - 1 in sel && BulkEligible(items[n - 1]) then [n - 1] else [])
  }

  /** The products of the selected eligible lines, in order of first appearance (the dictionary's order). */
  function ProductOrder(items: seq<OrderLine>, sel: set<nat>, n: nat): seq<nat>
    requires n <= |items|
  {
    if n == 0 then []
    else
      var po := ProductOrder(items, sel, n - 1);
      var it := items[n - 1];
      if n - 1 in sel && BulkEligible(it) && it.produto.value !in po then po + [it.produto.value] else po
  }

  /** `items_by_product` after the first n lines. */
  function ByProductUpTo(items: seq<OrderLine>, sel: set<nat>, n: nat): map<nat, seq<nat>>
    requires n <= |items|
  {
    if n == 0 then map[]
    else
      var m := ByProductUpTo(items, sel, n - 1);
      var it := items[n - 1];
      if n - 1 in sel && BulkEligible(it) then
        var q := it.produto.value;
        m[q := (if q in m then m[q] else []) + [n - 1]]
      else m
  }

  lemma {:induction false} BulkIdxBound(items: seq<OrderLine>, sel: set<nat>, p: nat, n: nat)
    requires n <= |items|
    ensures forall k :: 0 <= k < |BulkIdx(items, sel, p, n)| ==> BulkIdx(items, sel, p, n)[k] < n
  {
    if n > 0 {
      BulkIdxBound(items, sel, p, n - 1);
    }
  }

  lemma {:induction false} BulkIdxMeaning(items: seq<OrderLine>, sel: set<nat>, p: nat, n: nat)
    requires n <= |items|
    ensures forall k :: 0 <= k < |BulkIdx(items, sel, p, n)| ==> BulkIdx(items, sel, p, n)[k] < n
    ensures forall i :: 0 <= i < n ==> (i in BulkIdx(items, sel, p, n) <==> BulkFor(items[i], i, sel, p))
  {
    if n > 0 {
      BulkIdxMeaning(items, sel, p, n - 1);
    }
  }

  lemma {:induction false} AllBulkMeaning(items: seq<OrderLine>, sel: set<nat>, n: nat)
    requires n <= |items|
    ensures forall i :: i in AllBulk(items, sel, n) <==> 0 <= i < n && i in sel && BulkEligible(items[i])
  {
    if n > 0 {
      AllBulkMeaning(items, sel, n - 1);
    }
  }

  /** The dictionary holds, for each product, exactly its selected eligible lines. */
  lemma {:induction false} ByProductAt(items: seq<OrderLine>, sel: set<nat>, n: nat, p: nat)
    requires n <= |items|
    ensures p in ByProductUpTo(items, sel, n) <==> p in ProductOrder(items, sel, n)
    ensures p in ByProductUpTo(items, sel, n) ==> ByProductUpTo(items, sel, n)[p] == BulkIdx(items, sel, p, n)
    ensures p in ProductOrder(items, sel, n) <==> BulkIdx(items, sel, p, n) != []
  {
    if n > 0 {
      ByProductAt(items, sel, n - 1, p);
    }
  }

  /** One OP per distinct product: each product is listed once. */
  lemma {:induction false} ProductOrderDistinct(items: seq<OrderLine>, sel: set<nat>, n: nat)
    requires n <= |items|
    ensures Requirements.Distinct(ProductOrder(items, sel, n))
  {
    if n > 0 {
      ProductOrderDistinct(items, sel, n - 1);
      var po := ProductOrder(items, sel, n - 1);
      var it := items[n - 1];
      if n - 1 in sel && BulkEligible(it) && it.produto.value !in po {
        assert forall i :: 0 <= i < |po| ==> (po + [it.produto.value])[i] == po[i];
      }
    }
  }

  /** The products listed are exactly those with a selected eligible line. */
  lemma ProductOrderMeaning(items: seq<OrderLine>, sel: set<nat>, n: nat)
    requires n <= |items|
    ensures Requirements.Distinct(ProductOrder(items, sel, n))
    ensures forall p :: p in ProductOrder(items, sel, n) <==> BulkIdx(items, sel, p, n) != []
  {
    ProductOrderDistinct(items, sel, n);
    forall p
      ensures p in ProductOrder(items, sel, n) <==> BulkIdx(items, sel, p, n) != []
    {
      ByProductAt(items, sel, n, p);
    }
  }

  /** The sum of the groups' totals for the products in `ps`. */
  function TotalOver(items: seq<OrderLine>, sel: set<nat>, ps: seq<nat>, n: nat): int
    requires n <= |items|
  {
    if ps == [] then 0
    else TotalOver(items, sel, ps[..|ps| - 1], n) + SumAt(items, BulkIdx(items, sel, ps[|ps| - 1], n))
  }

  /** One more line adds its quantity to the total of its product's group, if listed once. */
  lemma {:induction false} TotalOverStep(items: seq<OrderLine>, sel: set<nat>, ps: seq<nat>, n: nat)
    requires 0 < n <= |items| && Requirements.Distinct(ps)
    ensures var it := items[n - 1];
            TotalOver(items, sel, ps, n)
            == TotalOver(items, sel, ps, n - 1)
               + (if n - 1 in sel && BulkEligible(it) && it.produto.value in ps then QtyAt(items, n - 1) else 0)
    decreases |ps|
  {
    if ps != [] {
      var front := ps[..|ps| - 1];
      var last := ps[|ps| - 1];
      DistinctFront(ps);
      TotalOverStep(items, sel, front, n);
      var it := items[n - 1];
      var q := QtyAt(items, n - 1);
      var listed := n - 1 in sel && BulkEligible(it);
      assert TotalOver(items, sel, ps, n)
             == TotalOver(items, sel, front, n) + SumAt(items, BulkIdx(items, sel, last, n));
      assert TotalOver(items, sel, ps, n - 1)
             == TotalOver(items, sel, front, n - 1) + SumAt(items, BulkIdx(items, sel, last, n - 1));
      if BulkFor(it, n - 1, sel, last) {
        assert BulkIdx(items, sel, last, n) == BulkIdx(items, sel, last, n - 1) + [n - 1];
        SumAtSnoc(items, BulkIdx(items, sel, last, n - 1), n - 1);
        assert it.produto.value == last && last in ps && last !in front;
      } else {
        assert BulkIdx(items, sel, last, n) == BulkIdx(items, sel, last, n - 1);
        assert listed ==> (it.produto.value in ps <==> it.produto.value in front);
      }
    }
  }

  /** Dropping the last product keeps the list free of repeats and the last one out of it. */
  lemma DistinctFront(ps: seq<nat>)
    requires ps != [] && Requirements.Distinct(ps)
    ensures Requirements.Distinct(ps[..|ps| - 1])
    ensures ps[|ps| - 1] !in ps[..|ps| - 1]
    ensures ps == ps[..|ps| - 1] + [ps[|ps| - 1]]
  {
    var front := ps[..|ps| - 1];
    forall i | 0 <= i < |front|
      ensures front[i] == ps[i]
    {
    }
  }

  /** A product with no line adds nothing to the total. */
  lemma TotalOverSnocEmpty(items: seq<OrderLine>, sel: set<nat>, ps: seq<nat>, q: nat, n: nat)
    requires n <= |items| && BulkIdx(items, sel, q, n) == []
    ensures TotalOver(items, sel, ps + [q], n) == TotalOver(items, sel, ps, n)
  {
    assert (ps + [q])[..|ps|] == ps;
  }

  /** The groups' totals add up to the total quantity of the selected eligible lines. */
  lemma {:induction false} TotalOverAll(items: seq<OrderLine>, sel: set<nat>, n: nat)
    requires n <= |items|
    ensures TotalOver(items, sel, ProductOrder(items, sel, n), n) == SumAt(items, AllBulk(items, sel, n))
  {
    if n > 0 {
      TotalOverAll(items, sel, n - 1);
      TotalOverAllStep(items, sel, n);
    }
  }

  /** The inductive step of `TotalOverAll`: line n - 1 adds the same amount to both sides. */
  lemma TotalOverAllStep(items: seq<OrderLine>, sel: set<nat>, n: nat)
    requires 0 < n <= |items|
    requires TotalOver(items, sel, ProductOrder(items, sel, n - 1), n - 1) == SumAt(items, AllBulk(items, sel, n - 1))
    ensures TotalOver(items, sel, ProductOrder(items, sel, n), n) == SumAt(items, AllBulk(items, sel, n))
  {
    ProductOrderDistinct(items, sel, n);
    TotalOverStep(items, sel, ProductOrder(items, sel, n), n);
    NewProductAddsNothing(items, sel, n);
    AllBulkStep(items, sel, n);
  }

  /** The product a line introduces had no line before it, so it adds nothing up to there. */
  lemma NewProductAddsNothing(items: seq<OrderLine>, sel: set<nat>, n: nat)
    requires 0 < n <= |items|
    ensures TotalOver(items, sel, ProductOrder(items, sel, n), n - 1)
            == TotalOver(items, sel, ProductOrder(items, sel, n - 1), n - 1)
  {
    var po := ProductOrder(items, sel, n - 1);
    var it := items[n - 1];
    if n - 1 in sel && BulkEligible(it) && it.produto.value !in po {
      ByProductAt(items, sel, n - 1, it.produto.value);
      TotalOverSnocEmpty(items, sel, po, it.produto.value, n - 1);
    }
  }

  /** A selected eligible line adds its quantity to the total, its product being listed. */
  lemma AllBulkStep(items: seq<OrderLine>, sel: set<nat>, n: nat)
    requires 0 < n <= |items|
    ensures var it := items[n - 1];
            SumAt(items, AllBulk(items, sel, n))
            == SumAt(items, AllBulk(items, sel, n - 1))
               + (if n - 1 in sel && BulkEligible(it) && it.produto.value in ProductOrder(items, sel, n)
                  then QtyAt(items, n - 1) else 0)
  {
    var it := items[n - 1];
    if n - 1 in sel && BulkEligible(it) {
      assert it.produto.value in ProductOrder(items, sel, n);
      SumAtSnoc(items, AllBulk(items, sel, n - 1), n - 1);
    } else {
      assert AllBulk(items, sel, n) == AllBulk(items, sel, n - 1);
    }
  }

  /** The OPs created for the listed products. */
  function BulkOps(items: seq<OrderLine>, sel: set<nat>, ps: seq<nat>): seq<Op> {
    if ps == [] then []
    else BulkOps(items, sel, ps[..|ps| - 1]) + [Op(ps[|ps| - 1], SumAt(items, BulkIdx(items, sel, ps[|ps| - 1], |items|)), Planejada)]
  }

  /** The OP items created for the listed products, the OPs numbered from `base`. */
  function BulkOpItems(base: nat, items: seq<OrderLine>, sel: set<nat>, ps: seq<nat>): seq<OpItem> {
    if ps == [] then []
    else BulkOpItems(base, items, sel, ps[..|ps| - 1]) + OpItemsFor(base + |ps| - 1, items, BulkIdx(items, sel, ps[|ps| - 1], |items|))
  }

  /** The lines linked for the listed products. */
  function BulkMarked(items: seq<OrderLine>, sel: set<nat>, ps: seq<nat>): set<nat> {
    if ps == [] then {} else BulkMarked(items, sel, ps[..|ps| - 1]) + SetOf(BulkIdx(items, sel, ps[|ps| - 1], |items|))
  }

  function OpsTotal(ops: seq<Op>): int {
    if ops == [] then 0 else OpsTotal(ops[..|ops| - 1]) + ops[|ops| - 1].quantidadeTotal
  }

  lemma {:induction false} BulkOpsTotal(items: seq<OrderLine>, sel: set<nat>, ps: seq<nat>)
    ensures OpsTotal(BulkOps(items, sel, ps)) == TotalOver(items, sel, ps, |items|)
    ensures |BulkOps(items, sel, ps)| == |ps|
    decreases |ps|
  {
    if ps != [] {
      var front := ps[..|ps| - 1];
      BulkOpsTotal(items, sel, front);
      var b := BulkOps(items, sel, front);
      var o := Op(ps[|ps| - 1], SumAt(items, BulkIdx(items, sel, ps[|ps| - 1], |items|)), Planejada);
      assert (b + [o])[..|b|] == b;
    }
  }

  lemma {:induction false} BulkOpItemsTotal(base: nat, items: seq<OrderLine>, sel: set<nat>, ps: seq<nat>)
    ensures OpItemsTotal(BulkOpItems(base, items, sel, ps)) == TotalOver(items, sel, ps, |items|)
    decreases |ps|
  {
    if ps != [] {
      var front := ps[..|ps| - 1];
      var idx := BulkIdx(items, sel, ps[|ps| - 1], |items|);
      BulkOpItemsTotal(base, items, sel, front);
      var before := BulkOpItems(base, items, sel, front);
      var added := OpItemsFor(base + |ps| - 1, items, idx);
      assert BulkOpItems(base, items, sel, ps) == before + added;
      LinkedTotal(base + |ps| - 1, items, idx);
      OpItemsTotalAppend(before, added);
      assert TotalOver(items, sel, ps, |items|) == TotalOver(items, sel, front, |items|) + SumAt(items, idx);
    }
  }

  /** One more product in the creation loop: its OP, its OP items and its lines. */
  lemma BulkStep(base: nat, items: seq<OrderLine>, sel: set<nat>, order: seq<nat>, k: nat)
    requires k < |order|
    ensures var idx := BulkIdx(items, sel, order[k], |items|);
            BulkOps(items, sel, order[..k + 1]) == BulkOps(items, sel, order[..k]) + [Op(order[k], SumAt(items, idx), Planejada)]
            && BulkOpItems(base, items, sel, order[..k + 1]) == BulkOpItems(base, items, sel, order[..k]) + OpItemsFor(base + k, items, idx)
            && BulkMarked(items, sel, order[..k + 1]) == BulkMarked(items, sel, order[..k]) + SetOf(idx)
  {
    var ps := order[..k + 1];
    PrefixStep(order, k);
    BulkStepOps(items, sel, ps);
    BulkStepItems(base, items, sel, ps);
    BulkStepMarks(items, sel, ps);
  }

  lemma PrefixStep(order: seq<nat>, k: nat)
    requires k < |order|
    ensures var ps := order[..k + 1];
            ps != [] && |ps| == k + 1 && ps[..|ps| - 1] == order[..k] && ps[|ps| - 1] == order[k]
  {
    var ps := order[..k + 1];
    assert ps[..|ps| - 1] == order[..k];
  }

  lemma BulkStepOps(items: seq<OrderLine>, sel: set<nat>, ps: seq<nat>)
    requires ps != []
    ensures BulkOps(items, sel, ps)
            == BulkOps(items, sel, ps[..|ps| - 1])
               + [Op(ps[|ps| - 1], SumAt(items, BulkIdx(items, sel, ps[|ps| - 1], |items|)), Planejada)]
  {
  }

  lemma BulkStepItems(base: nat, items: seq<OrderLine>, sel: set<nat>, ps: seq<nat>)
    requires ps != []
    ensures BulkOpItems(base, items, sel, ps)
            == BulkOpItems(base, items, sel, ps[..|ps| - 1])
               + OpItemsFor(base + |ps| - 1, items, BulkIdx(items, sel, ps[|ps| - 1], |items|))
  {
  }

  lemma BulkStepMarks(items: seq<OrderLine>, sel: set<nat>, ps: seq<nat>)
    requires ps != []
    ensures BulkMarked(items, sel, ps)
            == BulkMarked(items, sel, ps[..|ps| - 1]) + SetOf(BulkIdx(items, sel, ps[|ps| - 1], |items|))
  {
  }

  /**
   * The OPs of `create_op_bulk` together carry exactly the quantity of the selected
   * eligible lines, and so do the OP items linking those lines.
   */
  lemma BulkTotalsMatch(base: nat, items: seq<OrderLine>, sel: set<nat>)
    ensures var po := ProductOrder(items, sel, |items|);
            OpsTotal(BulkOps(items, sel, po)) == SumAt(items, AllBulk(items, sel, |items|))
            && OpItemsTotal(BulkOpItems(base, items, sel, po)) == SumAt(items, AllBulk(items, sel, |items|))
  {
    BulkOpsTotal(items, sel, ProductOrder(items, sel, |items|));
    BulkOpItemsTotal(base, items, sel, ProductOrder(items, sel, |items|));
    TotalOverAll(items, sel, |items|);
  }

  /** Every selected eligible line is linked, and no other line. */
  lemma {:induction false} BulkMarkedAt(items: seq<OrderLine>, sel: set<nat>, ps: seq<nat>, i: nat)
    ensures i in BulkMarked(items, sel, ps) <==>
              i < |items| && i in sel && BulkEligible(items[i]) && items[i].produto.value in ps
    decreases |ps|
  {
    if ps != [] {
      BulkMarkedAt(items, sel, ps[..|ps| - 1], i);
      BulkIdxMeaning(items, sel, ps[|ps| - 1], |items|);
      assert ps == ps[..|ps| - 1] + [ps[|ps| - 1]];
    }
  }

  lemma BulkMarksEligible(items: seq<OrderLine>, sel: set<nat>)
    ensures BulkMarked(items, sel, ProductOrder(items, sel, |items|)) == SetOf(AllBulk(items, sel, |items|))
  {
    var po := ProductOrder(items, sel, |items|);
    AllBulkMeaning(items, sel, |items|);
    ProductOrderMeaning(items, sel, |items|);
    forall i: nat
      ensures i in BulkMarked(items, sel, po) <==> i in SetOf(AllBulk(items, sel, |items|))
    {
      BulkMarkedAt(items, sel, po, i);
      if i < |items| && i in sel && BulkEligible(items[i]) {
        BulkIdxMeaning(items, sel, items[i].produto.value, |items|);
      }
    }
  }

  /** Linking lines changes neither the OP items nor the sums read off the table. */
  lemma MarkedSameItems(op: nat, items: seq<OrderLine>, s: set<nat>, idx: seq<nat>)
    ensures OpItemsFor(op, MarkAll(items, s), idx) == OpItemsFor(op, items, idx)
    ensures SumAt(MarkAll(items, s), idx) == SumAt(items, idx)
  {
    MarkAllKeepsQty(items, s);
    SameQtySameItems(op, MarkAll(items, s), items, idx);
  }

  /*
   * What one round of the creation loop relies on: the lines linked so far keep their
   * quantities, so the round's OP and OP items are those of the original table.
   */

  lemma BulkRoundOps(items0: seq<OrderLine>, sel: set<nat>, front: seq<nat>, q: nat)
    ensures var idx := BulkIdx(items0, sel, q, |items0|);
            var items := MarkAll(items0, BulkMarked(items0, sel, front));
            |BulkOps(items0, sel, front)| == |front|
            && BulkOps(items0, sel, front + [q]) == BulkOps(items0, sel, front) + [Op(q, SumAt(items, idx), Planejada)]
  {
    var idx := BulkIdx(items0, sel, q, |items0|);
    BulkOpsTotal(items0, sel, front);
    assert (front + [q])[..|front|] == front;
    MarkedSameItems(0, items0, BulkMarked(items0, sel, front), idx);
  }

  lemma BulkRoundItems(base: nat, items0: seq<OrderLine>, sel: set<nat>, front: seq<nat>, q: nat)
    ensures var idx := BulkIdx(items0, sel, q, |items0|);
            var items := MarkAll(items0, BulkMarked(items0, sel, front));
            BulkOpItems(base, items0, sel, front + [q]) == BulkOpItems(base, items0, sel, front) + OpItemsFor(base + |front|, items, idx)
  {
    BulkItemsSnoc(base, items0, sel, front, q);
    MarkedSameItems(base + |front|, items0, BulkMarked(items0, sel, front), BulkIdx(items0, sel, q, |items0|));
  }

  /** The OP items for one more product, read off the original lines. */
  lemma BulkItemsSnoc(base: nat, items: seq<OrderLine>, sel: set<nat>, front: seq<nat>, q: nat)
    ensures BulkOpItems(base, items, sel, front + [q])
            == BulkOpItems(base, items, sel, front) + OpItemsFor(base + |front|, items, BulkIdx(items, sel, q, |items|))
  {
    var ps := front + [q];
    assert ps[..|ps| - 1] == front;
  }

  lemma BulkRoundMarks(items0: seq<OrderLine>, sel: set<nat>, front: seq<nat>, q: nat)
    ensures var idx := BulkIdx(items0, sel, q, |items0|);
            var items := MarkAll(items0, BulkMarked(items0, sel, front));
            MarkAll(items, SetOf(idx)) == MarkAll(items0, BulkMarked(items0, sel, front + [q]))
  {
    var idx := BulkIdx(items0, sel, q, |items0|);
    assert (front + [q])[..|front|] == front;
    MarkAllTwice(items0, BulkMarked(items0, sel, front), SetOf(idx));
  }

  /** Extending a prefix of `order` by its next element. */
  lemma SnocAgrees(done: seq<nat>, order: seq<nat>, k: nat, next: seq<nat>)
    requires |done| == k < |order| && forall j :: 0 <= j < k ==> done[j] == order[j]
    requires next == done + [order[k]]
    ensures |next| == k + 1 && forall j :: 0 <= j < k + 1 ==> next[j] == order[j]
  {
  }

  /** Extending the run of consecutive OP numbers from `base` by the next one. */
  lemma SnocConsecutive(created: seq<nat>, base: nat, k: nat, next: seq<nat>)
    requires |created| == k && forall q :: 0 <= q < k ==> created[q] == base + q
    requires next == created + [base + k]
    ensures |next| == k + 1 && forall q :: 0 <= q < k + 1 ==> next[q] == base + q
  {
  }

  lemma AppendAssoc<T>(a: seq<T>, b: seq<T>, c: seq<T>)
    ensures (a + b) + c == a + (b + c)
  {
  }

  /** Linking in two rounds is linking the union. */
  lemma MarkAllTwice(items: seq<OrderLine>, a: set<nat>, b: set<nat>)
    ensures MarkAll(MarkAll(items, a), b) == MarkAll(items, a + b)
  {
  }

  /**
   * The dictionary-building loop of `create_op_bulk`: the selected eligible lines grouped by
   * product, and the products in order of first appearance.
   */
  method GroupSelected(items: seq<OrderLine>, sel: set<nat>) returns (byProduct: map<nat, seq<nat>>, order: seq<nat>)
    ensures order == ProductOrder(items, sel, |items|)
    ensures forall p :: p in byProduct <==> p in order
    ensures forall p :: p in byProduct ==> byProduct[p] == BulkIdx(items, sel, p, |items|)
  {
    byProduct := map[];
    order := [];
    for j := 0 to |items|
      invariant byProduct == ByProductUpTo(items, sel, j)
      invariant order == ProductOrder(items, sel, j)
    {
      var item := items[j];
      if j !in sel || !BulkEligible(item) {
        continue;
      }
      var p := item.produto.value;
      ByProductAt(items, sel, j, p);
      if p !in byProduct {
        byProduct := byProduct[p := []];
        order := order + [p];
      }
      byProduct := byProduct[p := byProduct[p] + [j]];
    }
    forall p {
      ByProductAt(items, sel, |items|, p);
    }
  }

  /** The line table, the OPs, their items and the machines. */
  class ProductionDb {
    var itens: seq<OrderLine>
    var ops: seq<Op>
    var opItens: seq<OpItem>
    /** `Maquina.op_atual` of each machine. */
    var maquinas: seq<Option<nat>>
    /** `OrdemProducao.maquinas`, the planned machines of each OP. */
    var opMaquinas: map<nat, set<nat>>

    constructor (itens: seq<OrderLine>, maquinas: seq<Option<nat>>)
      ensures this.itens == itens && this.maquinas == maquinas
      ensures ops == [] && opItens == [] && opMaquinas == map[]
    {
      this.itens := itens;
      this.maquinas := maquinas;
      ops := [];
      opItens := [];
      opMaquinas := map[];
    }

    /** The loop linking a group's lines to a new OP: one OP item each, and the status write. */
    method LinkItems(op: nat, idx: seq<nat>)
      modifies this
      requires forall k :: 0 <= k < |idx| ==> idx[k] < |itens|
      ensures itens == MarkAll(old(itens), SetOf(idx))
      ensures opItens == old(opItens) + OpItemsFor(op, old(itens), idx)
      ensures ops == old(ops) && maquinas == old(maquinas) && opMaquinas == old(opMaquinas)
    {
      ghost var itens0 := itens;
      for k := 0 to |idx|
        invariant |itens| == |itens0|
        invariant itens == MarkAll(itens0, SetOf(idx[..k]))
        invariant opItens == old(opItens) + OpItemsFor(op, itens0, idx[..k])
        invariant ops == old(ops) && maquinas == old(maquinas) && opMaquinas == old(opMaquinas)
      {
        var i := idx[k];
        MarkAllKeepsQty(itens0, SetOf(idx[..k]));
        assert itens[i].quantidade == QtyAt(itens0, i);
        opItens := opItens + [OpItem(op, i, itens[i].quantidade)];
        MarkAllAdd(itens0, SetOf(idx[..k]), i);
        itens := itens[i := Linked(itens[i])];
        assert idx[..k + 1][..k] == idx[..k];
        SetOfSnoc(idx, k);
      }
      assert idx[..|idx|] == idx;
    }

    /**
     * `create_op`: nothing happens when the product has no ready line; otherwise one OP
     * for the sum of their quantities, one OP item per line and every line marked in
     * production.
     */
    method CreateOp(p: nat) returns (created: Option<nat>)
      modifies this
      ensures ReadyIdx(old(itens), p, |old(itens)|) == [] ==>
                created.None? && itens == old(itens) && ops == old(ops) && opItens == old(opItens)
      ensures ReadyIdx(old(itens), p, |old(itens)|) != [] ==>
                var idx := ReadyIdx(old(itens), p, |old(itens)|);
                created == Some(|old(ops)|)
                && ops == old(ops) + [Op(p, SumAt(old(itens), idx), Planejada)]
                && opItens == old(opItens) + OpItemsFor(|old(ops)|, old(itens), idx)
                && itens == MarkAll(old(itens), SetOf(idx))
      ensures maquinas == old(maquinas) && opMaquinas == old(opMaquinas)
    {
      var readyItems := ReadyIdx(itens, p, |itens|);
      if readyItems == [] {
        return None;
      }
      ReadyIdxMeaning(itens, p, |itens|);
      var totalQty := SumAt(itens, readyItems);
      var op := |ops|;
      ops := ops + [Op(p, totalQty, Planejada)];
      LinkItems(op, readyItems);
      created := Some(op);
    }

    /**
     * `op_allocation`: an unknown OP is a 404 and changes nothing; otherwise the OP's
     * machine set becomes the selection, the machines it held but lost are released and
     * every selected machine is taken by it.
     */
    method Allocate(op: nat, sel: set<nat>) returns (found: bool)
      modifies this
      requires forall i :: i in sel ==> i < |maquinas|
      ensures found == (op < |old(ops)|)
      ensures found ==> maquinas == Allocated(old(maquinas), op, sel) && opMaquinas == old(opMaquinas)[op := sel]
      ensures !found ==> maquinas == old(maquinas) && opMaquinas == old(opMaquinas)
      ensures itens == old(itens) && ops == old(ops) && opItens == old(opItens)
    {
      if op >= |ops| {
        return false;
      }
      opMaquinas := opMaquinas[op := sel];
      ghost var m0 := maquinas;
      for i := 0 to |maquinas|
        invariant |maquinas| == |m0|
        invariant itens == old(itens) && ops == old(ops) && opItens == old(opItens)
        invariant opMaquinas == old(opMaquinas)[op := sel]
        invariant forall k :: 0 <= k < i ==> maquinas[k] == ReleaseMachines(m0, op, sel)[k]
        invariant forall k :: i <= k < |m0| ==> maquinas[k] == m0[k]
      {
        if maquinas[i] == Some(op) && i !in sel {
          maquinas := maquinas[i := None];
        }
      }
      assert maquinas == ReleaseMachines(m0, op, sel);
      ghost var m1 := maquinas;
      for i := 0 to |maquinas|
        invariant |maquinas| == |m1|
        invariant itens == old(itens) && ops == old(ops) && opItens == old(opItens)
        invariant opMaquinas == old(opMaquinas)[op := sel]
        invariant forall k :: 0 <= k < i ==> maquinas[k] == AssignMachines(m1, op, sel)[k]
        invariant forall k :: i <= k < |m1| ==> maquinas[k] == m1[k]
      {
        if i in sel {
          maquinas := maquinas[i := Some(op)];
        }
      }
      assert maquinas == AssignMachines(m1, op, sel);
      found := true;
    }

    /** One round of the creation loop: the OP for product `p` and the links of its lines. */
    method CreateOneOp(p: nat, pItems: seq<nat>) returns (op: nat)
      modifies this
      requires forall k :: 0 <= k < |pItems| ==> pItems[k] < |itens|
      ensures op == |old(ops)|
      ensures ops == old(ops) + [Op(p, SumAt(old(itens), pItems), Planejada)]
      ensures opItens == old(opItens) + OpItemsFor(op, old(itens), pItems)
      ensures itens == MarkAll(old(itens), SetOf(pItems))
      ensures maquinas == old(maquinas) && opMaquinas == old(opMaquinas)
    {
      var totalQty := SumAt(itens, pItems);
      op := |ops|;
      ops := ops + [Op(p, totalQty, Planejada)];
      LinkItems(op, pItems);
    }

    /** The account the creation loop keeps once the OPs of `done` exist. */
    ghost predicate BulkDone(items0: seq<OrderLine>, sel: set<nat>, done: seq<nat>, base: nat, ops0: seq<Op>, opItens0: seq<OpItem>)
      reads this
    {
      itens == MarkAll(items0, BulkMarked(items0, sel, done))
      && ops == ops0 + BulkOps(items0, sel, done)
      && opItens == opItens0 + BulkOpItems(base, items0, sel, done)
    }

    /** One round of the creation loop: the OP for product `q` after those of `front`. */
    method CreateRound(ghost items0: seq<OrderLine>, ghost sel: set<nat>, ghost front: seq<nat>, q: nat,
                       ghost base: nat, ghost ops0: seq<Op>, ghost opItens0: seq<OpItem>, pItems: seq<nat>)
      returns (op: nat)
      modifies this
      requires pItems == BulkIdx(items0, sel, q, |items0|) && |ops0| == base
      requires BulkDone(items0, sel, front, base, ops0, opItens0)
      ensures op == base + |front|
      ensures BulkDone(items0, sel, front + [q], base, ops0, opItens0)
      ensures maquinas == old(maquinas) && opMaquinas == old(opMaquinas)
    {
      ghost var doneOps, doneItems := BulkOps(items0, sel, front), BulkOpItems(base, items0, sel, front);
      assert itens == MarkAll(items0, BulkMarked(items0, sel, front));
      assert ops == ops0 + doneOps && opItens == opItens0 + doneItems;
      BulkIdxBound(items0, sel, q, |items0|);
      BulkRoundOps(items0, sel, front, q);
      BulkRoundItems(base, items0, sel, front, q);
      BulkRoundMarks(items0, sel, front, q);
      ghost var newOp := Op(q, SumAt(itens, pItems), Planejada);
      AppendAssoc(ops0, doneOps, [newOp]);
      ghost var itensBefore, opItensBefore := itens, opItens;
      op := CreateOneOp(q, pItems);
      assert op == base + |front|;
      ghost var newItems := OpItemsFor(op, itensBefore, pItems);
      assert opItens == opItensBefore + newItems;
      AppendAssoc(opItens0, doneItems, newItems);
      assert itens == MarkAll(items0, BulkMarked(items0, sel, front + [q]));
      assert ops == ops0 + BulkOps(items0, sel, front + [q]);
      assert opItens == opItens0 + BulkOpItems(base, items0, sel, front + [q]);
    }

    /**
     * `create_op_bulk`: among the selected lines that are pending or released, those with
     * a product are grouped by product; each product gets one OP for its lines' total, one
     * OP item per line, and every such line is marked in production.
     */
    method CreateOpBulk(sel: set<nat>) returns (created: seq<nat>)
      modifies this
      ensures var order := ProductOrder(old(itens), sel, |old(itens)|);
              |created| == |order|
              && (forall q :: 0 <= q < |order| ==> created[q] == |old(ops)| + q)
              && ops == old(ops) + BulkOps(old(itens), sel, order)
              && opItens == old(opItens) + BulkOpItems(|old(ops)|, old(itens), sel, order)
              && itens == MarkAll(old(itens), SetOf(AllBulk(old(itens), sel, |old(itens)|)))
      ensures maquinas == old(maquinas) && opMaquinas == old(opMaquinas)
    {
      ghost var itens0 := itens;
      var byProduct, order := GroupSelected(itens, sel);
      created := CreateRounds(itens0, sel, order, byProduct, |ops|, ops, opItens);
      assert itens == MarkAll(itens0, SetOf(AllBulk(itens0, sel, |itens0|))) by {
        BulkMarksEligible(itens0, sel);
      }
    }

    /** The loop of `create_op_bulk`: one OP per product of `order`, in that order. */
    method CreateRounds(ghost items0: seq<OrderLine>, ghost sel: set<nat>, order: seq<nat>, byProduct: map<nat, seq<nat>>,
                        ghost base: nat, ghost ops0: seq<Op>, ghost opItens0: seq<OpItem>)
      returns (created: seq<nat>)
      modifies this
      requires itens == items0 && ops == ops0 && |ops0| == base && opItens == opItens0
      requires forall q :: 0 <= q < |order| ==> order[q] in byProduct && byProduct[order[q]] == BulkIdx(items0, sel, order[q], |items0|)
      ensures |created| == |order| && forall q :: 0 <= q < |order| ==> created[q] == base + q
      ensures itens == MarkAll(items0, BulkMarked(items0, sel, order))
      ensures ops == ops0 + BulkOps(items0, sel, order)
      ensures opItens == opItens0 + BulkOpItems(base, items0, sel, order)
      ensures maquinas == old(maquinas) && opMaquinas == old(opMaquinas)
    {
      created := [];
      ghost var done: seq<nat> := [];
      for k := 0 to |order|
        invariant |done| == k && forall j :: 0 <= j < k ==> done[j] == order[j]
        invariant BulkDone(items0, sel, done, base, ops0, opItens0)
        invariant |created| == k && forall q :: 0 <= q < k ==> created[q] == base + q
        invariant maquinas == old(maquinas) && opMaquinas == old(opMaquinas)
      {
        var op := CreateRound(items0, sel, done, order[k], base, ops0, opItens0, byProduct[order[k]]);
        SnocAgrees(done, order, k, done + [order[k]]);
        SnocConsecutive(created, base, k, created + [op]);
        created := created + [op];
        done := done + [order[k]];
      }
      assert done == order;
    }
  }

  /** After `create_op` no line of the product is ready any more: a second call creates nothing. */
  lemma CreateOpExhausts(items: seq<OrderLine>, p: nat)
    ensures var marked := MarkAll(items, SetOf(ReadyIdx(items, p, |items|)));
            ReadyIdx(marked, p, |marked|) == []
  {
    var idx := ReadyIdx(items, p, |items|);
    var marked := MarkAll(items, SetOf(idx));
    ReadyIdxMeaning(items, p, |items|);
    NoneReadyEmpty(marked, p, |marked|);
  }

  lemma {:induction false} NoneReadyEmpty(items: seq<OrderLine>, p: nat, n: nat)
    requires n <= |items| && forall i :: 0 <= i < n ==> !ReadyFor(items[i], p)
    ensures ReadyIdx(items, p, n) == []
  {
    if n > 0 {
      NoneReadyEmpty(items, p, n - 1);
    }
  }
}
