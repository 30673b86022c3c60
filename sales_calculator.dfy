/**
 * The current material-requirements calculator for a list of orders. For every order item
 * it adds
 *   - the roll length of every configured fabric piece (row-yield estimate),
 *   - when the item has a product (SKU) and no configured pieces, the product's standard
 *     fabric: its consumption cache, or when that is empty its `tecido_padrao` BOM lines,
 *   - the product's `insumo` BOM lines and its global insumos,
 * each under (material, colour), lengths normalised to millimetres.
 */
module SalesCalculator {
  import opened Wrappers
  import opened Geometry
  import opened Inventory
  import opened FabricYield
  import opened Requirements

  /** `PedidoConfig`: the fabric chosen for one piece of the mold in this item. */
  datatype Config = Config(material: Option<nat>, cor: Option<nat>, peca: CutPiece)

  /** A BOM or consumption line: material (may be missing), colour and quantity per product. */
  datatype BomLine = BomLine(material: Option<nat>, cor: Option<nat>, quantidade: real)

  /** `ItensMaterial`: a BOM line with its type, `tecido_padrao` or `insumo`. */
  datatype BomItem = BomItem(tipo: string, line: BomLine)

  /** The SKU's consumption cache (`consumos`), BOM (`itens_material`) and global insumos. */
  datatype Sku = Sku(consumos: seq<BomLine>, itensMaterial: seq<BomItem>, insumos: seq<BomLine>)

  datatype Item = Item(quantidade: int, configs: seq<Config>, produto: Option<Sku>)

  /** A `Pedido`: its primary key and its lines. */
  datatype Order = Order(id: nat, itens: seq<Item>)

  const TecidoPadrao: string := "tecido_padrao"
  const InsumoTipo: string := "insumo"

  /**
   * The input the calculator can process: every referenced material exists, and every
   * configured piece's bounding box has the sides the estimate divides by nonzero.
   */
  predicate ConfigOk(c: Config, materials: map<nat, Material>) {
    c.material.Some? ==>
      c.material.value in materials
      && Defined(BBox(c.peca.geometria).0, BBox(c.peca.geometria).1, c.peca.rotacaoFixa)
  }

  predicate LineOk(l: BomLine, materials: map<nat, Material>) {
    l.material.Some? ==> l.material.value in materials
  }

  predicate LinesOk(ls: seq<BomLine>, materials: map<nat, Material>) {
    forall i :: 0 <= i < |ls| ==> LineOk(ls[i], materials)
  }

  predicate BomOk(bs: seq<BomItem>, materials: map<nat, Material>) {
    forall i :: 0 <= i < |bs| ==> LineOk(bs[i].line, materials)
  }

  predicate ConfigsOk(cs: seq<Config>, materials: map<nat, Material>) {
    forall i :: 0 <= i < |cs| ==> ConfigOk(cs[i], materials)
  }

  predicate ItemOk(it: Item, materials: map<nat, Material>) {
    ConfigsOk(it.configs, materials)
    && (it.produto.Some? ==>
          LinesOk(it.produto.value.consumos, materials)
          && BomOk(it.produto.value.itensMaterial, materials)
          && LinesOk(it.produto.value.insumos, materials))
  }

  predicate ItemsOk(items: seq<Item>, materials: map<nat, Material>) {
    forall i :: 0 <= i < |items| ==> ItemOk(items[i], materials)
  }

  predicate OrdersOk(orders: seq<Order>, materials: map<nat, Material>) {
    forall i :: 0 <= i < |orders| ==> ItemsOk(orders[i].itens, materials)
  }

  /** A configured piece adds its estimated roll length; a config without material adds nothing. */
  function ConfigContrib(c: Config, itemQty: int, materials: map<nat, Material>): seq<Contribution>
    requires ConfigOk(c, materials)
  {
    match c.material
    case None => []
    case Some(m) =>
      [Contribution((m, c.cor), PieceLength(RollWidth(materials[m].larguraPadraoMm), c.peca, itemQty))]
  }

  function ConfigContribs(cs: seq<Config>, itemQty: int, materials: map<nat, Material>): seq<Contribution>
    requires ConfigsOk(cs, materials)
  {
    if cs == [] then []
    else ConfigContribs(cs[..|cs| - 1], itemQty, materials) + ConfigContrib(cs[|cs| - 1], itemQty, materials)
  }

  /**
   * `add_item_to_report`: nothing without a material; otherwise the quantity, normalised
   * by the material's unit, times the ordered quantity.
   */
  function LineContrib(l: BomLine, orderQty: int, materials: map<nat, Material>): seq<Contribution>
    requires LineOk(l, materials)
  {
    match l.material
    case None => []
    case Some(m) => [Contribution((m, l.cor), Normalised(materials[m].unidade, l.quantidade) * orderQty as real)]
  }

  function LineContribs(ls: seq<BomLine>, orderQty: int, materials: map<nat, Material>): seq<Contribution>
    requires LinesOk(ls, materials)
  {
    if ls == [] then []
    else LineContribs(ls[..|ls| - 1], orderQty, materials) + LineContrib(ls[|ls| - 1], orderQty, materials)
  }

  /** `itens_material.filter(tipo=...)` */
  function OfTipo(bs: seq<BomItem>, tipo: string): (ls: seq<BomLine>)
    ensures forall l :: l in ls <==> exists i :: 0 <= i < |bs| && bs[i].tipo == tipo && bs[i].line == l
  {
    if bs == [] then []
    else
      var front := OfTipo(bs[..|bs| - 1], tipo);
      assert forall i :: 0 <= i < |bs| - 1 ==> bs[..|bs| - 1][i] == bs[i];
      if bs[|bs| - 1].tipo == tipo then front + [bs[|bs| - 1].line] else front
  }

  lemma OfTipoOk(bs: seq<BomItem>, tipo: string, materials: map<nat, Material>)
    requires BomOk(bs, materials)
    ensures LinesOk(OfTipo(bs, tipo), materials)
  {
    var ls := OfTipo(bs, tipo);
    forall i | 0 <= i < |ls|
      ensures LineOk(ls[i], materials)
    {
      assert ls[i] in ls;
    }
  }

  /** The general BOM loop: `tecido_padrao` lines are skipped, `insumo` lines added, others ignored. */
  function GeneralContribs(bs: seq<BomItem>, orderQty: int, materials: map<nat, Material>): seq<Contribution>
    requires BomOk(bs, materials)
  {
    if bs == [] then []
    else
      var b := bs[|bs| - 1];
      GeneralContribs(bs[..|bs| - 1], orderQty, materials)
      + (if b.tipo == TecidoPadrao then [] else if b.tipo == InsumoTipo then LineContrib(b.line, orderQty, materials) else [])
  }

  /** The standard fabric of an item: only without configured pieces; the cache first, else the BOM. */
  function StandardFabric(it: Item, materials: map<nat, Material>): seq<Contribution>
    requires it.produto.Some? && ItemOk(it, materials)
  {
    var sku := it.produto.value;
    if it.configs != [] then []
    else if sku.consumos != [] then LineContribs(sku.consumos, it.quantidade, materials)
    else
      OfTipoOk(sku.itensMaterial, TecidoPadrao, materials);
      LineContribs(OfTipo(sku.itensMaterial, TecidoPadrao), it.quantidade, materials)
  }

  /** Everything one order item adds to the report, in the order the code adds it. */
  function ItemContribs(it: Item, materials: map<nat, Material>): seq<Contribution>
    requires ItemOk(it, materials)
  {
    ConfigContribs(it.configs, it.quantidade, materials)
    + (if it.produto.Some? then
         StandardFabric(it, materials)
         + GeneralContribs(it.produto.value.itensMaterial, it.quantidade, materials)
         + LineContribs(it.produto.value.insumos, it.quantidade, materials)
       else [])
  }

  function ItemsContribs(items: seq<Item>, materials: map<nat, Material>): seq<Contribution>
    requires ItemsOk(items, materials)
  {
    if items == [] then []
    else ItemsContribs(items[..|items| - 1], materials) + ItemContribs(items[|items| - 1], materials)
  }

  function OrdersContribs(orders: seq<Order>, materials: map<nat, Material>): seq<Contribution>
    requires OrdersOk(orders, materials)
  {
    if orders == [] then []
    else OrdersContribs(orders[..|orders| - 1], materials) + ItemsContribs(orders[|orders| - 1].itens, materials)
  }

  /** The report `get_material_requirements_for_orders` returns (its `qtd` entries). */
  function Report(orders: seq<Order>, materials: map<nat, Material>): map<Key, real>
    requires OrdersOk(orders, materials)
  {
    Accumulate(map[], OrdersContribs(orders, materials))
  }

  /** `add_item_to_report` on the report under construction. */
  method AddItemToReport(report: map<Key, real>, l: BomLine, orderQty: int, materials: map<nat, Material>)
    returns (r: map<Key, real>)
    requires LineOk(l, materials)
    ensures r == Accumulate(report, LineContrib(l, orderQty, materials))
  {
    if l.material.None? {
      return report;
    }
    var material := materials[l.material.value];
    var qtyUnit := NormaliseQuantity(material.unidade, l.quantidade);
    var qtyTotal := qtyUnit * orderQty as real;
    var m := l.material.value;
    assert qtyTotal == Normalised(materials[m].unidade, l.quantidade) * orderQty as real;
    assert LineContrib(l, orderQty, materials)[0] == Contribution((m, l.cor), qtyTotal);
    assert LineContrib(l, orderQty, materials) == [Contribution((m, l.cor), qtyTotal)];
    r := AddTo(report, (l.material.value, l.cor), qtyTotal);
  }

  /** `for line in lines: add_item_to_report(...)` */
  method AddLines(report: map<Key, real>, ls: seq<BomLine>, orderQty: int, materials: map<nat, Material>)
    returns (r: map<Key, real>)
    requires LinesOk(ls, materials)
    ensures r == Accumulate(report, LineContribs(ls, orderQty, materials))
  {
    r := report;
    for j := 0 to |ls|
      invariant r == Accumulate(report, LineContribs(ls[..j], orderQty, materials))
    {
      assert ls[..j + 1][..j] == ls[..j];
      r := AddItemToReport(r, ls[j], orderQty, materials);
      AccumulateAppend(report, LineContribs(ls[..j], orderQty, materials), LineContrib(ls[j], orderQty, materials));
    }
    assert ls[..|ls|] == ls;
  }

  /** The general BOM loop with its `continue` on `tecido_padrao`. */
  method AddGeneral(report: map<Key, real>, bs: seq<BomItem>, orderQty: int, materials: map<nat, Material>)
    returns (r: map<Key, real>)
    requires BomOk(bs, materials)
    ensures r == Accumulate(report, GeneralContribs(bs, orderQty, materials))
  {
    r := report;
    for j := 0 to |bs|
      invariant r == Accumulate(report, GeneralContribs(bs[..j], orderQty, materials))
    {
      assert bs[..j + 1][..j] == bs[..j];
      var b := bs[j];
      var before := GeneralContribs(bs[..j], orderQty, materials);
      assert bs[..j + 1][j] == b;
      if b.tipo == TecidoPadrao {
        assert GeneralContribs(bs[..j + 1], orderQty, materials) == before;
        continue;
      }
      if b.tipo == InsumoTipo {
        r := AddItemToReport(r, b.line, orderQty, materials);
        assert GeneralContribs(bs[..j + 1], orderQty, materials) == before + LineContrib(b.line, orderQty, materials);
        AccumulateAppend(report, before, LineContrib(b.line, orderQty, materials));
      } else {
        assert GeneralContribs(bs[..j + 1], orderQty, materials) == before;
      }
    }
    assert bs[..|bs|] == bs;
  }

  /** The config loop: the row-yield estimate of each configured piece with a material. */
  method AddConfigs(report: map<Key, real>, cs: seq<Config>, itemQty: int, materials: map<nat, Material>)
    returns (r: map<Key, real>)
    requires ConfigsOk(cs, materials)
    ensures r == Accumulate(report, ConfigContribs(cs, itemQty, materials))
  {
    r := report;
    for j := 0 to |cs|
      invariant r == Accumulate(report, ConfigContribs(cs[..j], itemQty, materials))
    {
      assert cs[..j + 1][..j] == cs[..j];
      var conf := cs[j];
      var before := ConfigContribs(cs[..j], itemQty, materials);
      assert cs[..j + 1][j] == conf;
      if conf.material.None? {
        assert ConfigContribs(cs[..j + 1], itemQty, materials) == before;
        continue;
      }
      var mat := materials[conf.material.value];
      var widthMm := RollWidth(mat.larguraPadraoMm);
      var linearMm := PieceLength(widthMm, conf.peca, itemQty);
      r := AddTo(r, (conf.material.value, conf.cor), linearMm);
      assert ConfigContribs(cs[..j + 1], itemQty, materials) == before + ConfigContrib(conf, itemQty, materials);
      AccumulateAppend(report, before, ConfigContrib(conf, itemQty, materials));
    }
    assert cs[..|cs|] == cs;
  }

  /** The standard-fabric step: only without configured pieces, the cache first, else the BOM. */
  method AddStandardFabric(report: map<Key, real>, it: Item, materials: map<nat, Material>)
    returns (r: map<Key, real>)
    requires it.produto.Some? && ItemOk(it, materials)
    ensures r == Accumulate(report, StandardFabric(it, materials))
  {
    var sku := it.produto.value;
    if it.configs == [] {
      if sku.consumos != [] {
        r := AddLines(report, sku.consumos, it.quantidade, materials);
      } else {
        OfTipoOk(sku.itensMaterial, TecidoPadrao, materials);
        r := AddLines(report, OfTipo(sku.itensMaterial, TecidoPadrao), it.quantidade, materials);
      }
    } else {
      r := report;
    }
  }

  /** The product part of the item loop: standard fabric, the general BOM loop, the global insumos. */
  method AddProduct(report: map<Key, real>, it: Item, materials: map<nat, Material>)
    returns (r: map<Key, real>)
    requires it.produto.Some? && ItemOk(it, materials)
    ensures r == Accumulate(report, StandardFabric(it, materials)
                                    + GeneralContribs(it.produto.value.itensMaterial, it.quantidade, materials)
                                    + LineContribs(it.produto.value.insumos, it.quantidade, materials))
  {
    var sku := it.produto.value;
    var fabric := StandardFabric(it, materials);
    var general := GeneralContribs(sku.itensMaterial, it.quantidade, materials);
    var insumos := LineContribs(sku.insumos, it.quantidade, materials);
    r := AddStandardFabric(report, it, materials);
    r := AddGeneral(r, sku.itensMaterial, it.quantidade, materials);
    AccumulateAppend(report, fabric, general);
    r := AddLines(r, sku.insumos, it.quantidade, materials);
    AccumulateAppend(report, fabric + general, insumos);
  }

  /** The body of the item loop. */
  method AddItem(report: map<Key, real>, it: Item, materials: map<nat, Material>) returns (r: map<Key, real>)
    requires ItemOk(it, materials)
    ensures r == Accumulate(report, ItemContribs(it, materials))
  {
    r := AddConfigs(report, it.configs, it.quantidade, materials);
    var cfg := ConfigContribs(it.configs, it.quantidade, materials);
    if it.produto.None? {
      assert ItemContribs(it, materials) == cfg;
      return;
    }
    var sku := it.produto.value;
    var rest := StandardFabric(it, materials)
                + GeneralContribs(sku.itensMaterial, it.quantidade, materials)
                + LineContribs(sku.insumos, it.quantidade, materials);
    r := AddProduct(r, it, materials);
    AccumulateAppend(report, cfg, rest);
  }

  /** The item loop of one order. */
  method AddItems(report: map<Key, real>, items: seq<Item>, materials: map<nat, Material>)
    returns (r: map<Key, real>)
    requires ItemsOk(items, materials)
    ensures r == Accumulate(report, ItemsContribs(items, materials))
  {
    r := report;
    for j := 0 to |items|
      invariant r == Accumulate(report, ItemsContribs(items[..j], materials))
    {
      assert items[..j + 1][..j] == items[..j];
      r := AddItem(r, items[j], materials);
      AccumulateAppend(report, ItemsContribs(items[..j], materials), ItemContribs(items[j], materials));
    }
    assert items[..|items|] == items;
  }

  /** `get_material_requirements_for_orders`: the nested loops over orders and their items. */
  method MaterialRequirements(orders: seq<Order>, materials: map<nat, Material>) returns (report: map<Key, real>)
    requires OrdersOk(orders, materials)
    ensures report == Report(orders, materials)
  {
    report := map[];
    for i := 0 to |orders|
      invariant report == Accumulate(map[], OrdersContribs(orders[..i], materials))
    {
      assert orders[..i + 1][..i] == orders[..i];
      var done := OrdersContribs(orders[..i], materials);
      report := AddItems(report, orders[i].itens, materials);
      AccumulateAppend(map[], done, ItemsContribs(orders[i].itens, materials));
    }
    assert orders[..|orders|] == orders;
  }

  // ---------------------------------------------------------------------------------------
  // Properties

  /**
   * A line adds its quantity converted by `to_db_value` for the material's unit, times the
   * ordered quantity, under (material, colour); a line without material adds nothing.
   */
  lemma LineAddsStoredQuantity(l: BomLine, orderQty: int, materials: map<nat, Material>)
    requires LineOk(l, materials)
    ensures l.material.None? ==> LineContrib(l, orderQty, materials) == []
    ensures l.material.Some? ==>
      LineContrib(l, orderQty, materials)
        == [Contribution((l.material.value, l.cor),
                         ToDbValue(materials[l.material.value].unidade, l.quantidade) * orderQty as real)]
  {
    if l.material.Some? {
      var m := l.material.value;
      var u := NormUnit(materials[m].unidade);
      NormalisedIsToDbByName(u, l.quantidade);
      var amount := ToDbValue(materials[m].unidade, l.quantidade) * orderQty as real;
      assert LineContrib(l, orderQty, materials)[0] == Contribution((m, l.cor), amount);
      assert LineContrib(l, orderQty, materials) == [Contribution((m, l.cor), amount)];
      assert amount == ToDbValue(materials[l.material.value].unidade, l.quantidade) * orderQty as real;
      assert [Contribution((m, l.cor), amount)] == [Contribution((l.material.value, l.cor),
                         ToDbValue(materials[l.material.value].unidade, l.quantidade) * orderQty as real)];
    }
  }

  /** Every key of the report names a material of the material table. */
  predicate MaterialsKnown(cs: seq<Contribution>, materials: map<nat, Material>) {
    forall c :: c in cs ==> c.key.0 in materials
  }

  lemma ConfigContribsKnown(cs: seq<Config>, itemQty: int, materials: map<nat, Material>)
    requires ConfigsOk(cs, materials)
    ensures MaterialsKnown(ConfigContribs(cs, itemQty, materials), materials)
  {
  }

  lemma LineContribsKnown(ls: seq<BomLine>, orderQty: int, materials: map<nat, Material>)
    requires LinesOk(ls, materials)
    ensures MaterialsKnown(LineContribs(ls, orderQty, materials), materials)
  {
  }

  lemma GeneralContribsKnown(bs: seq<BomItem>, orderQty: int, materials: map<nat, Material>)
    requires BomOk(bs, materials)
    ensures MaterialsKnown(GeneralContribs(bs, orderQty, materials), materials)
  {
  }

  lemma ItemContribsKnown(it: Item, materials: map<nat, Material>)
    requires ItemOk(it, materials)
    ensures MaterialsKnown(ItemContribs(it, materials), materials)
  {
    ConfigContribsKnown(it.configs, it.quantidade, materials);
    if it.produto.Some? {
      var sku := it.produto.value;
      LineContribsKnown(sku.consumos, it.quantidade, materials);
      OfTipoOk(sku.itensMaterial, TecidoPadrao, materials);
      LineContribsKnown(OfTipo(sku.itensMaterial, TecidoPadrao), it.quantidade, materials);
      GeneralContribsKnown(sku.itensMaterial, it.quantidade, materials);
      LineContribsKnown(sku.insumos, it.quantidade, materials);
    }
  }

  lemma {:induction false} OrdersContribsKnown(orders: seq<Order>, materials: map<nat, Material>)
    requires OrdersOk(orders, materials)
    ensures MaterialsKnown(OrdersContribs(orders, materials), materials)
    decreases |orders|
  {
    if orders != [] {
      OrdersContribsKnown(orders[..|orders| - 1], materials);
      ItemsContribsKnown(orders[|orders| - 1].itens, materials);
    }
  }

  lemma {:induction false} ItemsContribsKnown(items: seq<Item>, materials: map<nat, Material>)
    requires ItemsOk(items, materials)
    ensures MaterialsKnown(ItemsContribs(items, materials), materials)
    decreases |items|
  {
    if items != [] {
      ItemsContribsKnown(items[..|items| - 1], materials);
      ItemContribsKnown(items[|items| - 1], materials);
    }
  }

  /** The general BOM loop adds exactly the `insumo` lines: standard fabric lines are not counted there. */
  lemma {:induction false} GeneralIsInsumoLines(bs: seq<BomItem>, orderQty: int, materials: map<nat, Material>)
    requires BomOk(bs, materials)
    ensures LinesOk(OfTipo(bs, InsumoTipo), materials)
    ensures GeneralContribs(bs, orderQty, materials) == LineContribs(OfTipo(bs, InsumoTipo), orderQty, materials)
    decreases |bs|
  {
    OfTipoOk(bs, InsumoTipo, materials);
    if bs != [] {
      var front := bs[..|bs| - 1];
      var b := bs[|bs| - 1];
      GeneralIsInsumoLines(front, orderQty, materials);
      var fl := OfTipo(front, InsumoTipo);
      if b.tipo == InsumoTipo {
        assert OfTipo(bs, InsumoTipo) == fl + [b.line];
        assert (fl + [b.line])[..|fl|] == fl;
      } else {
        assert OfTipo(bs, InsumoTipo) == fl;
      }
    }
  }

  /**
   * Standard fabric is counted at most once per item: with configured pieces it is not
   * added at all; without them it comes from the cache when the cache has lines, and from
   * the `tecido_padrao` BOM lines otherwise, never from both.
   */
  lemma StandardFabricOnce(it: Item, materials: map<nat, Material>)
    requires it.produto.Some? && ItemOk(it, materials)
    ensures it.configs != [] ==> StandardFabric(it, materials) == []
    ensures it.configs == [] && it.produto.value.consumos != [] ==>
      StandardFabric(it, materials) == LineContribs(it.produto.value.consumos, it.quantidade, materials)
    ensures LinesOk(OfTipo(it.produto.value.itensMaterial, TecidoPadrao), materials)
    ensures it.configs == [] && it.produto.value.consumos == [] ==>
      StandardFabric(it, materials)
        == LineContribs(OfTipo(it.produto.value.itensMaterial, TecidoPadrao), it.quantidade, materials)
  {
    OfTipoOk(it.produto.value.itensMaterial, TecidoPadrao, materials);
  }

  /** An item without a product adds only its configured pieces. */
  lemma NoProductOnlyConfigs(it: Item, materials: map<nat, Material>)
    requires ItemOk(it, materials) && it.produto.None?
    ensures ItemContribs(it, materials) == ConfigContribs(it.configs, it.quantidade, materials)
  {
    assert ItemContribs(it, materials) == ConfigContribs(it.configs, it.quantidade, materials) + [];
  }

  lemma OrdersOkAppend(a: seq<Order>, b: seq<Order>, materials: map<nat, Material>)
    requires OrdersOk(a, materials) && OrdersOk(b, materials)
    ensures OrdersOk(a + b, materials)
  {
    forall i | 0 <= i < |a + b|
      ensures ItemsOk((a + b)[i].itens, materials)
    {
      if i < |a| {
        assert (a + b)[i] == a[i];
      } else {
        assert (a + b)[i] == b[i - |a|];
      }
    }
  }

  lemma {:induction false} OrdersContribsAppend(a: seq<Order>, b: seq<Order>, materials: map<nat, Material>)
    requires OrdersOk(a, materials) && OrdersOk(b, materials)
    ensures OrdersOk(a + b, materials)
    ensures OrdersContribs(a + b, materials) == OrdersContribs(a, materials) + OrdersContribs(b, materials)
    decreases |b|
  {
    OrdersOkAppend(a, b, materials);
    if b == [] {
      assert a + b == a;
    } else {
      var ab := a + b;
      var front, last := b[..|b| - 1], b[|b| - 1];
      assert OrdersOk(front, materials) by {
        forall i | 0 <= i < |front|
          ensures ItemsOk(front[i].itens, materials)
        {
          assert front[i] == b[i];
        }
      }
      assert ItemsOk(last.itens, materials);
      assert ab[..|ab| - 1] == a + front;
      assert ab[|ab| - 1] == last;
      OrdersContribsAppend(a, front, materials);
      var x, y, z := OrdersContribs(a, materials), OrdersContribs(front, materials), ItemsContribs(last.itens, materials);
      assert OrdersContribs(ab, materials) == (x + y) + z;
      assert OrdersContribs(b, materials) == y + z;
      assert (x + y) + z == x + (y + z);
    }
  }

  /**
   * The report for two order lists together is the key-wise sum of their reports, over
   * the union of their keys.
   */
  lemma ReportAdditive(a: seq<Order>, b: seq<Order>, materials: map<nat, Material>, k: Key)
    requires OrdersOk(a, materials) && OrdersOk(b, materials)
    ensures OrdersOk(a + b, materials)
    ensures Get(Report(a + b, materials), k) == Get(Report(a, materials), k) + Get(Report(b, materials), k)
    ensures k in Report(a + b, materials) <==> k in Report(a, materials) || k in Report(b, materials)
  {
    OrdersContribsAppend(a, b, materials);
    Additive(OrdersContribs(a, materials), OrdersContribs(b, materials), k);
  }

  /** A line of 2.0 in unit "un", ten products: 20.0, the unit being no length. */
  lemma ZipperLine(zipper: Material, cor: Option<nat>)
    requires zipper.unidade == "un"
    ensures LineContrib(BomLine(Some(0), cor, 2.0), 10, map[0 := zipper]) == [Contribution((0, cor), 20.0)]
  {
    NormalisesUn();
    var u := NormUnit(zipper.unidade);
    assert !IsLengthName(u);
    assert Normalised(zipper.unidade, 2.0) == 2.0;
    var c := LineContrib(BomLine(Some(0), cor, 2.0), 10, map[0 := zipper]);
    assert c[0] == Contribution((0, cor), 20.0);
  }

  lemma ZipperItem(zipper: Material, cor: Option<nat>)
    requires zipper.unidade == "un"
    ensures var it := Item(10, [], Some(Sku([], [BomItem(InsumoTipo, BomLine(Some(0), cor, 2.0))], [])));
            ItemOk(it, map[0 := zipper])
            && ItemContribs(it, map[0 := zipper]) == [Contribution((0, cor), 20.0)]
  {
    var materials := map[0 := zipper];
    var line := BomLine(Some(0), cor, 2.0);
    var bom := [BomItem(InsumoTipo, line)];
    var it := Item(10, [], Some(Sku([], bom, [])));
    var c := [Contribution((0, cor), 20.0)];
    ZipperLine(zipper, cor);
    assert bom[..0] == [];
    assert GeneralContribs(bom, 10, materials) == [] + c;
    assert OfTipo(bom, TecidoPadrao) == [];
    assert StandardFabric(it, materials) == [];
    assert ItemContribs(it, materials) == [] + ([] + c + []);
  }

  /** Two zippers (unit "un") per product as an `insumo` BOM line, ten products: 20.0. */
  lemma ZipperExample(zipper: Material, cor: Option<nat>)
    requires zipper.unidade == "un"
    ensures var order := Order(0, [Item(10, [], Some(Sku([], [BomItem(InsumoTipo, BomLine(Some(0), cor, 2.0))], [])))]);
            OrdersOk([order], map[0 := zipper])
            && Report([order], map[0 := zipper]) == map[(0, cor) := 20.0]
  {
    var materials := map[0 := zipper];
    var it := Item(10, [], Some(Sku([], [BomItem(InsumoTipo, BomLine(Some(0), cor, 2.0))], [])));
    var order := Order(0, [it]);
    var cs := [Contribution((0, cor), 20.0)];
    ZipperItem(zipper, cor);
    assert [it][..0] == [];
    assert ItemsContribs([it], materials) == [] + cs;
    assert [order][..0] == [];
    assert OrdersContribs([order], materials) == [] + cs;
    assert cs[..0] == [];
    assert Accumulate(map[], cs) == Add(map[], (0, cor), 20.0);
    assert Add(map[], (0, cor), 20.0) == map[(0, cor) := 20.0];
  }
}
