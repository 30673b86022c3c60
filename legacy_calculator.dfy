/**
 * The older material-requirements calculator. Its configured-fabric step is the same
 * row-yield estimate as the current calculator's; its accessory step takes the product's
 * colour-specific insumos, each naming an optional override material and the mold's
 * material line, which gives the quantity (and the material when there is no override).
 */
module LegacyCalculator {
  import opened Wrappers
  import opened Inventory
  import opened Requirements
  import opened SalesCalculator

  /** `MoldeMaterial`: a material the mold needs, with its quantity per product. */
  datatype MoldeMaterial = MoldeMaterial(material: nat, quantidade: real)

  /** `ProdutoInsumoCor`: an accessory of the product in a colour, optionally overriding the material. */
  datatype InsumoCor = InsumoCor(material: Option<nat>, cor: Option<nat>, moldeMaterial: MoldeMaterial)

  datatype LegacyItem = LegacyItem(quantidade: int, configs: seq<Config>, produto: Option<seq<InsumoCor>>)

  datatype LegacyOrder = LegacyOrder(itens: seq<LegacyItem>)

  /** `pic.material if pic.material else pic.molde_material.material` */
  function Effective(pic: InsumoCor): (m: nat)
    ensures pic.material.Some? ==> m == pic.material.value
    ensures pic.material.None? ==> m == pic.moldeMaterial.material
  {
    if pic.material.Some? then pic.material.value else pic.moldeMaterial.material
  }

  predicate PicOk(pic: InsumoCor, materials: map<nat, Material>) {
    Effective(pic) in materials
  }

  predicate PicsOk(ps: seq<InsumoCor>, materials: map<nat, Material>) {
    forall i :: 0 <= i < |ps| ==> PicOk(ps[i], materials)
  }

  predicate LegacyItemOk(it: LegacyItem, materials: map<nat, Material>) {
    ConfigsOk(it.configs, materials) && (it.produto.Some? ==> PicsOk(it.produto.value, materials))
  }

  predicate LegacyItemsOk(items: seq<LegacyItem>, materials: map<nat, Material>) {
    forall i :: 0 <= i < |items| ==> LegacyItemOk(items[i], materials)
  }

  predicate LegacyOrdersOk(orders: seq<LegacyOrder>, materials: map<nat, Material>) {
    forall i :: 0 <= i < |orders| ==> LegacyItemsOk(orders[i].itens, materials)
  }

  /**
   * One accessory: the mold line's quantity normalised by the effective material's unit,
   * times the ordered quantity, under (effective material, colour).
   */
  function PicContrib(pic: InsumoCor, itemQty: int, materials: map<nat, Material>): Contribution
    requires PicOk(pic, materials)
  {
    var m := Effective(pic);
    Contribution((m, pic.cor), Normalised(materials[m].unidade, pic.moldeMaterial.quantidade) * itemQty as real)
  }

  function PicContribs(ps: seq<InsumoCor>, itemQty: int, materials: map<nat, Material>): seq<Contribution>
    requires PicsOk(ps, materials)
  {
    if ps == [] then []
    else PicContribs(ps[..|ps| - 1], itemQty, materials) + [PicContrib(ps[|ps| - 1], itemQty, materials)]
  }

  function LegacyItemContribs(it: LegacyItem, materials: map<nat, Material>): seq<Contribution>
    requires LegacyItemOk(it, materials)
  {
    ConfigContribs(it.configs, it.quantidade, materials)
    + (if it.produto.Some? then PicContribs(it.produto.value, it.quantidade, materials) else [])
  }

  function LegacyItemsContribs(items: seq<LegacyItem>, materials: map<nat, Material>): seq<Contribution>
    requires LegacyItemsOk(items, materials)
  {
    if items == [] then []
    else LegacyItemsContribs(items[..|items| - 1], materials) + LegacyItemContribs(items[|items| - 1], materials)
  }

  function LegacyOrdersContribs(orders: seq<LegacyOrder>, materials: map<nat, Material>): seq<Contribution>
    requires LegacyOrdersOk(orders, materials)
  {
    if orders == [] then []
    else LegacyOrdersContribs(orders[..|orders| - 1], materials) + LegacyItemsContribs(orders[|orders| - 1].itens, materials)
  }

  function LegacyReport(orders: seq<LegacyOrder>, materials: map<nat, Material>): map<Key, real>
    requires LegacyOrdersOk(orders, materials)
  {
    Accumulate(map[], LegacyOrdersContribs(orders, materials))
  }

  /** The body of the accessory loop: resolve the material, normalise the quantity, add it. */
  method AddPic(report: map<Key, real>, pic: InsumoCor, itemQty: int, materials: map<nat, Material>)
    returns (r: map<Key, real>)
    requires PicOk(pic, materials)
    ensures r == Accumulate(report, [PicContrib(pic, itemQty, materials)])
  {
    var material := if pic.material.Some? then pic.material.value else pic.moldeMaterial.material;
    assert material == Effective(pic);
    var cor := pic.cor;
    var qtyUnit := NormaliseQuantity(materials[material].unidade, pic.moldeMaterial.quantidade);
    var qtyTotal := qtyUnit * itemQty as real;
    assert PicContrib(pic, itemQty, materials) == Contribution((material, cor), qtyTotal);
    r := AddTo(report, (material, cor), qtyTotal);
  }

  /** The accessory loop of one item. */
  method AddPics(report: map<Key, real>, ps: seq<InsumoCor>, itemQty: int, materials: map<nat, Material>)
    returns (r: map<Key, real>)
    requires PicsOk(ps, materials)
    ensures r == Accumulate(report, PicContribs(ps, itemQty, materials))
  {
    r := report;
    for j := 0 to |ps|
      invariant r == Accumulate(report, PicContribs(ps[..j], itemQty, materials))
    {
      assert ps[..j + 1][..j] == ps[..j];
      r := AddPic(r, ps[j], itemQty, materials);
      AccumulateAppend(report, PicContribs(ps[..j], itemQty, materials), [PicContrib(ps[j], itemQty, materials)]);
    }
    assert ps[..|ps|] == ps;
  }

  method AddLegacyItem(report: map<Key, real>, it: LegacyItem, materials: map<nat, Material>)
    returns (r: map<Key, real>)
    requires LegacyItemOk(it, materials)
    ensures r == Accumulate(report, LegacyItemContribs(it, materials))
  {
    r := AddConfigs(report, it.configs, it.quantidade, materials);
    var cfg := ConfigContribs(it.configs, it.quantidade, materials);
    if it.produto.None? {
      assert LegacyItemContribs(it, materials) == cfg;
      return;
    }
    r := AddPics(r, it.produto.value, it.quantidade, materials);
    AccumulateAppend(report, cfg, PicContribs(it.produto.value, it.quantidade, materials));
  }

  method AddLegacyItems(report: map<Key, real>, items: seq<LegacyItem>, materials: map<nat, Material>)
    returns (r: map<Key, real>)
    requires LegacyItemsOk(items, materials)
    ensures r == Accumulate(report, LegacyItemsContribs(items, materials))
  {
    r := report;
    for j := 0 to |items|
      invariant r == Accumulate(report, LegacyItemsContribs(items[..j], materials))
    {
      assert items[..j + 1][..j] == items[..j];
      r := AddLegacyItem(r, items[j], materials);
      AccumulateAppend(report, LegacyItemsContribs(items[..j], materials), LegacyItemContribs(items[j], materials));
    }
    assert items[..|items|] == items;
  }

  /** The legacy `get_material_requirements_for_orders`. */
  method LegacyMaterialRequirements(orders: seq<LegacyOrder>, materials: map<nat, Material>)
    returns (report: map<Key, real>)
    requires LegacyOrdersOk(orders, materials)
    ensures report == LegacyReport(orders, materials)
  {
    report := map[];
    for i := 0 to |orders|
      invariant report == Accumulate(map[], LegacyOrdersContribs(orders[..i], materials))
    {
      assert orders[..i + 1][..i] == orders[..i];
      var done := LegacyOrdersContribs(orders[..i], materials);
      report := AddLegacyItems(report, orders[i].itens, materials);
      AccumulateAppend(map[], done, LegacyItemsContribs(orders[i].itens, materials));
    }
    assert orders[..|orders|] == orders;
  }

  // ---------------------------------------------------------------------------------------
  // Properties

  /**
   * An accessory is booked under the override material when there is one, and under the
   * mold line's material otherwise; its quantity is always the mold line's, converted by
   * `to_db_value` in the unit of the material it is booked under.
   */
  lemma PicAddsStoredQuantity(pic: InsumoCor, itemQty: int, materials: map<nat, Material>)
    requires PicOk(pic, materials)
    ensures pic.material.Some? ==> PicContrib(pic, itemQty, materials).key == (pic.material.value, pic.cor)
    ensures pic.material.None? ==> PicContrib(pic, itemQty, materials).key == (pic.moldeMaterial.material, pic.cor)
    ensures PicContrib(pic, itemQty, materials).amount
            == ToDbValue(materials[Effective(pic)].unidade, pic.moldeMaterial.quantidade) * itemQty as real
  {
    var u := NormUnit(materials[Effective(pic)].unidade);
    NormalisedIsToDbByName(u, pic.moldeMaterial.quantidade);
  }

  /** An item without a product adds only its configured pieces, as in the current calculator. */
  lemma LegacyNoProductOnlyConfigs(it: LegacyItem, materials: map<nat, Material>)
    requires LegacyItemOk(it, materials) && it.produto.None?
    ensures LegacyItemContribs(it, materials) == ConfigContribs(it.configs, it.quantidade, materials)
  {
    assert LegacyItemContribs(it, materials) == ConfigContribs(it.configs, it.quantidade, materials) + [];
  }

  /** 0.8 of a material in unit "MT" per product, 100 products: 80 000 mm. */
  lemma MetresExample(ziper: Material, cor: Option<nat>)
    requires ziper.unidade == "MT"
    ensures PicContrib(InsumoCor(None, cor, MoldeMaterial(0, 0.8)), 100, map[0 := ziper])
            == Contribution((0, cor), 80000.0)
  {
    NormalisesUpperMT();
    var u := NormUnit(ziper.unidade);
    assert IsMeterName(u);
    assert Normalised(ziper.unidade, 0.8) == 800.0;
  }
}
