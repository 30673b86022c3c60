/**
 * Materials, their unit conversion between the displayed unit and the stored unit
 * (lengths are stored in millimetres), and stock entry, which raises a material's total
 * stock and its per-colour stock by the converted quantity.
 */
module Inventory {
  import opened Wrappers
  import opened Text

  /** A `Material` row; `preco_custo` and `preco_medio` are decimals, modelled as reals. */
  datatype Material = Material(
    nome: string,
    unidade: string,
    precoCusto: real,
    precoMedio: real,
    estoqueAtual: real,
    ehTecido: bool,
    larguraPadraoMm: Option<int>,
    temCor: bool)

  /** `unidade.lower().strip()` */
  function NormUnit(unidade: string): string {
    Strip(Lower(unidade))
  }

  predicate IsMeterName(u: string) {
    u == "mt" || u == "m" || u == "mts" || u == "metro" || u == "metros"
  }

  predicate IsCentimeterName(u: string) {
    u == "cm" || u == "centimetro"
  }

  predicate IsMillimeterName(u: string) {
    u == "mm" || u == "milimetro"
  }

  predicate IsLengthName(u: string) {
    IsMeterName(u) || IsCentimeterName(u) || IsMillimeterName(u)
  }

  /** `is_unidade_medida`: the unit names a length (metre, centimetre or millimetre family). */
  predicate IsUnidadeMedida(unidade: string) {
    IsLengthName(NormUnit(unidade))
  }

  /**
   * How many stored units one displayed unit is, by normalised unit name: 1000 for the
   * metre family, 10 for the centimetre family, 1 for millimetres and every other unit.
   */
  function NameFactor(u: string): real {
    if IsMeterName(u) then 1000.0 else if IsCentimeterName(u) then 10.0 else 1.0
  }

  function Factor(unidade: string): real {
    NameFactor(NormUnit(unidade))
  }

  /** The body of `to_db_value` once the unit is normalised: a falsy input gives 0.0. */
  function ToDbByName(u: string, v: real): real {
    if v == 0.0 then 0.0
    else if IsLengthName(u) then
      if IsMeterName(u) then v * 1000.0 else if IsCentimeterName(u) then v * 10.0 else v
    else v
  }

  /** The body of `get_valor_display` once the unit is normalised: a falsy input gives 0.0. */
  function DisplayByName(u: string, v: real): real {
    if v == 0.0 then 0.0
    else if IsLengthName(u) then
      if IsMeterName(u) then v / 1000.0 else if IsCentimeterName(u) then v / 10.0 else v
    else v
  }

  /** `to_db_value` */
  function ToDbValue(unidade: string, v: real): real {
    ToDbByName(NormUnit(unidade), v)
  }

  /** `get_valor_display` */
  function ValorDisplay(unidade: string, v: real): real {
    DisplayByName(NormUnit(unidade), v)
  }

  /** Both conversions scale by the unit's factor, zero included. */
  lemma ScalingByName(u: string, v: real)
    ensures ToDbByName(u, v) == v * NameFactor(u)
    ensures DisplayByName(u, v) == v / NameFactor(u)
  {
  }

  /** Converting to the stored unit and back, or back and then to it, gives the input. */
  lemma RoundTripsByName(u: string, v: real)
    ensures DisplayByName(u, ToDbByName(u, v)) == v
    ensures ToDbByName(u, DisplayByName(u, v)) == v
  {
    ScalingByName(u, v);
    ScalingByName(u, ToDbByName(u, v));
    ScalingByName(u, DisplayByName(u, v));
  }

  lemma RoundTrips(unidade: string, v: real)
    ensures ValorDisplay(unidade, ToDbValue(unidade, v)) == v
    ensures ToDbValue(unidade, ValorDisplay(unidade, v)) == v
  {
    RoundTripsByName(NormUnit(unidade), v);
  }

  /** Zero converts to zero, and only zero does. */
  lemma ZeroIffZeroByName(u: string, v: real)
    ensures ToDbByName(u, v) == 0.0 <==> v == 0.0
    ensures DisplayByName(u, v) == 0.0 <==> v == 0.0
  {
    ScalingByName(u, v);
    assert NameFactor(u) >= 1.0;
  }

  lemma ZeroIffZero(unidade: string, v: real)
    ensures ToDbValue(unidade, v) == 0.0 <==> v == 0.0
    ensures ValorDisplay(unidade, v) == 0.0 <==> v == 0.0
  {
    ZeroIffZeroByName(NormUnit(unidade), v);
  }

  /** Case and surrounding whitespace are dropped before the unit name is compared. */
  lemma NormalisesPaddedUpper()
    ensures NormUnit(" MT ") == "mt"
  {
    assert LowerChar(' ') == ' ';
    assert LowerChar('M') == 'm';
    assert LowerChar('T') == 't';
    assert Lower(" ") == " ";
    assert Lower("T ") == "t ";
    assert Lower("MT ") == "mt ";
    assert Lower(" MT ") == " mt ";
    assert TrimLeft("mt ") == "mt ";
    assert TrimLeft(" mt ") == "mt ";
    assert TrimRight("mt") == "mt";
    assert TrimRight("mt ") == "mt";
  }

  /** So " MT " is read as metres. */
  lemma PaddedUpperMetres()
    ensures IsUnidadeMedida(" MT ") && Factor(" MT ") == 1000.0
  {
    NormalisesPaddedUpper();
    var u := NormUnit(" MT ");
    assert IsMeterName(u);
  }

  lemma NormalisesKg()
    ensures NormUnit("Kg") == "kg"
  {
    assert LowerChar('K') == 'k';
    assert Lower("g") == "g";
    assert Lower("Kg") == "kg";
    assert TrimLeft("kg") == "kg";
    assert TrimRight("kg") == "kg";
  }

  lemma NormalisesUn()
    ensures NormUnit("un") == "un"
  {
    assert Lower("n") == "n";
    assert Lower("un") == "un";
    assert TrimLeft("un") == "un";
    assert TrimRight("un") == "un";
  }

  lemma NormalisesUpperMT()
    ensures NormUnit("MT") == "mt"
  {
    assert LowerChar('M') == 'm';
    assert LowerChar('T') == 't';
    assert Lower("T") == "t";
    assert Lower("MT") == "mt";
    assert TrimLeft("mt") == "mt";
    assert TrimRight("mt") == "mt";
  }

  /** "Kg" names no length, so its quantities are stored as typed. */
  lemma KilogramsUnscaled(v: real)
    ensures !IsUnidadeMedida("Kg") && ToDbValue("Kg", v) == v
  {
    NormalisesKg();
    var u := NormUnit("Kg");
    assert !IsLengthName(u);
  }

  /** A stock entry (`EntradaEstoque`): `quantidade` is the value as typed, in display units. */
  datatype Entrada = Entrada(material: nat, cor: Option<nat>, quantidade: real, precoUnitario: real)

  type StockKey = (nat, Option<nat>)

  /** The material table, the per-colour stock table and the entry table. */
  class InventoryDb {
    var materials: map<nat, Material>
    var stock: map<StockKey, real>
    var entries: map<nat, Entrada>
    var nextEntryId: nat

    predicate Valid()
      reads this
    {
      forall id :: id in entries ==> id < nextEntryId
    }

    constructor (materials0: map<nat, Material>)
      ensures Valid() && materials == materials0 && stock == map[] && entries == map[]
    {
      materials := materials0;
      stock := map[];
      entries := map[];
      nextEntryId := 0;
    }

    function StockOf(k: StockKey): real
      reads this
    {
      if k in stock then stock[k] else 0.0
    }

    /**
     * `EntradaEstoque.save`: the entry row is written as typed; a new entry (no id yet) also
     * sets the material's reference cost to the entry's unit price and raises both the
     * material's total stock and the (material, colour) stock, created at 0 when absent, by
     * the converted quantity. Saving an existing entry changes no stock.
     */
    method SaveEntrada(pk: Option<nat>, e: Entrada) returns (id: nat)
      requires Valid() && e.material in materials
      requires pk.Some? ==> pk.value < nextEntryId
      modifies this
      ensures Valid()
      ensures pk.Some? ==> id == pk.value
      ensures pk.None? ==> id == old(nextEntryId) && id !in old(entries)
      ensures entries == old(entries)[id := e]
      ensures pk.Some? ==> materials == old(materials) && stock == old(stock)
      ensures pk.None? ==>
        var m := old(materials)[e.material];
        var q := ToDbValue(m.unidade, e.quantidade);
        materials == old(materials)[e.material := m.(precoCusto := e.precoUnitario, estoqueAtual := m.estoqueAtual + q)]
        && stock == old(stock)[(e.material, e.cor) := old(StockOf((e.material, e.cor))) + q]
    {
      var isNew := pk.None?;
      var m := materials[e.material];
      var qtdDb := ToDbValue(m.unidade, e.quantidade);
      if isNew {
        id := nextEntryId;
        nextEntryId := nextEntryId + 1;
      } else {
        id := pk.value;
      }
      entries := entries[id := e];
      if isNew {
        m := m.(precoCusto := e.precoUnitario);
        m := m.(estoqueAtual := m.estoqueAtual + qtdDb);
        materials := materials[e.material := m];
        var key := (e.material, e.cor);
        if key !in stock {
          stock := stock[key := 0.0];
        }
        stock := stock[key := stock[key] + qtdDb];
      }
    }
  }

  /**
   * A new entry raises the material's total stock and the colour's stock by the same
   * amount, which displays as the quantity typed.
   */
  lemma EntryDisplaysAsTyped(m: Material, quantidade: real)
    ensures ValorDisplay(m.unidade, ToDbValue(m.unidade, quantidade)) == quantidade
    ensures Factor(m.unidade) == 1000.0 ==> ToDbValue(m.unidade, quantidade) == 1000.0 * quantidade
  {
    var u := NormUnit(m.unidade);
    RoundTripsByName(u, quantidade);
    ScalingByName(u, quantidade);
  }
}
