/**
 * The decision rules of the product screens: the estimated cost of a reference, the change
 * test that decides whether a new reference is created, the dimension fallback shown for a
 * piece, the comma-tolerant number reader, and the duplicate test for a new SKU, which
 * compares sorted signatures.
 */
module ProductsViews {
  import opened Wrappers
  import opened Text
  import opened Geometry
  import opened Sorting

  // ---------------------------------------------------------------------------------------
  // Estimated cost

  /** A material line of a product: the material's cost price (nullable) and the quantity. */
  datatype CostLine = CostLine(precoCusto: Option<real>, quantidade: real)

  /** `(item.material.preco_custo or Decimal(0.0)) * Decimal(str(item.quantidade))` */
  function LineCost(l: CostLine): real {
    l.precoCusto.GetOr(0.0) * l.quantidade
  }

  /** The sum of the line costs. */
  function CostOf(lines: seq<CostLine>): real {
    if lines == [] then 0.0 else CostOf(lines[..|lines| - 1]) + LineCost(lines[|lines| - 1])
  }

  lemma {:induction false} CostAppend(a: seq<CostLine>, b: seq<CostLine>)
    ensures CostOf(a + b) == CostOf(a) + CostOf(b)
    decreases |b|
  {
    if b == [] {
      assert a + b == a;
    } else {
      var ab := a + b;
      assert ab[..|ab| - 1] == a + b[..|b| - 1];
      CostAppend(a, b[..|b| - 1]);
    }
  }

  /**
   * The cost loops of `product_list`, `product_detail` and `integrated_view`: the material
   * items, then the insumos, each adding price times quantity.
   */
  method EstimatedCost(itens: seq<CostLine>, insumos: seq<CostLine>) returns (cost: real)
    ensures cost == CostOf(itens + insumos)
  {
    cost := 0.0;
    for j := 0 to |itens|
      invariant cost == CostOf(itens[..j])
    {
      assert itens[..j + 1][..j] == itens[..j];
      var price := if itens[j].precoCusto.Some? then itens[j].precoCusto.value else 0.0;
      cost := cost + price * itens[j].quantidade;
    }
    assert itens[..|itens|] == itens;
    for j := 0 to |insumos|
      invariant cost == CostOf(itens) + CostOf(insumos[..j])
    {
      assert insumos[..j + 1][..j] == insumos[..j];
      var price := if insumos[j].precoCusto.Some? then insumos[j].precoCusto.value else 0.0;
      cost := cost + price * insumos[j].quantidade;
    }
    assert insumos[..|insumos|] == insumos;
    CostAppend(itens, insumos);
  }

  /** Which list is summed first does not matter. */
  lemma CostOrderFree(itens: seq<CostLine>, insumos: seq<CostLine>)
    ensures CostOf(itens + insumos) == CostOf(insumos + itens)
  {
    CostAppend(itens, insumos);
    CostAppend(insumos, itens);
  }

  /** A line whose material has no cost price adds nothing. */
  lemma UnpricedAddsNothing(lines: seq<CostLine>, q: real)
    ensures CostOf(lines + [CostLine(None, q)]) == CostOf(lines)
  {
    CostAppend(lines, [CostLine(None, q)]);
    assert CostOf([CostLine(None, q)]) == CostOf([]) + LineCost(CostLine(None, q)) by {
      assert [CostLine(None, q)][..0] == [];
    }
  }

  /** With no negative price and no negative quantity the cost is not negative. */
  lemma {:induction false} CostNonNegative(lines: seq<CostLine>)
    requires forall i :: 0 <= i < |lines| ==> lines[i].precoCusto.GetOr(0.0) >= 0.0 && lines[i].quantidade >= 0.0
    ensures CostOf(lines) >= 0.0
    decreases |lines|
  {
    if lines != [] {
      var front := lines[..|lines| - 1];
      assert forall i :: 0 <= i < |front| ==> front[i] == lines[i];
      CostNonNegative(front);
      var last := lines[|lines| - 1];
      assert last.precoCusto.GetOr(0.0) * last.quantidade >= 0.0;
    }
  }

  // ---------------------------------------------------------------------------------------
  // Change detection in `product_create`

  /** A material item of the base reference: the piece it belongs to (nullable) and its material. */
  datatype RefItem = RefItem(detalhe: Option<nat>, material: nat)

  /** An insumo of the base reference. */
  datatype RefInsumo = RefInsumo(material: nat, quantidade: real)

  datatype Reference = Reference(itens: seq<RefItem>, insumos: seq<RefInsumo>)

  /** The material of the reference's first item for piece `d`. */
  function FirstMaterialFor(itens: seq<RefItem>, d: nat): (r: Option<nat>)
    ensures r.None? <==> forall j :: 0 <= j < |itens| ==> itens[j].detalhe != Some(d)
    ensures r.Some? ==> exists j :: 0 <= j < |itens| && itens[j] == RefItem(Some(d), r.value)
                                    && forall k :: 0 <= k < j ==> itens[k].detalhe != Some(d)
  {
    if itens == [] then None
    else if itens[0].detalhe == Some(d) then Some(itens[0].material)
    else
      var r := FirstMaterialFor(itens[1..], d);
      assert forall j :: 0 < j < |itens| ==> itens[j] == itens[1..][j - 1];
      assert r.Some? ==> exists j :: 0 <= j < |itens[1..]| && itens[1..][j] == RefItem(Some(d), r.value)
                                    && forall k :: 0 <= k < j ==> itens[1..][k].detalhe != Some(d);
      r
  }

  /** The inner search of the piece loop: the first reference item of the piece, with `break`. */
  method FindOldItem(itens: seq<RefItem>, d: nat) returns (found: Option<nat>)
    ensures found == FirstMaterialFor(itens, d)
  {
    found := None;
    var j := 0;
    while j < |itens|
      invariant 0 <= j <= |itens|
      invariant FirstMaterialFor(itens, d) == FirstMaterialFor(itens[j..], d)
    {
      assert itens[j..][1..] == itens[j + 1..];
      if itens[j].detalhe == Some(d) {
        found := Some(itens[j].material);
        return;
      }
      j := j + 1;
    }
  }

  /** `request.POST.get(f'material_{detalhe.id}')` */
  function PostedMaterial(posted: map<nat, string>, d: nat): Option<string> {
    if d in posted then Some(posted[d]) else None
  }

  /** `str(old_item.material.id) if old_item else None` */
  function OldMaterialId(ref: Option<Reference>, d: nat): Option<string> {
    if ref.None? then None
    else
      var m := FirstMaterialFor(ref.value.itens, d);
      if m.Some? then Some(NatToString(m.value)) else None
  }

  predicate PieceDiffers(posted: map<nat, string>, ref: Option<Reference>, d: nat) {
    PostedMaterial(posted, d) != OldMaterialId(ref, d)
  }

  predicate PiecesChanged(detalhes: seq<nat>, posted: map<nat, string>, ref: Option<Reference>) {
    exists i :: 0 <= i < |detalhes| && PieceDiffers(posted, ref, detalhes[i])
  }

  function Abs(x: real): real {
    if x < 0.0 then -x else x
  }

  /**
   * A posted insumo differs from the reference's when the material id text differs, the
   * quantity does not read as a number (after the comma swap) or it is more than 0.001 away.
   */
  predicate InsumoDiffers(parse: string -> Option<real>, pMat: string, pQty: string, std: RefInsumo) {
    var v := parse(ReplaceComma(pQty));
    pMat != NatToString(std.material) || v.None? || Abs(v.value - std.quantidade) > 0.001
  }

  /**
   * The insumo loop from index `i` on: `Some(true)` at the first difference, `Some(false)`
   * when none is found, `None` when the posted quantities run out first (the view's
   * `posted_qtys[i]` raises IndexError).
   */
  function InsumoScan(parse: string -> Option<real>, mats: seq<string>, qtys: seq<string>, std: seq<RefInsumo>, i: nat)
    : Option<bool>
    requires |mats| == |std| && i <= |std|
    decreases |std| - i
  {
    if i == |std| then Some(false)
    else if i >= |qtys| then None
    else if InsumoDiffers(parse, mats[i], qtys[i], std[i]) then Some(true)
    else InsumoScan(parse, mats, qtys, std, i + 1)
  }

  /** The insumo check: a different count is a change; otherwise compare in order. */
  function InsumosOutcome(parse: string -> Option<real>, mats: seq<string>, qtys: seq<string>, std: seq<RefInsumo>)
    : Option<bool>
  {
    if |mats| != |std| then Some(true) else InsumoScan(parse, mats, qtys, std, 0)
  }

  /**
   * `has_changes` of `product_create`: `Some(b)` for the computed flag, `None` when the
   * check raises. The piece check runs first; the insumo check only when no piece changed
   * and a reference exists; without a reference the answer is always a change.
   */
  function HasChangesSpec(parse: string -> Option<real>, detalhes: seq<nat>, posted: map<nat, string>,
                          ref: Option<Reference>, mats: seq<string>, qtys: seq<string>): Option<bool>
  {
    if PiecesChanged(detalhes, posted, ref) then Some(true)
    else if ref.None? then Some(true)
    else InsumosOutcome(parse, mats, qtys, ref.value.insumos)
  }

  /** The piece loop, with `break` at the first piece whose posted material differs. */
  method PiecesLoop(detalhes: seq<nat>, posted: map<nat, string>, ref: Option<Reference>) returns (changed: bool)
    ensures changed == PiecesChanged(detalhes, posted, ref)
  {
    changed := false;
    var i := 0;
    while i < |detalhes|
      invariant 0 <= i <= |detalhes|
      invariant forall k :: 0 <= k < i ==> !PieceDiffers(posted, ref, detalhes[k])
    {
      var d := detalhes[i];
      var newMatId := if d in posted then Some(posted[d]) else None;
      var oldItem: Option<nat> := None;
      if ref.Some? {
        oldItem := FindOldItem(ref.value.itens, d);
      }
      var oldMatId := if oldItem.Some? then Some(NatToString(oldItem.value)) else None;
      if newMatId != oldMatId {
        assert PieceDiffers(posted, ref, d);
        changed := true;
        return;
      }
      i := i + 1;
    }
  }

  /** The in-order insumo comparison, with `break` at the first difference. */
  method InsumosLoop(parse: string -> Option<real>, mats: seq<string>, qtys: seq<string>, std: seq<RefInsumo>)
    returns (outcome: Option<bool>)
    requires |mats| == |std|
    ensures outcome == InsumoScan(parse, mats, qtys, std, 0)
  {
    var j := 0;
    while j < |std|
      invariant 0 <= j <= |std|
      invariant InsumoScan(parse, mats, qtys, std, 0) == InsumoScan(parse, mats, qtys, std, j)
    {
      if j >= |qtys| {
        return None;
      }
      var pMat := mats[j];
      var pQty := qtys[j];
      if pMat != NatToString(std[j].material) {
        return Some(true);
      }
      var valP := parse(ReplaceComma(pQty));
      if valP.None? {
        return Some(true);
      }
      if Abs(valP.value - std[j].quantidade) > 0.001 {
        return Some(true);
      }
      j := j + 1;
    }
    outcome := Some(false);
  }

  /** The change test of `product_create`. */
  method HasChanges(parse: string -> Option<real>, detalhes: seq<nat>, posted: map<nat, string>,
                    ref: Option<Reference>, mats: seq<string>, qtys: seq<string>)
    returns (outcome: Option<bool>)
    ensures outcome == HasChangesSpec(parse, detalhes, posted, ref, mats, qtys)
  {
    var hasChanges := PiecesLoop(detalhes, posted, ref);
    if !hasChanges && ref.Some? {
      var stdInsumos := ref.value.insumos;
      if |mats| != |stdInsumos| {
        hasChanges := true;
      } else {
        var scan := InsumosLoop(parse, mats, qtys, stdInsumos);
        if scan.None? {
          return None;
        }
        hasChanges := scan.value;
      }
    }
    if ref.None? {
      hasChanges := true;
    }
    outcome := Some(hasChanges);
  }

  /** With enough posted quantities the scan finds a difference exactly when there is one. */
  lemma {:induction false} InsumoScanMeaning(parse: string -> Option<real>, mats: seq<string>, qtys: seq<string>,
                                             std: seq<RefInsumo>, i: nat)
    requires |mats| == |std| && i <= |std| && |qtys| >= |std|
    ensures InsumoScan(parse, mats, qtys, std, i)
            == Some(exists k :: i <= k < |std| && InsumoDiffers(parse, mats[k], qtys[k], std[k]))
    decreases |std| - i
  {
    if i < |std| {
      InsumoScanMeaning(parse, mats, qtys, std, i + 1);
    }
  }

  /**
   * The check raises exactly when the posted quantities are fewer than the reference's
   * insumos and no difference shows up before they run out.
   */
  lemma {:induction false} InsumoScanRaises(parse: string -> Option<real>, mats: seq<string>, qtys: seq<string>,
                                            std: seq<RefInsumo>, i: nat)
    requires |mats| == |std| && i <= |std|
    ensures InsumoScan(parse, mats, qtys, std, i).None?
            <==> i < |std| && |qtys| < |std| && forall k :: i <= k < |qtys| ==> !InsumoDiffers(parse, mats[k], qtys[k], std[k])
    decreases |std| - i
  {
    if i < |std| && i < |qtys| {
      InsumoScanRaises(parse, mats, qtys, std, i + 1);
    }
  }

  /** A scan that finds nothing has compared every remaining insumo and found it equal. */
  lemma {:induction false} InsumoScanClean(parse: string -> Option<real>, mats: seq<string>, qtys: seq<string>,
                                           std: seq<RefInsumo>, i: nat)
    requires |mats| == |std| && i <= |std|
    requires InsumoScan(parse, mats, qtys, std, i) == Some(false)
    ensures i < |std| ==> |std| <= |qtys|
    ensures forall k :: i <= k < |std| ==> !InsumoDiffers(parse, mats[k], qtys[k], std[k])
    decreases |std| - i
  {
    if i < |std| {
      assert i < |qtys| && !InsumoDiffers(parse, mats[i], qtys[i], std[i]);
      InsumoScanClean(parse, mats, qtys, std, i + 1);
      forall k | i <= k < |std|
        ensures !InsumoDiffers(parse, mats[k], qtys[k], std[k])
      {
        if k == i {
          assert !InsumoDiffers(parse, mats[i], qtys[i], std[i]);
        }
      }
    }
  }

  /** Without a base reference the new reference is always a change. */
  lemma NoReferenceIsChange(parse: string -> Option<real>, detalhes: seq<nat>, posted: map<nat, string>,
                            mats: seq<string>, qtys: seq<string>)
    ensures HasChangesSpec(parse, detalhes, posted, None, mats, qtys) == Some(true)
  {
  }

  /**
   * No change means the post repeats the reference: every piece's posted material is the
   * reference's (or both are absent), and the insumos agree one by one in material and,
   * to within 0.001, in quantity.
   */
  lemma UnchangedMeansSame(parse: string -> Option<real>, detalhes: seq<nat>, posted: map<nat, string>,
                           ref: Option<Reference>, mats: seq<string>, qtys: seq<string>)
    requires HasChangesSpec(parse, detalhes, posted, ref, mats, qtys) == Some(false)
    ensures ref.Some?
    ensures forall i :: 0 <= i < |detalhes| ==> PostedMaterial(posted, detalhes[i]) == OldMaterialId(ref, detalhes[i])
    ensures |mats| == |ref.value.insumos| <= |qtys|
    ensures forall k :: 0 <= k < |mats| ==>
              mats[k] == NatToString(ref.value.insumos[k].material)
              && parse(ReplaceComma(qtys[k])).Some?
              && Abs(parse(ReplaceComma(qtys[k])).value - ref.value.insumos[k].quantidade) <= 0.001
  {
    var std := ref.value.insumos;
    InsumoScanClean(parse, mats, qtys, std, 0);
    forall k | 0 <= k < |mats|
      ensures mats[k] == NatToString(std[k].material)
              && parse(ReplaceComma(qtys[k])).Some?
              && Abs(parse(ReplaceComma(qtys[k])).value - std[k].quantidade) <= 0.001
    {
      assert k < |qtys| && !InsumoDiffers(parse, mats[k], qtys[k], std[k]);
    }
  }

  // ---------------------------------------------------------------------------------------
  // Dimension fallback in `product_detail`

  /**
   * The dimensions shown for a piece: the stored ones, unless one of them is 0; then the
   * geometry's `w`/`h` if both are present, else twice `halfW`/`halfH` if both are present,
   * else the stored ones after all.
   */
  function DetailDims(larguraMm: real, alturaMm: real, geom: Geom): (real, real) {
    if larguraMm != 0.0 && alturaMm != 0.0 then (larguraMm, alturaMm)
    else if geom.w.Some? && geom.h.Some? then (geom.w.value, geom.h.value)
    else if geom.halfW.Some? && geom.halfH.Some? then (geom.halfW.value * 2.0, geom.halfH.value * 2.0)
    else (larguraMm, alturaMm)
  }

  /**
   * For a rectangle without `w`/`h` whose stored size was lost, the fallback is the bounding
   * box the material calculators use.
   */
  lemma RectFallbackIsBBox(larguraMm: real, alturaMm: real, geom: Geom)
    requires larguraMm == 0.0 || alturaMm == 0.0
    requires geom.tipo == Some("rect") && (geom.w.None? || geom.h.None?)
    requires geom.halfW.Some? && geom.halfH.Some?
    ensures DetailDims(larguraMm, alturaMm, geom) == BBox(geom)
  {
  }

  /** A stored size with no zero side is shown as stored, whatever the geometry says. */
  lemma StoredSizeWins(larguraMm: real, alturaMm: real, geom: Geom)
    requires larguraMm != 0.0 && alturaMm != 0.0
    ensures DetailDims(larguraMm, alturaMm, geom) == (larguraMm, alturaMm)
  {
  }

  // ---------------------------------------------------------------------------------------
  // `parse_float`

  /** `0.0` for the empty string, else `float(val.replace(',', '.'))` (`None`: ValueError). */
  function ParseFloat(parse: string -> Option<real>, val: string): (r: Option<real>) {
    if val == "" then Some(0.0) else parse(ReplaceComma(val))
  }

  /** A decimal comma reads as a decimal point: the comma swap changes nothing more. */
  lemma ParseFloatCommaFree(parse: string -> Option<real>, val: string)
    ensures ParseFloat(parse, val) == ParseFloat(parse, ReplaceComma(val))
  {
    var r := ReplaceComma(val);
    ReplaceCommaFacts(val);
    ReplaceCommaFacts(r);
    assert val == "" <==> r == "";
  }

  /** `"a,b"` reads as `"a.b"` for comma-free digit strings a and b. */
  lemma ParseFloatDecimalComma(parse: string -> Option<real>, a: string, b: string)
    requires ',' !in a && ',' !in b
    ensures ParseFloat(parse, a + "," + b) == parse(a + "." + b)
  {
    var s := a + "," + b;
    var t := a + "." + b;
    assert ReplaceComma(s) == t by {
      assert |ReplaceComma(s)| == |t|;
      forall i | 0 <= i < |s|
        ensures ReplaceComma(s)[i] == t[i]
      {
        if i < |a| {
          assert s[i] == a[i] && t[i] == a[i];
        } else if i > |a| {
          assert s[i] == b[i - |a| - 1] && t[i] == b[i - |a| - 1];
        }
      }
    }
  }

  // ---------------------------------------------------------------------------------------
  // Duplicate check in `sku_create`

  /** `'insumo' < 'piece'` as Python compares the two strings. */
  datatype Kind = Insumo | Piece

  /** A signature tuple `(kind, detalhe_id, material_id, cor_id, quantidade)`. */
  datatype Sig = Sig(kind: Kind, detalhe: Option<nat>, material: nat, cor: Option<nat>, qty: real)

  /**
   * Python's `a < b` on two signature tuples: the first position where they differ decides;
   * `None` where that position compares `None` with an integer, which raises TypeError.
   */
  function PyLess(a: Sig, b: Sig): Option<bool> {
    if a.kind != b.kind then Some(a.kind == Insumo && b.kind == Piece)
    else if a.detalhe != b.detalhe then
      if a.detalhe.Some? && b.detalhe.Some? then Some(a.detalhe.value < b.detalhe.value) else None
    else if a.material != b.material then Some(a.material < b.material)
    else if a.cor != b.cor then
      if a.cor.Some? && b.cor.Some? then Some(a.cor.value < b.cor.value) else None
    else Some(a.qty < b.qty)
  }

  /** `None` before any integer: the total order the duplicate test needs. */
  predicate OptLess(a: Option<nat>, b: Option<nat>) {
    (a.None? && b.Some?) || (a.Some? && b.Some? && a.value < b.value)
  }

  /** Signatures compared position by position, with a missing id before any id. */
  predicate SigLe(a: Sig, b: Sig) {
    if a.kind != b.kind then a.kind == Insumo
    else if a.detalhe != b.detalhe then OptLess(a.detalhe, b.detalhe)
    else if a.material != b.material then a.material < b.material
    else if a.cor != b.cor then OptLess(a.cor, b.cor)
    else a.qty <= b.qty
  }

  /** Wherever Python's comparison is defined, it is the strict part of this order. */
  lemma PyLessAgrees(a: Sig, b: Sig)
    requires PyLess(a, b).Some?
    ensures PyLess(a, b).value <==> SigLe(a, b) && a != b
  {
  }

  /** The order is total, transitive and antisymmetric. */
  lemma SigOrder()
    ensures Total(SigLe) && Transitive(SigLe) && Antisymmetric(SigLe)
  {
    forall a: Sig, b: Sig, c: Sig | SigLe(a, b) && SigLe(b, c)
      ensures SigLe(a, c)
    {
      SigLeTransitive(a, b, c);
    }
  }

  lemma SigLeTransitive(a: Sig, b: Sig, c: Sig)
    requires SigLe(a, b) && SigLe(b, c)
    ensures SigLe(a, c)
  {
    if a.kind == b.kind && b.kind == c.kind && a.detalhe == b.detalhe && b.detalhe == c.detalhe {
      if a.material == b.material && b.material == c.material {
        assert a.cor != c.cor ==> OptLess(a.cor, c.cor);
      }
    }
  }

  /** `proposed_signature.sort()` with the total order. */
  function SortSig(s: seq<Sig>): seq<Sig> {
    SortBy(SigLe, s)
  }

  /**
   * The signature comparison is multiset equality: the sorted lists agree exactly when the
   * two signatures hold the same tuples the same number of times, in whatever order.
   */
  lemma SignatureEqualIffSameTuples(a: seq<Sig>, b: seq<Sig>)
    ensures SortSig(a) == SortSig(b) <==> multiset(a) == multiset(b)
  {
    SigOrder();
    SortedEqualIffPermutation(SigLe, a, b);
  }

  /**
   * The sibling loop of `sku_create`: the first sibling whose sorted signature equals the
   * proposed one, if any.
   */
  method FindDuplicate(proposed: seq<Sig>, siblings: seq<seq<Sig>>) returns (found: Option<nat>)
    ensures found.None? <==> forall i :: 0 <= i < |siblings| ==> multiset(siblings[i]) != multiset(proposed)
    ensures found.Some? ==> found.value < |siblings| && multiset(siblings[found.value]) == multiset(proposed)
                            && forall i :: 0 <= i < found.value ==> multiset(siblings[i]) != multiset(proposed)
  {
    var proposedSorted := SortSig(proposed);
    found := None;
    var i := 0;
    while i < |siblings|
      invariant 0 <= i <= |siblings|
      invariant forall k :: 0 <= k < i ==> multiset(siblings[k]) != multiset(proposed)
    {
      var sibSorted := SortSig(siblings[i]);
      SignatureEqualIffSameTuples(proposed, siblings[i]);
      if proposedSorted == sibSorted {
        found := Some(i);
        return;
      }
      i := i + 1;
    }
  }

  /** Reordering the proposed tuples never changes the verdict. */
  lemma DuplicateOrderFree(p: seq<Sig>, q: seq<Sig>, sib: seq<Sig>)
    requires multiset(p) == multiset(q)
    ensures SortSig(p) == SortSig(sib) <==> SortSig(q) == SortSig(sib)
  {
    SignatureEqualIffSameTuples(p, sib);
    SignatureEqualIffSameTuples(q, sib);
  }

  /**
   * Two insumos of the same material and quantity, one with a colour and one without: the
   * comparison Python's sort makes between them raises TypeError.
   */
  lemma MixedColourRaises()
    ensures PyLess(Sig(Insumo, None, 7, None, 1.0), Sig(Insumo, None, 7, Some(3), 1.0)).None?
    ensures PyLess(Sig(Insumo, None, 7, Some(3), 1.0), Sig(Insumo, None, 7, None, 1.0)).None?
    ensures SortSig([Sig(Insumo, None, 7, Some(3), 1.0), Sig(Insumo, None, 7, None, 1.0)])
            == [Sig(Insumo, None, 7, None, 1.0), Sig(Insumo, None, 7, Some(3), 1.0)]
  {
    var x := Sig(Insumo, None, 7, Some(3), 1.0);
    var y := Sig(Insumo, None, 7, None, 1.0);
    assert [x, y][..1] == [x];
    assert [x][..0] == [];
    assert SortBy(SigLe, [x]) == InsertBy(SigLe, x, []) == [x];
    assert !SigLe(x, y);
    assert SortBy(SigLe, [x, y]) == InsertBy(SigLe, y, [x]) == [y, x];
  }
}
