/**
 * The row-yield estimate of fabric length both material calculators use for a cut piece:
 * pieces are laid in rows across the roll, as many per row as the roll width holds (at
 * least one), and the length is the number of rows times the piece's extent along the
 * roll; unless the piece's rotation is fixed, the better of the two orientations is taken.
 */
module FabricYield {
  import opened Wrappers
  import opened Geometry

  /** The roll width assumed when the material has none (or 0). */
  const DefaultWidthMm: int := 1500

  /** `largura_padrao_mm if largura_padrao_mm else 1500` */
  function RollWidth(larguraPadraoMm: Option<int>): (w: int)
    ensures larguraPadraoMm.Some? && larguraPadraoMm.value != 0 ==> w == larguraPadraoMm.value
    ensures larguraPadraoMm.None? || larguraPadraoMm.value == 0 ==> w == DefaultWidthMm
  {
    if larguraPadraoMm.Some? && larguraPadraoMm.value != 0 then larguraPadraoMm.value else DefaultWidthMm
  }

  /** `qtd_padrao if qtd_padrao else 1` pieces per product, times the ordered quantity. */
  function TotalPieces(itemQty: int, qtdPadrao: int): (t: int)
    ensures qtdPadrao != 0 ==> t == itemQty * qtdPadrao
    ensures qtdPadrao == 0 ==> t == itemQty
  {
    itemQty * (if qtdPadrao != 0 then qtdPadrao else 1)
  }

  /** `int(width // side)`, raised to 1 when smaller: the pieces one row across the roll holds. */
  function FitsPerRow(width: int, side: real): (f: int)
    requires side != 0.0
    ensures f >= 1
    ensures f >= (width as real / side).Floor
    ensures f == 1 || f == (width as real / side).Floor
  {
    var fits := (width as real / side).Floor;
    if fits < 1 then 1 else fits
  }

  /** `math.ceil(a / b)` for a positive integer divisor. */
  function CeilDiv(a: int, b: int): int
    requires b > 0
  {
    (a + b - 1) / b
  }

  /** The ceiling is the least number of rows of b that holds a pieces. */
  lemma CeilDivLeast(a: int, b: int)
    requires b > 0
    ensures CeilDiv(a, b) * b >= a
    ensures (CeilDiv(a, b) - 1) * b < a
  {
    var q := (a + b - 1) / b;
    var r := (a + b - 1) % b;
    assert a + b - 1 == q * b + r && 0 <= r < b;
    assert q * b - b == (q - 1) * b;
  }

  /** Any number of rows that holds all pieces is at least the ceiling. */
  lemma CeilDivMinimal(a: int, b: int, rows: int)
    requires b > 0 && rows * b >= a
    ensures rows >= CeilDiv(a, b)
  {
    CeilDivLeast(a, b);
    var c := CeilDiv(a, b);
    var d := rows - c + 1;
    assert d * b == rows * b - (c - 1) * b;
    assert d * b > 0;
    PositiveFactor(d, b);
  }

  lemma PositiveFactor(d: int, b: int)
    requires b > 0 && d * b > 0
    ensures d > 0
  {
    assert d <= 0 ==> d * b <= 0;
  }

  /** Integer division by a positive divisor is monotone. */
  lemma DivMonotone(a: int, b: int, f: int)
    requires f > 0 && a <= b
    ensures a / f <= b / f
  {
    var qa, qb := a / f, b / f;
    assert qa * f <= a;
    assert b < qb * f + f;
    assert (qa - qb) * f < f;
    assert qa - qb >= 1 ==> (qa - qb) * f >= f;
  }

  /** Rows of pieces oriented with `across` across the roll, times `along` per row. */
  function OrientedLength(width: int, across: real, along: real, total: int): real
    requires across != 0.0
  {
    CeilDiv(total, FitsPerRow(width, across)) as real * along
  }

  /** The divisions the estimate performs are defined (Python raises ZeroDivisionError otherwise). */
  predicate Defined(w: real, h: real, fixed: bool) {
    w != 0.0 && (fixed || h != 0.0)
  }

  /**
   * The estimated length of roll for `total` pieces with bounding box w × h: the normal
   * orientation, and, when rotation is allowed, the smaller of it and the rotated one.
   */
  function LinearMm(width: int, w: real, h: real, total: int, fixed: bool): (len: real)
    requires Defined(w, h, fixed)
    ensures len <= OrientedLength(width, w, h, total)
    ensures fixed ==> len == OrientedLength(width, w, h, total)
    ensures !fixed ==> len <= OrientedLength(width, h, w, total)
    ensures !fixed ==> len == OrientedLength(width, w, h, total) || len == OrientedLength(width, h, w, total)
  {
    var totalNormal := OrientedLength(width, w, h, total);
    if fixed then totalNormal
    else
      var totalRotated := OrientedLength(width, h, w, total);
      if totalNormal <= totalRotated then totalNormal else totalRotated
  }

  /**
   * Enough rows and no row too many: the normal orientation uses the least number of rows
   * that holds every piece at the per-row fit.
   */
  lemma RowsSuffice(width: int, w: real, total: int)
    requires w != 0.0
    ensures var fits := FitsPerRow(width, w);
            var rows := CeilDiv(total, fits);
            rows * fits >= total && (rows - 1) * fits < total
  {
    CeilDivLeast(total, FitsPerRow(width, w));
  }

  /** More pieces never need a shorter length, for a positive extent along the roll. */
  lemma MorePiecesNoShorter(width: int, across: real, along: real, t1: int, t2: int)
    requires across != 0.0 && along > 0.0 && t1 <= t2
    ensures OrientedLength(width, across, along, t1) <= OrientedLength(width, across, along, t2)
  {
    var f := FitsPerRow(width, across);
    var r1, r2 := CeilDiv(t1, f), CeilDiv(t2, f);
    DivMonotone(t1 + f - 1, t2 + f - 1, f);
    assert r1 as real <= r2 as real;
  }

  /**
   * A 200 × 100 piece, 60 of them, on the default 1500 mm roll: 7 per row in 9 rows give
   * 900 mm, 15 per row rotated in 4 rows give 800 mm, and 800 mm is the estimate.
   */
  lemma Example200x100()
    ensures LinearMm(DefaultWidthMm, 200.0, 100.0, 60, false) == 800.0
    ensures LinearMm(DefaultWidthMm, 200.0, 100.0, 60, true) == 900.0
  {
    assert (1500 as real / 200.0).Floor == 7;
    assert (1500 as real / 100.0).Floor == 15;
    assert CeilDiv(60, 7) == 9;
    assert CeilDiv(60, 15) == 4;
  }

  /** A piece row's cut data: the stored geometry, pieces per product and the fixed-rotation flag. */
  datatype CutPiece = CutPiece(geometria: Geom, qtdPadrao: int, rotacaoFixa: bool)

  /** The length of roll one configured piece needs for an item of `itemQty` products. */
  function PieceLength(width: int, p: CutPiece, itemQty: int): real
    requires Defined(BBox(p.geometria).0, BBox(p.geometria).1, p.rotacaoFixa)
  {
    var wh := BBox(p.geometria);
    LinearMm(width, wh.0, wh.1, TotalPieces(itemQty, p.qtdPadrao), p.rotacaoFixa) * 1.00
  }

  /** The bounding box the estimate uses for a rect, a circle, and an unknown type or empty polygon. */
  lemma BBoxShapes(g: Geom)
    ensures g.tipo == Some("rect") ==> BBox(g) == (2.0 * g.halfW.GetOr(0.0), 2.0 * g.halfH.GetOr(0.0))
    ensures g.tipo == Some("circle") ==> BBox(g) == (2.0 * g.radius.GetOr(0.0), 2.0 * g.radius.GetOr(0.0))
    ensures g.tipo == Some("poly") && g.pts.GetOr([]) != [] ==>
              BBox(g) == (Extent(Xs(g.pts.value)), Extent(Ys(g.pts.value)))
    ensures (g.tipo.GetOr("unknown") !in {"rect", "circle", "poly"} || (g.tipo == Some("poly") && g.pts.GetOr([]) == []))
              ==> BBox(g) == (0.0, 0.0)
  {
  }

  /** A bounding box with a zero side is rejected: such a piece cannot be estimated. */
  lemma UnknownTypeUndefined(g: Geom, fixed: bool)
    requires g.tipo.None?
    ensures !Defined(BBox(g).0, BBox(g).1, fixed)
  {
  }
}
