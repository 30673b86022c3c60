/**
 * `process_molde_json`: loads a mold's pattern data (a `.mld` container, or plain JSON as a
 * fallback), and replaces the mold's `MoldeDetalhe` rows with one row per JSON piece, each
 * carrying its area, its pre-rotation bounding box, its fixed-rotation flag and its
 * (possibly rotated) geometry.
 */
module MoldeImporter {
  import opened Wrappers
  import opened Json
  import opened Text
  import opened Geometry
  import opened MldReader

  /**
   * One entry of the JSON `pieces` list, as the importer reads it with `p_data.get(...)`;
   * `None` is an absent key. The flags stay JSON values because the code tests them with
   * `is False`, `is True` and truthiness.
   */
  datatype PieceSpec = PieceSpec(
    name: Option<string>,
    qty: Option<int>,
    areaMm2: Option<real>,
    geom: Option<Geom>,
    canRotate: Option<Json>,
    fixedRotation: Option<Json>,
    autoOrient: Option<Json>,
    grainAxis: Option<Json>,
    grain: Option<Json>)

  /** A `MoldeDetalhe` row. */
  datatype Detail = Detail(
    molde: nat,
    nomeOriginal: string,
    tipoGeom: string,
    areaBaseMm2: real,
    larguraMm: real,
    alturaMm: real,
    qtdPadrao: int,
    rotacaoFixa: bool,
    orientacaoFio: Json,
    geometria: Geom)

  datatype ImportError =
    | NameError         // the undefined `thumb_bytes` after a successful container read
    | AttributeError    // `.get` on something that is not a dictionary
    | TypeError         // iterating a `pieces` value that is not iterable
    | ConversionError   // a piece whose fields cannot be converted (for example `float(...)`)
    | LoadError         // the re-read by path fails: the file is missing, not UTF-8, or not JSON

  function GeomOf(p: PieceSpec): Geom {
    p.geom.GetOr(EmptyGeom)
  }

  function TipoOf(p: PieceSpec): string {
    GeomOf(p).tipo.GetOr("unknown")
  }

  function SuppliedArea(p: PieceSpec): real {
    p.areaMm2.GetOr(0.0)
  }

  /** The fallback area by geometry type: rect, circle, non-empty polygon, else 0. */
  function ComputedArea(g: Geom): real {
    match g.tipo.GetOr("unknown")
    case "rect" => (g.halfW.GetOr(0.0) * 2.0) * (g.halfH.GetOr(0.0) * 2.0)
    case "circle" => Pi * (g.radius.GetOr(0.0) * g.radius.GetOr(0.0))
    case "poly" => if g.pts.GetOr([]) != [] then ShoelaceArea(g.pts.GetOr([])) else 0.0
    case _ => 0.0
  }

  /** The stored area: a nonzero JSON `area_mm2` wins over the computed one. */
  function Area(p: PieceSpec): real {
    if SuppliedArea(p) == 0.0 then ComputedArea(GeomOf(p)) else SuppliedArea(p)
  }

  /**
   * The pieces for which `w_current`/`h_current` are assigned before they are read:
   * a supplied area, or a rect, a circle or a non-empty polygon.
   */
  predicate DimsBound(p: PieceSpec) {
    SuppliedArea(p) != 0.0 || TipoOf(p) == "rect" || TipoOf(p) == "circle"
    || (TipoOf(p) == "poly" && GeomOf(p).pts.GetOr([]) != [])
  }

  /** `(w_current, h_current)`: the 100 x 100 placeholder for a supplied area, else the box. */
  function Dims(p: PieceSpec): (real, real)
    requires DimsBound(p)
  {
    if SuppliedArea(p) != 0.0 then (100.0, 100.0) else BBox(GeomOf(p))
  }

  /** `p_data.get('grainAxis', p_data.get('grain', 'y'))` */
  function GrainAxis(p: PieceSpec): Json {
    match p.grainAxis
    case Some(g) => g
    case None => p.grain.GetOr(JStr("y"))
  }

  /**
   * `str(grain_axis).lower() in ['x', 'h', 'horizontal']`. Only a JSON string can render to
   * one of those three words (`str` of a number, boolean, null, list or object never does).
   */
  predicate GrainHorizontal(g: Json) {
    g.JStr? && (Lower(g.s) == "x" || Lower(g.s) == "h" || Lower(g.s) == "horizontal")
  }

  /**
   * The rotate-90 decision: auto-orient on a piece whose final area is still 0 and whose
   * box is wider than tall, or a horizontal grain axis.
   */
  predicate ShouldRotate(p: PieceSpec)
    requires DimsBound(p)
  {
    (Area(p) == 0.0 && Truthy(p.autoOrient.GetOr(JBool(false))) && Dims(p).0 > Dims(p).1)
    || GrainHorizontal(GrainAxis(p))
  }

  /**
   * The pieces the importer handles without reading a stale `hw`/`hh`: a rect whose area
   * was supplied never has its halves read in that run, so it must not be rotated.
   */
  predicate LocalsBound(p: PieceSpec) {
    DimsBound(p) && !(TipoOf(p) == "rect" && SuppliedArea(p) != 0.0 && ShouldRotate(p))
  }

  predicate AllBound(pieces: seq<PieceSpec>) {
    forall k :: 0 <= k < |pieces| ==> LocalsBound(pieces[k])
  }

  /** The geometry transform: rect halves swap, polygon points rotate, anything else stays. */
  function RotateGeom(g: Geom): Geom {
    match g.tipo.GetOr("unknown")
    case "rect" => g.(halfW := Some(g.halfH.GetOr(0.0)), halfH := Some(g.halfW.GetOr(0.0)))
    case "poly" => g.(pts := Some(Rotate90(g.pts.GetOr([]))))
    case _ => g
  }

  function FinalGeom(p: PieceSpec): Geom
    requires DimsBound(p)
  {
    if ShouldRotate(p) then RotateGeom(GeomOf(p)) else GeomOf(p)
  }

  /** `rotacao_fixa`: `canRotate is False`, or `fixedRotation is True`, or rotated here. */
  predicate IsFixed(p: PieceSpec)
    requires DimsBound(p)
  {
    p.canRotate == Some(JBool(false)) || p.fixedRotation == Some(JBool(true)) || ShouldRotate(p)
  }

  /** The row created for one piece. */
  function ToDetail(molde: nat, p: PieceSpec): Detail
    requires DimsBound(p)
  {
    Detail(molde, p.name.GetOr("Peca Sem Nome"), TipoOf(p), Area(p), Dims(p).0, Dims(p).1,
           p.qty.GetOr(1), IsFixed(p), GrainAxis(p), FinalGeom(p))
  }

  /** The importer's shoelace loop: one accumulator, closing edge through `(i + 1) % n`. */
  method ShoelaceAccumulate(pts: seq<Point>) returns (acc: real)
    ensures acc == CrossSum(pts, |pts|)
  {
    acc := 0.0;
    var n := |pts|;
    for i := 0 to n
      invariant acc == CrossSum(pts, i)
    {
      var j := (i + 1) % n;
      acc := acc + pts[i].x * pts[j].y;
      acc := acc - pts[j].x * pts[i].y;
    }
  }

  /** `float('inf')` or a finite running minimum. */
  datatype Bound = Infinity | Finite(v: real)

  predicate Below(x: real, b: Bound) {
    b.Infinity? || x < b.v
  }

  function MinBound(s: seq<real>): Bound {
    if s == [] then Infinity else Finite(Min(s))
  }

  lemma MinBoundStep(s: seq<real>, x: real)
    ensures MinBound(s + [x]) == if Below(x, MinBound(s)) then Finite(x) else MinBound(s)
  {
    if s != [] {
      assert (s + [x])[..|s|] == s;
    }
  }

  lemma MinBoundPrefix(s: seq<real>, i: nat)
    requires i < |s|
    ensures MinBound(s[..i + 1]) == if Below(s[i], MinBound(s[..i])) then Finite(s[i]) else MinBound(s[..i])
  {
    assert s[..i + 1] == s[..i] + [s[i]];
    MinBoundStep(s[..i], s[i]);
  }

  /** The rotation loop: the rotated points, with the running minimum of each coordinate. */
  method RotateTrackingMin(pts: seq<Point>) returns (newPts: array<Point>, minX: Bound, minY: Bound)
    ensures fresh(newPts)
    ensures newPts[..] == Rotated(pts)
    ensures minX == MinBound(Xs(Rotated(pts))) && minY == MinBound(Ys(Rotated(pts)))
  {
    newPts := new Point[|pts|](_ => Point(0.0, 0.0));
    minX, minY := Infinity, Infinity;
    ghost var rot := Rotated(pts);
    ghost var xs, ys := Xs(rot), Ys(rot);
    for i := 0 to |pts|
      invariant newPts[..i] == rot[..i]
      invariant minX == MinBound(xs[..i]) && minY == MinBound(ys[..i])
    {
      var nx := pts[i].y;
      var ny := -pts[i].x;
      assert rot[i] == Point(nx, ny) && xs[i] == nx && ys[i] == ny;
      assert rot[..i + 1] == rot[..i] + [rot[i]];
      newPts[i] := Point(nx, ny);
      assert newPts[..i + 1] == newPts[..i] + [newPts[i]];
      MinBoundPrefix(xs, i);
      MinBoundPrefix(ys, i);
      if Below(nx, minX) { minX := Finite(nx); }
      if Below(ny, minY) { minY := Finite(ny); }
    }
    assert xs[..|pts|] == xs && ys[..|pts|] == ys;
    assert newPts[..] == newPts[..|pts|] && rot[..|pts|] == rot;
  }

  /** The normalisation loop: shift every point in place by (dx, dy). */
  method ShiftInPlace(a: array<Point>, dx: real, dy: real)
    modifies a
    ensures a[..] == Shift(old(a[..]), dx, dy)
  {
    for i := 0 to a.Length
      invariant forall k :: 0 <= k < i ==> a[k] == Point(old(a[k]).x - dx, old(a[k]).y - dy)
      invariant forall k :: i <= k < a.Length ==> a[k] == old(a[k])
    {
      a[i] := Point(a[i].x - dx, a[i].y - dy);
    }
  }

  /** Rotate every point, then normalise: the result is `Rotate90` of the input. */
  method RotatePoints(pts: seq<Point>) returns (newPts: array<Point>)
    ensures fresh(newPts)
    ensures newPts[..] == Rotate90(pts)
  {
    var minX, minY;
    newPts, minX, minY := RotateTrackingMin(pts);
    if pts == [] {
      return;
    }
    ShiftInPlace(newPts, minX.v, minY.v);
  }

  /**
   * The area-and-box block of the piece loop: the stored area and `(w_current, h_current)`.
   * Python leaves these locals unbound on some paths; the ghost flags record where they
   * are assigned, and the precondition guarantees that the box is. The halves `hw`/`hh`
   * are assigned only for a rect without a supplied area (`halvesSet`).
   */
  method MeasurePiece(p: PieceSpec) returns (area: real, wCur: real, hCur: real, hw: real, hh: real, ghost halvesSet: bool)
    requires DimsBound(p)
    ensures area == Area(p) && (wCur, hCur) == Dims(p)
    ensures halvesSet <==> SuppliedArea(p) == 0.0 && TipoOf(p) == "rect"
    ensures halvesSet ==> hw == GeomOf(p).halfW.GetOr(0.0) && hh == GeomOf(p).halfH.GetOr(0.0)
  {
    var geom := GeomOf(p);
    var tipo := geom.tipo.GetOr("unknown");
    area := p.areaMm2.GetOr(0.0);
    wCur, hCur, hw, hh := 0.0, 0.0, 0.0, 0.0;
    ghost var dimsSet := false;
    halvesSet := false;
    if area == 0.0 {
      if tipo == "rect" {
        hw := geom.halfW.GetOr(0.0);
        hh := geom.halfH.GetOr(0.0);
        area := (hw * 2.0) * (hh * 2.0);
        wCur, hCur := hw * 2.0, hh * 2.0;
        dimsSet, halvesSet := true, true;
      } else if tipo == "circle" {
        var r := geom.radius.GetOr(0.0);
        area := Pi * (r * r);
        wCur, hCur := r * 2.0, r * 2.0;
        dimsSet := true;
      } else if tipo == "poly" {
        var pts := geom.pts.GetOr([]);
        if pts != [] {
          wCur, hCur := Extent(Xs(pts)), Extent(Ys(pts));
          dimsSet := true;
          var acc := ShoelaceAccumulate(pts);
          area := Abs(acc) / 2.0;
        } else {
          area := 0.0;
        }
      }
    } else {
      wCur, hCur := 100.0, 100.0;
      dimsSet := true;
    }
    assert dimsSet;
  }

  /**
   * One iteration of the importer's piece loop: area, box, rotation decision and transform,
   * fixed flag, and the row it creates.
   */
  method ProcessPiece(molde: nat, p: PieceSpec) returns (d: Detail)
    requires LocalsBound(p)
    ensures d == ToDetail(molde, p)
  {
    var geom := GeomOf(p);
    var tipo := geom.tipo.GetOr("unknown");
    ghost var halvesSet: bool;
    var area, wCur, hCur, hw, hh;
    area, wCur, hCur, hw, hh, halvesSet := MeasurePiece(p);

    var canRotate := p.canRotate.GetOr(JBool(true));
    var fixedRot := p.fixedRotation.GetOr(JBool(false));
    var autoOrient := p.autoOrient.GetOr(JBool(false));
    var grainAxis := GrainAxis(p);

    var shouldRotate := false;
    if area == 0.0 && Truthy(autoOrient) {
      if wCur > hCur {
        shouldRotate := true;
      }
    }
    if GrainHorizontal(grainAxis) {
      shouldRotate := true;
    }
    assert shouldRotate == ShouldRotate(p);

    if shouldRotate {
      if tipo == "rect" {
        assert halvesSet;
        geom := geom.(halfW := Some(hh), halfH := Some(hw));
      } else if tipo == "poly" {
        var newPts := RotatePoints(geom.pts.GetOr([]));
        geom := geom.(pts := Some(newPts[..]));
      }
      fixedRot := JBool(true);
    }

    var isFixed := false;
    if canRotate == JBool(false) { isFixed := true; }
    if fixedRot == JBool(true) { isFixed := true; }

    d := Detail(molde, p.name.GetOr("Peca Sem Nome"), tipo, area, wCur, hCur,
                p.qty.GetOr(1), isFixed, grainAxis, geom);
  }

  /** The rows of one mold, in table order. */
  function RowsOf(rows: seq<Detail>, molde: nat): (r: seq<Detail>)
    ensures forall k :: 0 <= k < |r| ==> r[k].molde == molde
  {
    if rows == [] then []
    else (if rows[0].molde == molde then [rows[0]] else []) + RowsOf(rows[1..], molde)
  }

  /** The table after `molde.detalhes.all().delete()`. */
  function WithoutMolde(rows: seq<Detail>, molde: nat): (r: seq<Detail>)
    ensures forall k :: 0 <= k < |r| ==> r[k].molde != molde
  {
    if rows == [] then []
    else (if rows[0].molde != molde then [rows[0]] else []) + WithoutMolde(rows[1..], molde)
  }

  function Details(molde: nat, pieces: seq<PieceSpec>): (ds: seq<Detail>)
    requires AllBound(pieces)
    ensures |ds| == |pieces|
    ensures forall k :: 0 <= k < |pieces| ==> ds[k] == ToDetail(molde, pieces[k])
  {
    if pieces == [] then [] else Details(molde, pieces[..|pieces| - 1]) + [ToDetail(molde, pieces[|pieces| - 1])]
  }

  lemma {:induction false} RowsOfAppend(a: seq<Detail>, b: seq<Detail>, molde: nat)
    ensures RowsOf(a + b, molde) == RowsOf(a, molde) + RowsOf(b, molde)
  {
    if a != [] {
      var head := if a[0].molde == molde then [a[0]] else [];
      calc {
        RowsOf(a + b, molde);
        { assert (a + b)[0] == a[0]; assert (a + b)[1..] == a[1..] + b; }
        head + RowsOf(a[1..] + b, molde);
        { RowsOfAppend(a[1..], b, molde); }
        head + (RowsOf(a[1..], molde) + RowsOf(b, molde));
        (head + RowsOf(a[1..], molde)) + RowsOf(b, molde);
      }
    } else {
      assert a + b == b;
    }
  }

  lemma {:induction false} RowsOfAll(rows: seq<Detail>, molde: nat)
    requires forall k :: 0 <= k < |rows| ==> rows[k].molde == molde
    ensures RowsOf(rows, molde) == rows
  {
    if rows != [] {
      RowsOfAll(rows[1..], molde);
    }
  }

  lemma {:induction false} RowsOfNone(rows: seq<Detail>, molde: nat)
    requires forall k :: 0 <= k < |rows| ==> rows[k].molde != molde
    ensures RowsOf(rows, molde) == []
  {
    if rows != [] {
      RowsOfNone(rows[1..], molde);
    }
  }

  lemma {:induction false} RowsOfWithout(rows: seq<Detail>, molde: nat, other: nat)
    requires other != molde
    ensures RowsOf(WithoutMolde(rows, molde), other) == RowsOf(rows, other)
  {
    if rows != [] {
      var head := if rows[0].molde != molde then [rows[0]] else [];
      assert WithoutMolde(rows, molde) == head + WithoutMolde(rows[1..], molde);
      RowsOfAppend(head, WithoutMolde(rows[1..], molde), other);
      RowsOfWithout(rows[1..], molde, other);
      if rows[0].molde != molde {
        assert RowsOf(head, other) == (if rows[0].molde == other then [rows[0]] else []) by {
          assert head[1..] == [];
        }
      }
    }
  }

  /**
   * After a full replace, the mold's rows are exactly one per piece, in piece order, and
   * every other mold's rows are what they were.
   */
  lemma ReplaceIsExact(rows: seq<Detail>, molde: nat, pieces: seq<PieceSpec>, other: nat)
    requires AllBound(pieces)
    ensures RowsOf(WithoutMolde(rows, molde) + Details(molde, pieces), molde) == Details(molde, pieces)
    ensures other != molde ==>
      RowsOf(WithoutMolde(rows, molde) + Details(molde, pieces), other) == RowsOf(rows, other)
  {
    var ds := Details(molde, pieces);
    RowsOfAppend(WithoutMolde(rows, molde), ds, molde);
    RowsOfNone(WithoutMolde(rows, molde), molde);
    RowsOfAll(ds, molde);
    if other != molde {
      RowsOfAppend(WithoutMolde(rows, molde), ds, other);
      RowsOfNone(ds, other);
      RowsOfWithout(rows, molde, other);
    }
  }

  /**
   * `data.get('pieces', [])` and what iterating it yields: the list's entries; an empty
   * dictionary or string yields nothing, a non-empty one yields strings (which have no
   * `.get`), and anything else is not iterable.
   */
  function PieceItems(data: Json): Result<seq<Json>, ImportError> {
    if !data.JObj? then Err(AttributeError)
    else
      var pieces := if "pieces" in data.fields then data.fields["pieces"] else JArr([]);
      match pieces
      case JArr(items) => Ok(items)
      case JObj(f) => if f == map[] then Ok([]) else Err(AttributeError)
      case JStr(s) => if s == [] then Ok([]) else Err(AttributeError)
      case _ => Err(TypeError)
  }

  /** Reading one entry with `p_data.get(...)`, the field conversions being an oracle. */
  function Convert(item: Json, extract: map<string, Json> -> Option<PieceSpec>): Result<PieceSpec, ImportError> {
    if !item.JObj? then Err(AttributeError)
    else match extract(item.fields)
      case None => Err(ConversionError)
      case Some(p) => Ok(p)
  }

  /** All entries converted, or the first entry's failure. */
  function ExtractAll(items: seq<Json>, extract: map<string, Json> -> Option<PieceSpec>)
    : (r: Result<seq<PieceSpec>, ImportError>)
    ensures r.Ok? ==> |r.value| == |items|
    ensures r.Ok? ==> forall k :: 0 <= k < |items| ==> Convert(items[k], extract) == Ok(r.value[k])
  {
    if items == [] then Ok([])
    else
      match Convert(items[0], extract)
      case Err(e) => Err(e)
      case Ok(p) =>
        match ExtractAll(items[1..], extract)
        case Err(e) => Err(e)
        case Ok(rest) => Ok([p] + rest)
  }

  /** The pieces of a mold's data, or the error the importer stops on. */
  function PiecesOf(data: Json, extract: map<string, Json> -> Option<PieceSpec>)
    : Result<seq<PieceSpec>, ImportError>
  {
    match PieceItems(data)
    case Err(e) => Err(e)
    case Ok(items) => ExtractAll(items, extract)
  }

  /** The plain-JSON fallback: whole stream, UTF-8, `json.loads`; any failure leaves `{}`. */
  function PlainJson(s: seq<Byte>, utf8: seq<Byte> -> Option<string>, parse: string -> Option<Json>): Json {
    match utf8(s)
    case None => EmptyObject
    case Some(text) => parse(text).GetOr(EmptyObject)
  }

  /**
   * The source loading as written: a successful container read goes on to test the
   * undefined name `thumb_bytes`, whose NameError is not caught by the fallback handler.
   */
  function SourceDataAsWritten(s: seq<Byte>, utf8: seq<Byte> -> Option<string>, parse: string -> Option<Json>)
    : Result<Json, ImportError>
  {
    match ParseMld(s, utf8, parse)
    case Ok(_) => Err(NameError)
    case Err(_) => Ok(PlainJson(s, utf8, parse))
  }

  /**
   * The source loading as intended: a container's JSON payload, else (any `ValueError`,
   * including a payload that is not UTF-8) the whole stream as plain JSON.
   */
  function SourceData(s: seq<Byte>, utf8: seq<Byte> -> Option<string>, parse: string -> Option<Json>): Json {
    match ParseMld(s, utf8, parse)
    case Ok(c) => c.data
    case Err(_) => PlainJson(s, utf8, parse)
  }

  /**
   * As written, every well-formed container whose payload is UTF-8 aborts the import with
   * a NameError, while the intended loading returns the container's JSON.
   */
  lemma ContainerImportFails(version: nat, thumbnail: seq<Byte>, payload: seq<Byte>,
                             utf8: seq<Byte> -> Option<string>, parse: string -> Option<Json>)
    requires version < U32Limit && |thumbnail| < U32Limit && |payload| < U32Limit
    requires utf8(payload).Some?
    ensures var s := Container(version, thumbnail, |payload|) + payload;
            SourceDataAsWritten(s, utf8, parse) == Err(NameError)
            && SourceData(s, utf8, parse) == parse(utf8(payload).value).GetOr(EmptyObject)
  {
    ParseContainer(version, thumbnail, |payload|, payload, utf8, parse);
    assert payload[..|payload|] == payload;
  }

  /** A stream that is not a container is read again from the start as plain JSON. */
  lemma NonContainerFallsBack(s: seq<Byte>, utf8: seq<Byte> -> Option<string>, parse: string -> Option<Json>)
    requires |s| >= 10 && s[..10] != Magic
    ensures SourceData(s, utf8, parse) == PlainJson(s, utf8, parse)
    ensures SourceDataAsWritten(s, utf8, parse) == Ok(PlainJson(s, utf8, parse))
  {
    BadHeaderReadsOnlyHeader(s, utf8, parse);
  }

  /** Loading the source (intended version): the reader, then on failure rewind and read all. */
  method LoadSource(f: Stream, utf8: seq<Byte> -> Option<string>, parse: string -> Option<Json>)
    returns (data: Json)
    modifies f
    ensures f.data == old(f.data)
    ensures data == SourceData(f.data, utf8, parse)
  {
    var content := ReadMldFile(f, utf8, parse);
    if content.Ok? {
      return content.value.data;
    }
    f.Rewind();
    var bytes := f.ReadAll();
    assert bytes == f.data;
    var text := utf8(bytes);
    if text.None? {
      return EmptyObject;
    }
    data := parse(text.value).GetOr(EmptyObject);
  }

  /**
   * The mould's stored file `molde.arquivo_json`, when it is set: its bytes, or `None` when
   * the file cannot be opened.
   */
  datatype StoredFile = StoredFile(contents: Option<seq<Byte>>)

  /** The bytes read first: the uploaded stream, else the stored file opened `'rb'`, if it opens. */
  function FirstSource(stream: Option<seq<Byte>>, stored: Option<StoredFile>): Option<seq<Byte>> {
    if stream.Some? then stream
    else if stored.Some? then stored.value.contents
    else None
  }

  /**
   * The re-read by path: `read_mld_file(path)` (whose success, unlike the first attempt,
   * reaches no undefined name), else `json.load` of the file as text, whose failures
   * propagate as the import's error.
   */
  function PathData(file: StoredFile, utf8: seq<Byte> -> Option<string>, parse: string -> Option<Json>)
    : Result<Json, ImportError>
  {
    match file.contents
    case None => Err(LoadError)
    case Some(b) =>
      match ParseMld(b, utf8, parse)
      case Ok(c) => Ok(c.data)
      case Err(_) =>
        match utf8(b)
        case None => Err(LoadError)
        case Some(text) =>
          match parse(text)
          case None => Err(LoadError)
          case Some(j) => Ok(j)
  }

  /**
   * The data `process_molde_json` goes on with (intended loading): the first source's data,
   * `{}` without one; when that is falsy and the mould has a stored file, the re-read by path.
   */
  function LoadData(stream: Option<seq<Byte>>, stored: Option<StoredFile>,
                    utf8: seq<Byte> -> Option<string>, parse: string -> Option<Json>)
    : Result<Json, ImportError>
  {
    var first := match FirstSource(stream, stored)
                 case None => EmptyObject
                 case Some(b) => SourceData(b, utf8, parse);
    if !Truthy(first) && stored.Some? then PathData(stored.value, utf8, parse) else Ok(first)
  }

  /** The pieces an import yields, or the error that stops it before anything is deleted. */
  function ImportResult(stream: Option<seq<Byte>>, stored: Option<StoredFile>, utf8: seq<Byte> -> Option<string>,
                        parse: string -> Option<Json>, extract: map<string, Json> -> Option<PieceSpec>)
    : Result<seq<PieceSpec>, ImportError>
  {
    match LoadData(stream, stored, utf8, parse)
    case Err(e) => Err(e)
    case Ok(data) => PiecesOf(data, extract)
  }

  /** Without a stored file the loading never raises; with no stream either, it yields `{}`. */
  lemma NoStoredFileLoads(stream: Option<seq<Byte>>, utf8: seq<Byte> -> Option<string>, parse: string -> Option<Json>)
    ensures LoadData(stream, None, utf8, parse).Ok?
    ensures stream.None? ==> LoadData(stream, None, utf8, parse) == Ok(EmptyObject)
  {
  }

  /** A stored file that cannot be opened fails the import whenever the stream gave nothing. */
  lemma UnopenableStoredFileFails(stream: Option<seq<Byte>>, utf8: seq<Byte> -> Option<string>,
                                  parse: string -> Option<Json>, extract: map<string, Json> -> Option<PieceSpec>)
    requires stream.Some? ==> !Truthy(SourceData(stream.value, utf8, parse))
    ensures ImportResult(stream, Some(StoredFile(None)), utf8, parse, extract) == Err(LoadError)
  {
  }

  /**
   * A stored file that is neither a container nor UTF-8 (a truncated upload, say) fails the
   * import when the stream, if any, is no better: the pieces stay as they were.
   */
  lemma GarbageStoredFileFails(stream: Option<seq<Byte>>, b: seq<Byte>, utf8: seq<Byte> -> Option<string>,
                               parse: string -> Option<Json>, extract: map<string, Json> -> Option<PieceSpec>)
    requires stream.Some? ==> |stream.value| >= 10 && stream.value[..10] != Magic && utf8(stream.value).None?
    requires |b| >= 10 && b[..10] != Magic && utf8(b).None?
    ensures ImportResult(stream, Some(StoredFile(Some(b))), utf8, parse, extract) == Err(LoadError)
  {
    if stream.Some? {
      NonContainerFallsBack(stream.value, utf8, parse);
    }
    NonContainerFallsBack(b, utf8, parse);
    BadHeaderReadsOnlyHeader(b, utf8, parse);
  }

  /** A stored container is read by path even when its data came out falsy the first time. */
  lemma StoredContainerReread(version: nat, thumbnail: seq<Byte>, payload: seq<Byte>, text: string, j: Json,
                              utf8: seq<Byte> -> Option<string>, parse: string -> Option<Json>)
    requires version < U32Limit && |thumbnail| < U32Limit && |payload| < U32Limit
    requires utf8(payload) == Some(text) && parse(text) == Some(j)
    ensures var b := Container(version, thumbnail, |payload|) + payload;
            PathData(StoredFile(Some(b)), utf8, parse) == Ok(j)
  {
    ParseContainer(version, thumbnail, |payload|, payload, utf8, parse);
    assert payload[..|payload|] == payload;
  }

  /** The re-read by path: the reader on a fresh handle, then the whole file as JSON text. */
  method ReadStoredPath(file: StoredFile, utf8: seq<Byte> -> Option<string>, parse: string -> Option<Json>)
    returns (r: Result<Json, ImportError>)
    ensures r == PathData(file, utf8, parse)
  {
    if file.contents.None? {
      return Err(LoadError);
    }
    var bytes := file.contents.value;
    var g := new Stream(bytes, 0);
    var content := ReadMldFile(g, utf8, parse);
    if content.Ok? {
      return Ok(content.value.data);
    }
    var h := new Stream(bytes, 0);
    var all := h.ReadAll();
    var text := utf8(all);
    if text.None? {
      return Err(LoadError);
    }
    var j := parse(text.value);
    if j.None? {
      return Err(LoadError);
    }
    r := Ok(j.value);
  }

  /** Every piece the source yields can be processed without an unbound local. */
  predicate Importable(data: Json, extract: map<string, Json> -> Option<PieceSpec>) {
    PiecesOf(data, extract).Ok? ==> AllBound(PiecesOf(data, extract).value)
  }

  /** The `MoldeDetalhe` table. */
  class DetailTable {
    var rows: seq<Detail>

    constructor ()
      ensures rows == []
    {
      rows := [];
    }

    /** Delete the mold's rows, then create one row per piece, in order. */
    method ReplacePieces(molde: nat, pieces: seq<PieceSpec>)
      requires AllBound(pieces)
      modifies this
      ensures rows == WithoutMolde(old(rows), molde) + Details(molde, pieces)
    {
      rows := WithoutMolde(rows, molde);
      ghost var cleared := rows;
      for i := 0 to |pieces|
        invariant rows == cleared + Details(molde, pieces[..i])
      {
        var d := ProcessPiece(molde, pieces[i]);
        assert pieces[..i + 1][..i] == pieces[..i];
        rows := rows + [d];
      }
      assert pieces[..|pieces|] == pieces;
    }

    /**
     * `process_molde_json`: load the data (the stream, else the stored file; a falsy result is
     * re-read by path, whose failure raises), read its pieces and replace the mold's rows
     * inside one transaction, so any error leaves the table as it was.
     */
    method ProcessMoldeJson(molde: nat, f: Stream?, stored: Option<StoredFile>, utf8: seq<Byte> -> Option<string>,
                            parse: string -> Option<Json>, extract: map<string, Json> -> Option<PieceSpec>)
      returns (r: Result<seq<PieceSpec>, ImportError>)
      requires var loaded := LoadData(if f == null then None else Some(f.data), stored, utf8, parse);
               loaded.Ok? ==> Importable(loaded.value, extract)
      modifies this, f
      ensures r == ImportResult(if f == null then None else Some(old(f.data)), stored, utf8, parse, extract)
      ensures r.Ok? ==> rows == WithoutMolde(old(rows), molde) + Details(molde, r.value)
      ensures r.Err? ==> rows == old(rows)
    {
      var data := EmptyObject;
      if f != null {
        data := LoadSource(f, utf8, parse);
      } else if stored.Some? && stored.value.contents.Some? {
        var g := new Stream(stored.value.contents.value, 0);
        data := LoadSource(g, utf8, parse);
      }
      if !Truthy(data) && stored.Some? {
        var reread := ReadStoredPath(stored.value, utf8, parse);
        if reread.Err? {
          return Err(reread.error);
        }
        data := reread.value;
      }
      r := PiecesOf(data, extract);
      if r.Ok? {
        ReplacePieces(molde, r.value);
      }
    }
  }

  // ----- properties of the per-piece rules -----

  /** A rect without a supplied area: area (2·halfW)(2·halfH), box 2·halfW × 2·halfH. */
  lemma RectPiece(molde: nat, p: PieceSpec)
    requires SuppliedArea(p) == 0.0 && TipoOf(p) == "rect"
    ensures var d := ToDetail(molde, p); var g := GeomOf(p);
            d.areaBaseMm2 == (2.0 * g.halfW.GetOr(0.0)) * (2.0 * g.halfH.GetOr(0.0))
            && d.larguraMm == 2.0 * g.halfW.GetOr(0.0) && d.alturaMm == 2.0 * g.halfH.GetOr(0.0)
  {
  }

  /** A circle without a supplied area: area π·r², box 2r × 2r. */
  lemma CirclePiece(molde: nat, p: PieceSpec)
    requires SuppliedArea(p) == 0.0 && TipoOf(p) == "circle"
    ensures var d := ToDetail(molde, p); var r := GeomOf(p).radius.GetOr(0.0);
            d.areaBaseMm2 == Pi * r * r && d.larguraMm == 2.0 * r && d.alturaMm == 2.0 * r
  {
  }

  /**
   * A non-empty polygon without a supplied area: the box is the coordinate extents, the
   * area is the shoelace area, and one or two points give area 0.
   */
  lemma PolyPiece(molde: nat, p: PieceSpec)
    requires SuppliedArea(p) == 0.0 && TipoOf(p) == "poly" && GeomOf(p).pts.GetOr([]) != []
    ensures var d := ToDetail(molde, p); var pts := GeomOf(p).pts.GetOr([]);
            d.areaBaseMm2 == ShoelaceArea(pts)
            && d.larguraMm == Max(Xs(pts)) - Min(Xs(pts)) && d.alturaMm == Max(Ys(pts)) - Min(Ys(pts))
            && (|pts| <= 2 ==> d.areaBaseMm2 == 0.0)
  {
    var pts := GeomOf(p).pts.GetOr([]);
    if |pts| <= 2 {
      DegenerateShoelace(pts);
    }
  }

  /** A nonzero supplied area is stored unchanged, with the 100 × 100 placeholder box. */
  lemma SuppliedAreaKept(molde: nat, p: PieceSpec)
    requires SuppliedArea(p) != 0.0
    ensures var d := ToDetail(molde, p);
            d.areaBaseMm2 == SuppliedArea(p) && d.larguraMm == 100.0 && d.alturaMm == 100.0
  {
  }

  /**
   * Auto-orient looks at the final area, so a piece with nonzero area (supplied, or a rect
   * with positive sides) is rotated exactly when its grain axis is horizontal.
   */
  lemma AutoOrientNeedsZeroArea(p: PieceSpec)
    requires SuppliedArea(p) != 0.0
             || (TipoOf(p) == "rect" && GeomOf(p).halfW.GetOr(0.0) > 0.0 && GeomOf(p).halfH.GetOr(0.0) > 0.0)
    ensures DimsBound(p) && (ShouldRotate(p) <==> GrainHorizontal(GrainAxis(p)))
  {
    if SuppliedArea(p) == 0.0 {
      var g := GeomOf(p);
      assert Area(p) == (g.halfW.GetOr(0.0) * 2.0) * (g.halfH.GetOr(0.0) * 2.0);
      assert Area(p) > 0.0;
    }
  }

  /**
   * A rotated polygon is stored normalised to the first quadrant, with the width and the
   * height of its box swapped.
   */
  lemma RotatedPolyPiece(p: PieceSpec)
    requires DimsBound(p) && ShouldRotate(p) && TipoOf(p) == "poly" && GeomOf(p).pts.GetOr([]) != []
    ensures var q := FinalGeom(p).pts.GetOr([]);
            (forall k :: 0 <= k < |q| ==> q[k].x >= 0.0 && q[k].y >= 0.0)
            && BBox(FinalGeom(p)) == (BBox(GeomOf(p)).1, BBox(GeomOf(p)).0)
  {
    var pts := GeomOf(p).pts.GetOr([]);
    Rotate90Normalised(pts);
    Rotate90SwapsExtents(pts);
  }

  /** A rotated rect has its halves, and so its box sides, swapped. */
  lemma RotatedRectPiece(p: PieceSpec)
    requires DimsBound(p) && ShouldRotate(p) && TipoOf(p) == "rect"
    ensures BBox(FinalGeom(p)) == (BBox(GeomOf(p)).1, BBox(GeomOf(p)).0)
  {
  }

  /** Rotating a rect twice restores it; a circle is never changed by the transform. */
  lemma RotateGeomRectTwice(g: Geom)
    requires g.tipo == Some("rect") && g.halfW.Some? && g.halfH.Some?
    ensures RotateGeom(RotateGeom(g)) == g
  {
  }

  lemma RotateGeomCircle(g: Geom)
    requires g.tipo == Some("circle")
    ensures RotateGeom(g) == g
  {
  }

  /** The stored fixed-rotation flag, in terms of the JSON flags and the rotation decision. */
  lemma FixedFlag(molde: nat, p: PieceSpec)
    requires DimsBound(p)
    ensures ToDetail(molde, p).rotacaoFixa <==>
            (p.canRotate == Some(JBool(false)) || p.fixedRotation == Some(JBool(true)) || ShouldRotate(p))
  {
  }
}
