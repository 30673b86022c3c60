/**
 * The legacy `import_molde` management command: the older area rules (a two-accumulator
 * shoelace guarded by `n > 2`, rect, circle) and the upsert of `MoldePeca` rows keyed by
 * (mold, piece name), after a `get_or_create` of the mold by name.
 */
module ImportMolde {
  import opened Wrappers
  import opened Json
  import opened Geometry
  import opened MoldeImporter

  /** Σ_{i<k} x_i · y_{i+1}: `sum1` before the closing edge. */
  function Sum1(pts: seq<Point>, k: nat): real
    requires k < |pts|
  {
    if k == 0 then 0.0 else Sum1(pts, k - 1) + pts[k - 1].x * pts[k].y
  }

  /** Σ_{i<k} y_i · x_{i+1}: `sum2` before the closing edge. */
  function Sum2(pts: seq<Point>, k: nat): real
    requires k < |pts|
  {
    if k == 0 then 0.0 else Sum2(pts, k - 1) + pts[k - 1].y * pts[k].x
  }

  /** Both sums with the closing edge from the last point back to the first. */
  function ClosedSums(pts: seq<Point>): (real, real)
    requires |pts| > 2
  {
    var n := |pts|;
    (Sum1(pts, n - 1) + pts[n - 1].x * pts[0].y, Sum2(pts, n - 1) + pts[n - 1].y * pts[0].x)
  }

  /** The command's loop over `range(n - 1)`, then the closing edge. */
  method TwoSums(pts: seq<Point>) returns (sum1: real, sum2: real)
    requires |pts| > 2
    ensures sum1 == ClosedSums(pts).0 && sum2 == ClosedSums(pts).1
  {
    var n := |pts|;
    sum1, sum2 := 0.0, 0.0;
    for i := 0 to n - 1
      invariant sum1 == Sum1(pts, i) && sum2 == Sum2(pts, i)
    {
      sum1 := sum1 + pts[i].x * pts[i + 1].y;
      sum2 := sum2 + pts[i].y * pts[i + 1].x;
    }
    assert sum1 == Sum1(pts, n - 1) && sum2 == Sum2(pts, n - 1);
    sum1 := sum1 + pts[n - 1].x * pts[0].y;
    sum2 := sum2 + pts[n - 1].y * pts[0].x;
    assert sum1 == Sum1(pts, n - 1) + pts[n - 1].x * pts[0].y;
    assert ClosedSums(pts).0 == Sum1(pts, n - 1) + pts[n - 1].x * pts[0].y;
  }

  /** The legacy polygon area: `0.5 * abs(sum1 - sum2)` for more than two points, else 0. */
  function PolyArea(pts: seq<Point>): real {
    if |pts| > 2 then 0.5 * Abs(ClosedSums(pts).0 - ClosedSums(pts).1) else 0.0
  }

  /** The legacy area by `geom.get('type')`: missing or unknown types give 0. */
  function LegacyArea(g: Geom): real {
    if g.tipo == Some("poly") then PolyArea(g.pts.GetOr([]))
    else if g.tipo == Some("rect") then (g.halfW.GetOr(0.0) * 2.0) * (g.halfH.GetOr(0.0) * 2.0)
    else if g.tipo == Some("circle") then Pi * (g.radius.GetOr(0.0) * g.radius.GetOr(0.0))
    else 0.0
  }

  /** The area block of the command's piece loop. */
  method PieceArea(g: Geom) returns (area: real)
    ensures area == LegacyArea(g)
  {
    area := 0.0;
    if g.tipo == Some("poly") {
      var pts := g.pts.GetOr([]);
      var n := |pts|;
      if n > 2 {
        var sum1, sum2 := TwoSums(pts);
        area := 0.5 * Abs(sum1 - sum2);
      }
    } else if g.tipo == Some("rect") {
      var w := g.halfW.GetOr(0.0) * 2.0;
      var h := g.halfH.GetOr(0.0) * 2.0;
      area := w * h;
    } else if g.tipo == Some("circle") {
      var radius := g.radius.GetOr(0.0);
      area := Pi * (radius * radius);
    }
  }

  /** Before the closing edge, the two sums differ by the single-accumulator shoelace sum. */
  lemma {:induction false} SumsMatchCross(pts: seq<Point>, k: nat)
    requires k < |pts|
    ensures Sum1(pts, k) - Sum2(pts, k) == CrossSum(pts, k)
  {
    if k > 0 {
      SumsMatchCross(pts, k - 1);
      SumsStep(pts, k);
    }
  }

  /** One step of the two sums adds exactly one edge term of the shoelace sum. */
  lemma SumsStep(pts: seq<Point>, k: nat)
    requires 0 < k < |pts|
    ensures (Sum1(pts, k) - Sum2(pts, k)) - (Sum1(pts, k - 1) - Sum2(pts, k - 1)) == Cross(pts, k - 1)
  {
    CrossInner(pts, k - 1);
    MulComm(pts[k].x, pts[k - 1].y);
  }

  lemma MulComm(a: real, b: real)
    ensures a * b == b * a
  {
  }

  /** An edge term before the closing edge. */
  lemma CrossInner(pts: seq<Point>, i: nat)
    requires i + 1 < |pts|
    ensures Cross(pts, i) == pts[i].x * pts[i + 1].y - pts[i + 1].x * pts[i].y
  {
    assert (i + 1) % |pts| == i + 1;
  }

  /** The closing edge, from the last point back to the first. */
  lemma CrossClosing(pts: seq<Point>)
    requires |pts| > 0
    ensures Cross(pts, |pts| - 1) == pts[|pts| - 1].x * pts[0].y - pts[0].x * pts[|pts| - 1].y
  {
    assert (|pts| - 1 + 1) % |pts| == 0;
  }

  /** For n > 2 the two-sum form equals the importer's shoelace area. */
  lemma TwoSumShoelace(pts: seq<Point>)
    requires |pts| > 2
    ensures PolyArea(pts) == ShoelaceArea(pts)
  {
    var n := |pts|;
    SumsMatchCross(pts, n - 1);
    CrossClosing(pts);
    var a, b := pts[n - 1], pts[0];
    assert b.x * a.y == a.y * b.x;
    assert CrossSum(pts, n) == CrossSum(pts, n - 1) + Cross(pts, n - 1);
  }

  /**
   * The legacy commands and the importer compute the same fallback area for every
   * geometry: polygons of one or two points are 0 in both, and the forms agree above that.
   */
  lemma LegacyAreaMatchesImporter(g: Geom)
    ensures LegacyArea(g) == ComputedArea(g)
  {
    var pts := g.pts.GetOr([]);
    if g.tipo == Some("poly") {
      if |pts| > 2 {
        TwoSumShoelace(pts);
      } else if pts != [] {
        DegenerateShoelace(pts);
      }
    }
  }

  /** A `MoldePeca` row's fields other than its key. */
  datatype Peca = Peca(tipoGeom: Option<string>, areaBaseMm2: real, qtdPadrao: int, geometria: Geom)

  type Key = (nat, string)

  function NameOf(p: PieceSpec): string {
    p.name.GetOr("Sem Nome")
  }

  function KeyOf(molde: nat, p: PieceSpec): Key {
    (molde, NameOf(p))
  }

  function RowOf(p: PieceSpec): Peca {
    Peca(GeomOf(p).tipo, LegacyArea(GeomOf(p)), p.qty.GetOr(1), GeomOf(p))
  }

  /** `update_or_create` for each piece in turn. */
  function Upserted(t: map<Key, Peca>, molde: nat, ps: seq<PieceSpec>): map<Key, Peca>
    decreases ps
  {
    if ps == [] then t else Upserted(t[KeyOf(molde, ps[0]) := RowOf(ps[0])], molde, ps[1..])
  }

  /** The rows the pieces define on their own: for each name, the last piece with that name. */
  function PiecesMap(molde: nat, ps: seq<PieceSpec>): map<Key, Peca> {
    if ps == [] then map[] else map[KeyOf(molde, ps[0]) := RowOf(ps[0])] + PiecesMap(molde, ps[1..])
  }

  /** The command's loop, item by item: a failing item stops it with the earlier upserts kept. */
  function UpsertItems(t: map<Key, Peca>, molde: nat, items: seq<Json>, extract: map<string, Json> -> Option<PieceSpec>)
    : (map<Key, Peca>, Result<(), ImportError>)
    decreases items
  {
    if items == [] then (t, Ok(()))
    else match Convert(items[0], extract)
      case Err(e) => (t, Err(e))
      case Ok(p) => UpsertItems(t[KeyOf(molde, p) := RowOf(p)], molde, items[1..], extract)
  }

  /** Upserting is overriding the table with the pieces' own rows. */
  lemma {:induction false} UpsertIsOverride(t: map<Key, Peca>, molde: nat, ps: seq<PieceSpec>)
    ensures Upserted(t, molde, ps) == t + PiecesMap(molde, ps)
    decreases ps
  {
    if ps != [] {
      var k, v := KeyOf(molde, ps[0]), RowOf(ps[0]);
      UpsertIsOverride(t[k := v], molde, ps[1..]);
      assert t[k := v] + PiecesMap(molde, ps[1..]) == t + (map[k := v] + PiecesMap(molde, ps[1..]));
    }
  }

  /** The pieces' own rows are keyed by this mold and the names that occur. */
  lemma {:induction false} PiecesMapKeys(molde: nat, ps: seq<PieceSpec>, k: Key)
    ensures k in PiecesMap(molde, ps) <==> k.0 == molde && exists i :: 0 <= i < |ps| && NameOf(ps[i]) == k.1
  {
    if ps != [] {
      PiecesMapKeys(molde, ps[1..], k);
      if exists i :: 0 <= i < |ps| && NameOf(ps[i]) == k.1 {
        var i :| 0 <= i < |ps| && NameOf(ps[i]) == k.1;
        if i > 0 {
          assert NameOf(ps[1..][i - 1]) == k.1;
        }
      }
      if exists i :: 0 <= i < |ps| - 1 && NameOf(ps[1..][i]) == k.1 {
        var i :| 0 <= i < |ps| - 1 && NameOf(ps[1..][i]) == k.1;
        assert NameOf(ps[i + 1]) == k.1;
      }
    }
  }

  /**
   * Importing upserts on (mold, name): afterwards each name of the file has exactly one row
   * under the mold, rows under other keys are untouched, and importing the same pieces
   * again changes nothing.
   */
  lemma UpsertProperties(t: map<Key, Peca>, molde: nat, ps: seq<PieceSpec>, k: Key)
    ensures (k in Upserted(t, molde, ps)) <==>
            (k in t || (k.0 == molde && exists i :: 0 <= i < |ps| && NameOf(ps[i]) == k.1))
    ensures (k.0 != molde || forall i :: 0 <= i < |ps| ==> NameOf(ps[i]) != k.1) ==>
            (k in t ==> k in Upserted(t, molde, ps) && Upserted(t, molde, ps)[k] == t[k])
    ensures Upserted(Upserted(t, molde, ps), molde, ps) == Upserted(t, molde, ps)
  {
    UpsertIsOverride(t, molde, ps);
    UpsertIsOverride(Upserted(t, molde, ps), molde, ps);
    PiecesMapKeys(molde, ps, k);
    var pm := PiecesMap(molde, ps);
    assert (t + pm) + pm == t + pm;
  }

  /** When every item converts, the item loop upserts all the pieces and succeeds. */
  lemma {:induction false} UpsertItemsAll(t: map<Key, Peca>, molde: nat, items: seq<Json>,
                                          extract: map<string, Json> -> Option<PieceSpec>)
    requires ExtractAll(items, extract).Ok?
    ensures UpsertItems(t, molde, items, extract) == (Upserted(t, molde, ExtractAll(items, extract).value), Ok(()))
    decreases items
  {
    if items != [] {
      var p := Convert(items[0], extract).value;
      UpsertItemsAll(t[KeyOf(molde, p) := RowOf(p)], molde, items[1..], extract);
    }
  }

  /** The mold table `Molde` (by name) and the legacy piece table `MoldePeca`. */
  class LegacyDb {
    var molds: map<string, nat>
    var nextId: nat
    var pecas: map<Key, Peca>

    /** Every mold id was handed out before `nextId`. */
    predicate Valid()
      reads this
    {
      forall n :: n in molds ==> molds[n] < nextId
    }

    constructor ()
      ensures Valid() && molds == map[] && pecas == map[]
    {
      molds := map[];
      nextId := 0;
      pecas := map[];
    }

    /** `Molde.objects.get_or_create(nome=name)` */
    method GetOrCreateMolde(name: string) returns (id: nat, created: bool)
      requires Valid()
      modifies this
      ensures Valid() && pecas == old(pecas)
      ensures created <==> name !in old(molds)
      ensures molds == old(molds)[name := id]
      ensures !created ==> id == old(molds)[name]
      ensures created ==> forall n :: n in old(molds) ==> old(molds)[n] != id
    {
      if name in molds {
        return molds[name], false;
      }
      id := nextId;
      molds := molds[name := id];
      nextId := nextId + 1;
      created := true;
    }

    /**
     * `handle` after the file is loaded: get or create the mold, then upsert the pieces one
     * by one, stopping at the first entry that cannot be read (earlier upserts stay).
     */
    method Handle(moldName: string, data: Json, extract: map<string, Json> -> Option<PieceSpec>)
      returns (r: Result<(), ImportError>)
      requires Valid()
      modifies this
      ensures Valid() && moldName in molds && molds == old(molds)[moldName := molds[moldName]]
      ensures PieceItems(data).Err? ==> r == Err(PieceItems(data).error) && pecas == old(pecas)
      ensures PieceItems(data).Ok? ==>
              (pecas, r) == UpsertItems(old(pecas), molds[moldName], PieceItems(data).value, extract)
    {
      var molde, created := GetOrCreateMolde(moldName);
      var items := PieceItems(data);
      if items.Err? {
        return Err(items.error);
      }
      var all := items.value;
      r := Ok(());
      for i := 0 to |all|
        invariant Valid() && molds == old(molds)[moldName := molde]
        invariant UpsertItems(old(pecas), molde, all, extract) == UpsertItems(pecas, molde, all[i..], extract)
      {
        assert all[i..][1..] == all[i + 1..];
        var piece := Convert(all[i], extract);
        if piece.Err? {
          return Err(piece.error);
        }
        var area := PieceArea(GeomOf(piece.value));
        pecas := pecas[KeyOf(molde, piece.value) := Peca(GeomOf(piece.value).tipo, area, piece.value.qty.GetOr(1), GeomOf(piece.value))];
      }
    }
  }
}
