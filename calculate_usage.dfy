/**
 * The legacy `calculate_usage` management command: net fabric area per colour for a
 * production quantity, using the same area rules as `import_molde`, then a 15% waste
 * margin and linear metres for three standard fabric widths.
 */
module CalculateUsage {
  import opened Wrappers
  import opened Json
  import opened Geometry
  import opened MoldeImporter
  import opened ImportMolde

  /** The hard-coded colour of each known piece name; anything else is "Indefinido". */
  function ColorOf(name: Option<string>): string {
    match name
    case Some("Corpo Frente Costa") => "Vermelho"
    case Some("Fundo") => "Azul"
    case Some("Emenda Corpo") => "Vermelho"
    case Some("Fole Corpo") => "Vermelho"
    case _ => "Indefinido"
  }

  /** `area_mm2 / 1e6 * qty_per_item * quantity`: square metres for the whole production. */
  function Scaled(area: real, perItem: int, quantity: int): real {
    area / 1000000.0 * (perItem as real) * (quantity as real)
  }

  /** A piece's total, its quantity per item defaulting to 1. */
  function PieceTotal(p: PieceSpec, quantity: int): real {
    Scaled(LegacyArea(GeomOf(p)), p.qty.GetOr(1), quantity)
  }

  /** `usage_by_color` after the loop over the pieces. */
  function Usage(ps: seq<PieceSpec>, quantity: int): map<string, real> {
    if ps == [] then map[]
    else
      var u := Usage(ps[..|ps| - 1], quantity);
      var c := ColorOf(ps[|ps| - 1].name);
      u[c := (if c in u then u[c] else 0.0) + PieceTotal(ps[|ps| - 1], quantity)]
  }

  /** The dictionary's key order: colours in the order they first occur. */
  function FirstSeen(ps: seq<PieceSpec>): seq<string> {
    if ps == [] then []
    else
      var order := FirstSeen(ps[..|ps| - 1]);
      var c := ColorOf(ps[|ps| - 1].name);
      if c in order then order else order + [c]
  }

  /** Reference definition: the sum of the totals of the pieces mapped to colour c. */
  function ColorTotal(ps: seq<PieceSpec>, quantity: int, c: string): real {
    if ps == [] then 0.0
    else ColorTotal(ps[..|ps| - 1], quantity, c)
         + (if ColorOf(ps[|ps| - 1].name) == c then PieceTotal(ps[|ps| - 1], quantity) else 0.0)
  }

  predicate HasColor(ps: seq<PieceSpec>, c: string) {
    exists i :: 0 <= i < |ps| && ColorOf(ps[i].name) == c
  }

  lemma HasColorStep(ps: seq<PieceSpec>, c: string)
    requires ps != []
    ensures HasColor(ps, c) <==> HasColor(ps[..|ps| - 1], c) || ColorOf(ps[|ps| - 1].name) == c
  {
    var front := ps[..|ps| - 1];
    if HasColor(ps, c) && ColorOf(ps[|ps| - 1].name) != c {
      var i :| 0 <= i < |ps| && ColorOf(ps[i].name) == c;
      assert front[i] == ps[i];
    }
    if HasColor(front, c) {
      var i :| 0 <= i < |front| && ColorOf(front[i].name) == c;
      assert ps[i] == front[i];
    }
  }

  /**
   * `usage_by_color` has a key for exactly the colours some piece maps to, and each value is
   * the sum over the pieces of that colour.
   */
  lemma {:induction false} UsageMeaning(ps: seq<PieceSpec>, quantity: int, c: string)
    ensures c in Usage(ps, quantity) <==> HasColor(ps, c)
    ensures c in Usage(ps, quantity) ==> Usage(ps, quantity)[c] == ColorTotal(ps, quantity, c)
    ensures c in FirstSeen(ps) <==> HasColor(ps, c)
  {
    if ps != [] {
      var front := ps[..|ps| - 1];
      UsageMeaning(front, quantity, c);
      HasColorStep(ps, c);
      if c !in Usage(front, quantity) {
        assert ColorTotal(front, quantity, c) == 0.0 by {
          ColorTotalAbsent(front, quantity, c);
        }
      }
    }
  }

  lemma {:induction false} ColorTotalAbsent(ps: seq<PieceSpec>, quantity: int, c: string)
    requires !HasColor(ps, c)
    ensures ColorTotal(ps, quantity, c) == 0.0
  {
    if ps != [] {
      HasColorStep(ps, c);
      ColorTotalAbsent(ps[..|ps| - 1], quantity, c);
    }
  }

  /** The key order lists every colour once. */
  lemma {:induction false} FirstSeenDistinct(ps: seq<PieceSpec>)
    ensures forall i, j :: 0 <= i < j < |FirstSeen(ps)| ==> FirstSeen(ps)[i] != FirstSeen(ps)[j]
  {
    if ps != [] {
      FirstSeenDistinct(ps[..|ps| - 1]);
    }
  }

  lemma {:induction false} ColorTotalAppend(a: seq<PieceSpec>, b: seq<PieceSpec>, quantity: int, c: string)
    ensures ColorTotal(a + b, quantity, c) == ColorTotal(a, quantity, c) + ColorTotal(b, quantity, c)
    decreases |b|
  {
    if b == [] {
      assert a + b == a;
    } else {
      assert (a + b)[..|a + b| - 1] == a + b[..|b| - 1];
      assert (a + b)[|a + b| - 1] == b[|b| - 1];
      ColorTotalAppend(a, b[..|b| - 1], quantity, c);
    }
  }

  /** Only `+=` updates: a colour's total does not depend on the order of the pieces. */
  lemma {:induction false} ColorTotalOrderFree(a: seq<PieceSpec>, b: seq<PieceSpec>, quantity: int, c: string)
    requires multiset(a) == multiset(b)
    ensures ColorTotal(a, quantity, c) == ColorTotal(b, quantity, c)
    decreases |a|
  {
    if a != [] {
      var x := a[|a| - 1];
      var front := a[..|a| - 1];
      assert a == front + [x];
      assert multiset(a) == multiset(front) + multiset{x};
      assert x in multiset(b);
      var j :| 0 <= j < |b| && b[j] == x;
      var rest := b[..j] + b[j + 1..];
      RemoveAtMultiset(b, j);
      assert multiset(front) == multiset(a) - multiset{x};
      assert multiset(rest) == multiset(b) - multiset{x};
      ColorTotalOrderFree(front, rest, quantity, c);
      ColorTotalAppend(front, [x], quantity, c);
      ColorTotalRemoveAt(b, j, quantity, c);
    } else {
      assert |b| == |multiset(b)| == 0;
    }
  }

  /** Taking out the element at j takes one copy of it out of the multiset. */
  lemma RemoveAtMultiset(b: seq<PieceSpec>, j: nat)
    requires j < |b|
    ensures multiset(b) == multiset(b[..j] + b[j + 1..]) + multiset{b[j]}
  {
    assert b == b[..j] + [b[j]] + b[j + 1..];
  }

  /** A colour's total splits into the piece at j and all the others. */
  lemma ColorTotalRemoveAt(b: seq<PieceSpec>, j: nat, quantity: int, c: string)
    requires j < |b|
    ensures ColorTotal(b, quantity, c) == ColorTotal(b[..j] + b[j + 1..], quantity, c) + ColorTotal([b[j]], quantity, c)
  {
    var x := b[j];
    assert b == b[..j] + [x] + b[j + 1..];
    ColorTotalAppend(b[..j] + [x], b[j + 1..], quantity, c);
    ColorTotalAppend(b[..j], [x], quantity, c);
    ColorTotalAppend(b[..j], b[j + 1..], quantity, c);
  }

  /** The per-colour usage is the same for any reordering of the pieces. */
  lemma UsageOrderFree(a: seq<PieceSpec>, b: seq<PieceSpec>, quantity: int)
    requires multiset(a) == multiset(b)
    ensures Usage(a, quantity) == Usage(b, quantity)
  {
    forall c
      ensures (c in Usage(a, quantity) <==> c in Usage(b, quantity))
      ensures c in Usage(a, quantity) ==> Usage(a, quantity)[c] == Usage(b, quantity)[c]
    {
      UsageMeaning(a, quantity, c);
      UsageMeaning(b, quantity, c);
      if HasColor(a, c) {
        var i :| 0 <= i < |a| && ColorOf(a[i].name) == c;
        assert a[i] in multiset(b);
        var j :| 0 <= j < |b| && b[j] == a[i];
      }
      if HasColor(b, c) {
        var j :| 0 <= j < |b| && ColorOf(b[j].name) == c;
        assert b[j] in multiset(a);
        var i :| 0 <= i < |a| && a[i] == b[j];
      }
      ColorTotalOrderFree(a, b, quantity, c);
    }
  }

  /** One more piece: its total is added to its colour, which joins the key order if new. */
  lemma UsageStep(ps: seq<PieceSpec>, i: nat, quantity: int)
    requires i < |ps|
    ensures var u := Usage(ps[..i], quantity);
            var c := ColorOf(ps[i].name);
            Usage(ps[..i + 1], quantity) == u[c := (if c in u then u[c] else 0.0) + PieceTotal(ps[i], quantity)]
            && FirstSeen(ps[..i + 1]) == (if c in FirstSeen(ps[..i]) then FirstSeen(ps[..i]) else FirstSeen(ps[..i]) + [c])
  {
    assert ps[..i + 1][..i] == ps[..i];
  }

  /** The command's piece loop: the per-colour totals and the order colours first appear in. */
  method UsageByColor(pieces: seq<PieceSpec>, quantity: int) returns (usage: map<string, real>, colors: seq<string>)
    ensures usage == Usage(pieces, quantity) && colors == FirstSeen(pieces)
  {
    usage, colors := map[], [];
    for i := 0 to |pieces|
      invariant usage == Usage(pieces[..i], quantity) && colors == FirstSeen(pieces[..i])
    {
      UsageStep(pieces, i, quantity);
      var piece := pieces[i];
      var area := PieceArea(GeomOf(piece));
      var total := Scaled(area, piece.qty.GetOr(1), quantity);
      var color := ColorOf(piece.name);
      ghost var before := usage;
      if color !in usage {
        usage := usage[color := 0.0];
        UsageMeaning(pieces[..i], quantity, color);
      }
      usage := usage[color := usage[color] + total];
      assert usage == before[color := (if color in before then before[color] else 0.0) + total];
      if color !in colors {
        colors := colors + [color];
      }
    }
    assert pieces[..|pieces|] == pieces;
  }

  const WasteFactor: real := 1.15
  const Widths: seq<real> := [1.40, 1.50, 1.60]

  /** One colour's printed summary: net, gross, and linear metres per standard width. */
  datatype Line = Line(color: string, net: real, gross: real, linear: seq<real>)

  function LineOf(color: string, net: real): Line {
    Line(color, net, net * WasteFactor, seq(|Widths|, i requires 0 <= i < |Widths| => net * WasteFactor / Widths[i]))
  }

  /** The summary loop over the colours, with the inner loop over the widths. */
  method Summary(usage: map<string, real>, colors: seq<string>) returns (lines: seq<Line>)
    requires forall c :: c in colors ==> c in usage
    ensures |lines| == |colors|
    ensures forall i :: 0 <= i < |colors| ==> lines[i] == LineOf(colors[i], usage[colors[i]])
  {
    lines := [];
    for i := 0 to |colors|
      invariant |lines| == i
      invariant forall k :: 0 <= k < i ==> lines[k] == LineOf(colors[k], usage[colors[k]])
    {
      var area := usage[colors[i]];
      var gross := area * WasteFactor;
      var linear := [];
      for w := 0 to |Widths|
        invariant |linear| == w && forall k :: 0 <= k < w ==> linear[k] == gross / Widths[k]
      {
        linear := linear + [gross / Widths[w]];
      }
      lines := lines + [Line(colors[i], area, gross, linear)];
    }
  }

  /**
   * For a non-negative net area, the gross area is 15% more, and a wider fabric needs
   * fewer linear metres: 1.40 m ≥ 1.50 m ≥ 1.60 m.
   */
  lemma LineFacts(color: string, net: real)
    requires net >= 0.0
    ensures var l := LineOf(color, net);
            l.gross == net + net * 0.15 && l.gross >= net
            && |l.linear| == 3 && l.linear[0] >= l.linear[1] >= l.linear[2] >= 0.0
            && l.linear[1] * 1.50 == l.gross
  {
    var g := net * WasteFactor;
    assert g >= 0.0;
    assert g / 1.40 >= g / 1.50 by {
      assert g / 1.40 * 1.40 == g && g / 1.50 * 1.50 == g;
    }
    assert g / 1.50 >= g / 1.60 by {
      assert g / 1.50 * 1.50 == g && g / 1.60 * 1.60 == g;
    }
  }

  /**
   * The command after the file is loaded: the pieces of the data, or the error that
   * aborts it, then the per-colour usage and its summary lines in key order.
   */
  method Handle(data: Json, quantity: int, extract: map<string, Json> -> Option<PieceSpec>)
    returns (r: Result<seq<Line>, ImportError>)
    ensures PiecesOf(data, extract).Err? ==> r == Err(PiecesOf(data, extract).error)
    ensures PiecesOf(data, extract).Ok? ==>
              (r.Ok? &&
               var ps := PiecesOf(data, extract).value;
               |r.value| == |FirstSeen(ps)|
               && forall i :: 0 <= i < |r.value| ==>
                    r.value[i] == LineOf(FirstSeen(ps)[i], ColorTotal(ps, quantity, FirstSeen(ps)[i])))
  {
    var pieces := PiecesOf(data, extract);
    if pieces.Err? {
      return Err(pieces.error);
    }
    var usage, colors := UsageByColor(pieces.value, quantity);
    forall c | c in colors
      ensures c in usage && usage[c] == ColorTotal(pieces.value, quantity, c)
    {
      UsageMeaning(pieces.value, quantity, c);
    }
    var lines := Summary(usage, colors);
    r := Ok(lines);
  }
}
