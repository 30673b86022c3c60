/**
 * The CAD-facing API: the bearer-token reading, the authentication wrapper, and the two
 * creation endpoints that turn a posted JSON document into a mould with its pieces, or
 * into a standard product with its insumos and piece materials. Each endpoint runs in one
 * transaction: any exception rolls everything back and answers 400.
 */
module ApiViews {
  import opened Wrappers
  import opened Text
  import opened Json

  // ---------------------------------------------------------------------------------------
  // Authentication

  /** The request as the views read it: its headers and its body. */
  datatype Request = Request(headers: map<string, string>, body: string)

  const BearerPrefix := "Bearer "

  /** `request.headers.get('Authorization', '')`. */
  function AuthHeader(req: Request): string {
    if "Authorization" in req.headers then req.headers["Authorization"] else ""
  }

  /** `get_token`: what follows an exact, case-sensitive `Bearer ` prefix; nothing otherwise. */
  function GetToken(req: Request): (t: Option<string>)
    ensures t.Some? <==> StartsWith(AuthHeader(req), BearerPrefix)
    ensures t.Some? ==> AuthHeader(req) == BearerPrefix + t.value
  {
    var auth := AuthHeader(req);
    if StartsWith(auth, BearerPrefix) then Some(auth[|BearerPrefix|..]) else None
  }

  /** Whatever token is sent after the prefix is read back unchanged. */
  lemma GetTokenRoundTrip(req: Request, t: string)
    requires AuthHeader(req) == BearerPrefix + t
    ensures GetToken(req) == Some(t)
  {
    assert (BearerPrefix + t)[..|BearerPrefix|] == BearerPrefix;
    assert (BearerPrefix + t)[|BearerPrefix|..] == t;
  }

  /** The prefix is case-sensitive: a lower-case `bearer` is no token. */
  lemma LowerCaseBearerIsNoToken(req: Request)
    requires AuthHeader(req) == "bearer DEV_TOKEN"
    ensures GetToken(req) == None
  {
    assert AuthHeader(req)[0] != BearerPrefix[0];
  }

  /**
   * `check_auth`: the token is read and compared with `DEV_TOKEN`, but the comparison
   * has no effect: the wrapped view answers every request.
   */
  function CheckAuth<R>(view: Request -> R, req: Request): (r: R)
    ensures r == view(req)
  {
    var token := GetToken(req);
    if token != Some("DEV_TOKEN") then view(req) else view(req)
  }

  // ---------------------------------------------------------------------------------------
  // Reading the posted document

  /** The exceptions the creation endpoints can raise; each one becomes a 400 answer. */
  datatype ApiError =
    | InvalidJson   // `json.loads` fails
    | NotADict      // `.get` called on a value that is not a dictionary (`AttributeError`)
    | NotIterable   // a `for` over `None`, a number or a boolean (`TypeError`)
    | NotFound      // `objects.get` finds no row (`DoesNotExist`)
    | NotANumber    // the area divided by a million is not a number (`TypeError`)
    | NullColumn    // `None` saved into a column declared without `null=True` (`IntegrityError`)

  /** The answer's status: 201 with the created row, 400 with the error. */
  function Status<T>(r: Result<T, ApiError>): int {
    if r.Ok? then 201 else 400
  }

  /** `d.get(key, default)` on a dictionary. */
  function Get(fields: map<string, Json>, key: string, default: Json): Json {
    if key in fields then fields[key] else default
  }

  /**
   * The elements a `for` visits before calling `.get` on each: a list's elements; an
   * empty dictionary or string yields nothing, a non-empty one yields strings, and the
   * first `.get` on a string fails.
   */
  function Elements(j: Json): (r: Result<seq<Json>, ApiError>)
    ensures r.Ok? <==> j.JArr? || j == JObj(map[]) || j == JStr([])
    ensures j.JArr? ==> r == Ok(j.items)
  {
    match j
    case JArr(items) => Ok(items)
    case JObj(fields) => if fields == map[] then Ok([]) else Err(NotADict)
    case JStr(s) => if s == [] then Ok([]) else Err(NotADict)
    case _ => Err(NotIterable)
  }

  /**
   * A primary key read from the document. Only a non-negative integral JSON number
   * names a row; anything else names none.
   */
  function IdOf(j: Json): (r: Option<nat>)
    ensures r.Some? ==> j == JNum(r.value as real)
  {
    if j.JNum? && j.n >= 0.0 && j.n.Floor as real == j.n then Some(j.n.Floor as nat) else None
  }

  /** Every non-negative integral number names its row. */
  lemma IdOfNumber(n: nat)
    ensures IdOf(JNum(n as real)) == Some(n)
  {
    assert (n as real).Floor == n;
  }

  /** A JSON value in arithmetic: numbers as themselves, booleans as 1 and 0, the rest fails. */
  function Number(j: Json): Option<real> {
    match j
    case JNum(n) => Some(n)
    case JBool(b) => Some(if b then 1.0 else 0.0)
    case _ => None
  }

  // ---------------------------------------------------------------------------------------
  // The loops: one step per element, the first failure ends the request

  /**
   * The records a loop creates, each element giving zero or more of them, or the first
   * element's failure.
   */
  function Collect<R>(step: Json -> Result<seq<R>, ApiError>, xs: seq<Json>): Result<seq<R>, ApiError> {
    if xs == [] then Ok([])
    else match Collect(step, xs[..|xs| - 1])
      case Err(e) => Err(e)
      case Ok(acc) =>
        match step(xs[|xs| - 1])
        case Err(e) => Err(e)
        case Ok(rs) => Ok(acc + rs)
  }

  /** Once a prefix has failed, the whole list fails the same way. */
  lemma {:induction false} CollectErrSticks<R>(step: Json -> Result<seq<R>, ApiError>, xs: seq<Json>, i: nat)
    requires i <= |xs| && Collect(step, xs[..i]).Err?
    ensures Collect(step, xs) == Collect(step, xs[..i])
    decreases |xs| - i
  {
    if i < |xs| {
      assert xs[..i + 1][..i] == xs[..i];
      CollectErrSticks(step, xs, i + 1);
    } else {
      assert xs[..i] == xs;
    }
  }

  /** The loop succeeds exactly when every element's step succeeds. */
  lemma {:induction false} CollectOkIff<R>(step: Json -> Result<seq<R>, ApiError>, xs: seq<Json>)
    ensures Collect(step, xs).Ok? <==> forall k :: 0 <= k < |xs| ==> step(xs[k]).Ok?
    decreases |xs|
  {
    if xs != [] {
      var front := xs[..|xs| - 1];
      CollectOkIff(step, front);
      assert forall k :: 0 <= k < |front| ==> front[k] == xs[k];
    }
  }

  /** The loop as the views write it: stop at the first failure, else gather every record. */
  method CollectLoop<R>(step: Json -> Result<seq<R>, ApiError>, xs: seq<Json>) returns (r: Result<seq<R>, ApiError>)
    ensures r == Collect(step, xs)
  {
    var acc: seq<R> := [];
    for i := 0 to |xs|
      invariant Collect(step, xs[..i]) == Ok(acc)
    {
      assert xs[..i + 1][..i] == xs[..i];
      var one := step(xs[i]);
      if one.Err? {
        CollectErrSticks(step, xs, i + 1);
        return Err(one.error);
      }
      acc := acc + one.value;
    }
    assert xs[..|xs|] == xs;
    r := Ok(acc);
  }

  // ---------------------------------------------------------------------------------------
  // Rows

  /** `Molde`: the name and the file names, set only when the document gives a truthy one. */
  datatype MoldeRow = MoldeRow(nome: Json, arquivoJson: Option<Json>, imagem: Option<Json>)

  /** `MoldeDetalhe` as `create_molde` fills it. */
  datatype DetalheRow = DetalheRow(
    molde: nat,
    nomeOriginal: Json,
    tipoGeom: Json,
    areaBaseMm2: Json,
    larguraMm: Json,
    alturaMm: Json,
    orientacaoFio: Json,
    qtdPadrao: Json,
    geometriaJson: Json)

  /** `Produto` as `create_produto_padrao` fills it. */
  datatype ProdutoRow = ProdutoRow(nome: Json, molde: nat, ehPadrao: Json, preco: real)

  /** `ProdutoInsumo`. */
  datatype InsumoRow = InsumoRow(produto: nat, material: nat, quantidade: Json)

  /** `ItensMaterial`: a piece's fabric, with its consumption in square metres. */
  datatype ItemMaterialRow = ItemMaterialRow(produto: nat, moldeDetalhe: Option<nat>, material: nat, quantidade: real, tipo: string)

  const Pol := JStr("pol")
  const Vertical := JStr("vertical")
  const Peca := JStr("Peca")
  const TecidoPadrao := "tecido_padrao"

  /** No field of `keys` is posted as `null`: a missing one takes its (non-null) default. */
  predicate NullFree(f: map<string, Json>, keys: set<string>) {
    forall k :: k in keys && k in f ==> f[k] != JNull
  }

  /** The fields of a posted piece stored into `MoldeDetalhe` columns that are NOT NULL. */
  const PieceColumns: set<string> := {"nome", "area", "largura", "altura", "qty"}

  /** A piece row fits its table: every column declared without `null=True` has a value. */
  predicate DetalheNotNull(d: DetalheRow) {
    d.nomeOriginal != JNull && d.tipoGeom != JNull && d.areaBaseMm2 != JNull
    && d.larguraMm != JNull && d.alturaMm != JNull && d.qtdPadrao != JNull && d.geometriaJson != JNull
  }

  // ---------------------------------------------------------------------------------------
  // create_molde

  /** One posted piece of `create_molde`, its missing fields taken from the defaults. */
  function DetalheOf(molde: nat, p: Json): (r: Result<seq<DetalheRow>, ApiError>)
    ensures r.Ok? <==> p.JObj? && Get(p.fields, "geometria_json", EmptyObject).JObj?
                       && NullFree(p.fields, PieceColumns) && NullFree(Get(p.fields, "geometria_json", EmptyObject).fields, {"type"})
    ensures r.Ok? ==> |r.value| == 1 && r.value[0].molde == molde && DetalheNotNull(r.value[0])
    ensures r.Err? ==> r.error == NotADict || r.error == NullColumn
  {
    if !p.JObj? then Err(NotADict)
    else
      var f := p.fields;
      var geom := Get(f, "geometria_json", EmptyObject);
      if !geom.JObj? then Err(NotADict)
      else
        var d := DetalheRow(
          molde,
          Get(f, "nome", Peca),
          Get(geom.fields, "type", Pol),
          Get(f, "area", JNum(0.0)),
          Get(f, "largura", JNum(0.0)),
          Get(f, "altura", JNum(0.0)),
          Get(f, "orientacao_fio", Vertical),
          Get(f, "qty", JNum(1.0)),
          geom);
        if !DetalheNotNull(d) then Err(NullColumn) else Ok([d])
  }

  /** The step of the piece loop for a given mould. */
  function DetalheStep(molde: nat): Json -> Result<seq<DetalheRow>, ApiError> {
    p => DetalheOf(molde, p)
  }

  /**
   * A piece that gives nothing but an empty object is a polygon named `Peca`, of zero
   * area and size, with vertical grain and quantity 1.
   */
  lemma EmptyPieceDefaults(molde: nat)
    ensures DetalheOf(molde, EmptyObject)
            == Ok([DetalheRow(molde, Peca, Pol, JNum(0.0), JNum(0.0), JNum(0.0), Vertical, JNum(1.0), EmptyObject)])
  {
  }

  /**
   * Each column holds the field the piece gives, or that column's default when the piece
   * leaves the field out, whichever other fields it gives.
   */
  lemma GivenFieldsKept(molde: nat, f: map<string, Json>, g: map<string, Json>)
    requires Get(f, "geometria_json", EmptyObject) == JObj(g)
    requires NullFree(f, PieceColumns) && NullFree(g, {"type"})
    ensures DetalheOf(molde, JObj(f)).Ok?
    ensures var d := DetalheOf(molde, JObj(f)).value[0];
            d.molde == molde
            && d.nomeOriginal == (if "nome" in f then f["nome"] else Peca)
            && d.tipoGeom == (if "type" in g then g["type"] else Pol)
            && d.areaBaseMm2 == (if "area" in f then f["area"] else JNum(0.0))
            && d.larguraMm == (if "largura" in f then f["largura"] else JNum(0.0))
            && d.alturaMm == (if "altura" in f then f["altura"] else JNum(0.0))
            && d.orientacaoFio == (if "orientacao_fio" in f then f["orientacao_fio"] else Vertical)
            && d.qtdPadrao == (if "qty" in f then f["qty"] else JNum(1.0))
            && d.geometriaJson == JObj(g)
  {
  }

  /** A piece posted with a `null` name (or size, quantity, type) fails the whole request. */
  lemma NullPieceFieldFails(molde: nat, f: map<string, Json>, k: string)
    requires k in PieceColumns && k in f && f[k] == JNull
    ensures DetalheOf(molde, JObj(f)) == Err(NotADict) || DetalheOf(molde, JObj(f)) == Err(NullColumn)
    ensures Get(f, "geometria_json", EmptyObject).JObj? ==> DetalheOf(molde, JObj(f)) == Err(NullColumn)
  {
  }

  /**
   * What `create_molde` creates from its document: the mould (saved first, so a missing or
   * `null` name fails before any piece) and its pieces, in order.
   */
  function CreateMoldeRows(data: Json, molde: nat): (r: Result<(MoldeRow, seq<DetalheRow>), ApiError>)
    ensures r.Ok? ==> data.JObj? && "nome" in data.fields && r.value.0.nome == data.fields["nome"] && r.value.0.nome != JNull
  {
    if !data.JObj? then Err(NotADict)
    else
      var f := data.fields;
      var arquivo := Get(f, "arquivo_json", JNull);
      var imagem := Get(f, "imagem", JNull);
      var row := MoldeRow(Get(f, "nome", JNull),
                          if Truthy(arquivo) then Some(arquivo) else None,
                          if Truthy(imagem) then Some(imagem) else None);
      if row.nome == JNull then Err(NullColumn)
      else match Elements(Get(f, "pecas", JArr([])))
      case Err(e) => Err(e)
      case Ok(pieces) =>
        match Collect(DetalheStep(molde), pieces)
        case Err(e) => Err(e)
        case Ok(ds) => Ok((row, ds))
  }

  /** A document without `pecas` creates the mould alone. */
  lemma NoPiecesNoDetails(f: map<string, Json>, molde: nat)
    requires "pecas" !in f && "nome" in f && f["nome"] != JNull
    ensures CreateMoldeRows(JObj(f), molde).Ok? && CreateMoldeRows(JObj(f), molde).value.1 == []
  {
  }

  /** Every piece yields exactly one row of the new mould, in the order posted. */
  lemma {:induction false} DetailsOnePerPiece(molde: nat, pieces: seq<Json>)
    requires Collect(DetalheStep(molde), pieces).Ok?
    ensures var ds := Collect(DetalheStep(molde), pieces).value;
            |ds| == |pieces| && forall k :: 0 <= k < |ds| ==> Ok([ds[k]]) == DetalheOf(molde, pieces[k])
    decreases |pieces|
  {
    if pieces != [] {
      var front := pieces[..|pieces| - 1];
      DetailsOnePerPiece(molde, front);
      var ds := Collect(DetalheStep(molde), pieces).value;
      var dsf := Collect(DetalheStep(molde), front).value;
      var last := DetalheOf(molde, pieces[|pieces| - 1]).value;
      assert ds == dsf + last;
      assert forall k :: 0 <= k < |front| ==> front[k] == pieces[k];
    }
  }

  /** A document without a name, or with a `null` one, creates nothing: `Molde.nome` is NOT NULL. */
  lemma UnnamedMoldeFails(f: map<string, Json>, molde: nat)
    requires "nome" !in f || f["nome"] == JNull
    ensures CreateMoldeRows(JObj(f), molde) == Err(NullColumn)
  {
  }

  // ---------------------------------------------------------------------------------------
  // create_produto_padrao

  /** One posted insumo: its material must exist. */
  function InsumoOf(produto: nat, materiais: set<nat>, ins: Json): (r: Result<seq<InsumoRow>, ApiError>)
    ensures r.Ok? <==> ins.JObj? && IdOf(Get(ins.fields, "material_id", JNull)).Some?
                       && IdOf(Get(ins.fields, "material_id", JNull)).value in materiais
                       && NullFree(ins.fields, {"quantidade"})
  {
    if !ins.JObj? then Err(NotADict)
    else
      var mat := IdOf(Get(ins.fields, "material_id", JNull));
      if mat.None? || mat.value !in materiais then Err(NotFound)
      else
        var q := Get(ins.fields, "quantidade", JNum(0.0));
        if q == JNull then Err(NullColumn) else Ok([InsumoRow(produto, mat.value, q)])
  }

  function InsumoStep(produto: nat, materiais: set<nat>): Json -> Result<seq<InsumoRow>, ApiError> {
    ins => InsumoOf(produto, materiais, ins)
  }

  /** `MoldeDetalhe.objects.filter(molde=..., nome_original=...).first()` over the first n rows. */
  function FirstDetalhe(detalhes: seq<DetalheRow>, molde: nat, nome: Json, n: nat): (r: Option<nat>)
    requires n <= |detalhes|
    ensures r.Some? ==> r.value < n && detalhes[r.value].molde == molde && detalhes[r.value].nomeOriginal == nome
    ensures r.Some? ==> forall k :: 0 <= k < r.value ==> !(detalhes[k].molde == molde && detalhes[k].nomeOriginal == nome)
    ensures r.None? <==> forall k :: 0 <= k < n ==> !(detalhes[k].molde == molde && detalhes[k].nomeOriginal == nome)
  {
    if n == 0 then None
    else
      var earlier := FirstDetalhe(detalhes, molde, nome, n - 1);
      if earlier.Some? then earlier
      else if detalhes[n - 1].molde == molde && detalhes[n - 1].nomeOriginal == nome then Some(n - 1)
      else None
  }

  /**
   * One posted piece of `create_produto_padrao`: with a truthy, existing material it gives
   * the piece's material row, its consumption the area converted from mm² to m²; with an
   * unknown material the piece is skipped, the `DoesNotExist` being swallowed.
   */
  function ItemOf(produto: nat, molde: nat, materiais: set<nat>, detalhes: seq<DetalheRow>, p: Json)
    : (r: Result<seq<ItemMaterialRow>, ApiError>)
    ensures r.Ok? ==> |r.value| <= 1
    ensures r.Ok? && |r.value| == 1 ==> r.value[0].material in materiais && r.value[0].tipo == TecidoPadrao
  {
    if !p.JObj? then Err(NotADict)
    else
      var f := p.fields;
      var matJson := Get(f, "material_id", JNull);
      if !Truthy(matJson) then Ok([])
      else
        var mat := IdOf(matJson);
        if mat.None? || mat.value !in materiais then Ok([])
        else
          var detalhe := FirstDetalhe(detalhes, molde, Get(f, "nome", JNull), |detalhes|);
          var area := Number(Get(f, "area", JNum(0.0)));
          if area.None? then Err(NotANumber)
          else Ok([ItemMaterialRow(produto, detalhe, mat.value, area.value / 1000000.0, TecidoPadrao)])
  }

  function ItemStep(produto: nat, molde: nat, materiais: set<nat>, detalhes: seq<DetalheRow>)
    : Json -> Result<seq<ItemMaterialRow>, ApiError>
  {
    p => ItemOf(produto, molde, materiais, detalhes, p)
  }

  /** A piece's fabric consumption is its area in mm² divided by a million, i.e. in m². */
  lemma ItemQuantityIsSquareMetres(produto: nat, molde: nat, materiais: set<nat>, detalhes: seq<DetalheRow>,
                                   f: map<string, Json>, mat: nat, area: real)
    requires "material_id" in f && f["material_id"] == JNum(mat as real) && mat in materiais
    requires mat != 0 && "area" in f && f["area"] == JNum(area)
    ensures var r := ItemOf(produto, molde, materiais, detalhes, JObj(f));
            r.Ok? && |r.value| == 1 && r.value[0].quantidade * 1000000.0 == area && r.value[0].material == mat
  {
    assert JNum(mat as real).n.Floor == mat;
  }

  /** A piece whose material does not exist creates nothing and does not fail the request. */
  lemma UnknownMaterialSkipped(produto: nat, molde: nat, materiais: set<nat>, detalhes: seq<DetalheRow>,
                               f: map<string, Json>, mat: nat)
    requires "material_id" in f && f["material_id"] == JNum(mat as real) && mat !in materiais
    ensures ItemOf(produto, molde, materiais, detalhes, JObj(f)) == Ok([])
  {
    assert JNum(mat as real).n.Floor == mat;
  }

  /** What `create_produto_padrao` creates: the product, its insumos and its piece materials. */
  function CreateProdutoRows(data: Json, moldes: nat, materiais: set<nat>, detalhes: seq<DetalheRow>, produto: nat)
    : Result<(ProdutoRow, seq<InsumoRow>, seq<ItemMaterialRow>), ApiError>
  {
    if !data.JObj? then Err(NotADict)
    else
      var f := data.fields;
      var molde := IdOf(Get(f, "molde_id", JNull));
      if molde.None? || molde.value >= moldes then Err(NotFound)
      else
        var row := ProdutoRow(Get(f, "nome", JNull), molde.value, Get(f, "eh_padrao", JBool(true)), 0.0);
        if row.nome == JNull || row.ehPadrao == JNull then Err(NullColumn)
        else match Elements(Get(f, "insumos", JArr([])))
        case Err(e) => Err(e)
        case Ok(insumos) =>
          match Collect(InsumoStep(produto, materiais), insumos)
          case Err(e) => Err(e)
          case Ok(ins) =>
            match Elements(Get(f, "pecas", JArr([])))
            case Err(e) => Err(e)
            case Ok(pecas) =>
              match Collect(ItemStep(produto, molde.value, materiais, detalhes), pecas)
              case Err(e) => Err(e)
              case Ok(items) => Ok((row, ins, items))
  }

  /** A product names an existing mould, is standard unless told otherwise, and costs 0. */
  lemma ProdutoDefaults(data: Json, moldes: nat, materiais: set<nat>, detalhes: seq<DetalheRow>, produto: nat)
    requires CreateProdutoRows(data, moldes, materiais, detalhes, produto).Ok?
    ensures var row := CreateProdutoRows(data, moldes, materiais, detalhes, produto).value.0;
            row.molde < moldes && row.preco == 0.0
            && row.nome != JNull && row.nome == data.fields["nome"]
            && ("eh_padrao" !in data.fields ==> row.ehPadrao == JBool(true))
  {
  }

  /** A product document without a name, or with a `null` one, fails: `Produto.nome` is NOT NULL. */
  lemma UnnamedProdutoFails(f: map<string, Json>, moldes: nat, materiais: set<nat>, detalhes: seq<DetalheRow>, produto: nat)
    requires "nome" !in f || f["nome"] == JNull
    ensures CreateProdutoRows(JObj(f), moldes, materiais, detalhes, produto).Err?
    ensures var m := IdOf(Get(f, "molde_id", JNull));
            m.Some? && m.value < moldes ==> CreateProdutoRows(JObj(f), moldes, materiais, detalhes, produto) == Err(NullColumn)
  {
  }

  // ---------------------------------------------------------------------------------------
  // The tables the endpoints write

  class ApiDb {
    var moldes: seq<MoldeRow>
    var detalhes: seq<DetalheRow>
    var produtos: seq<ProdutoRow>
    var insumos: seq<InsumoRow>
    var itensMaterial: seq<ItemMaterialRow>
    var materiais: set<nat>

    /** Material ids start at 1, so `if mat_id:` never skips an existing material. */
    constructor (materiais: set<nat>)
      requires 0 !in materiais
      ensures this.materiais == materiais
      ensures moldes == [] && detalhes == [] && produtos == [] && insumos == [] && itensMaterial == []
    {
      this.materiais := materiais;
      moldes := [];
      detalhes := [];
      produtos := [];
      insumos := [];
      itensMaterial := [];
    }

    /**
     * `create_molde`: on success the mould and its pieces are appended and the new
     * mould's id is answered; on any failure nothing is written.
     */
    method CreateMolde(req: Request, parse: string -> Option<Json>) returns (r: Result<nat, ApiError>)
      modifies this
      ensures parse(req.body).None? ==> r == Err(InvalidJson)
      ensures parse(req.body).Some? ==>
                var rows := CreateMoldeRows(parse(req.body).value, |old(moldes)|);
                (r.Ok? <==> rows.Ok?)
                && (rows.Err? ==> r == Err(rows.error))
                && (rows.Ok? ==> r == Ok(|old(moldes)|)
                                 && moldes == old(moldes) + [rows.value.0]
                                 && detalhes == old(detalhes) + rows.value.1)
      ensures r.Err? ==> moldes == old(moldes) && detalhes == old(detalhes)
      ensures produtos == old(produtos) && insumos == old(insumos) && itensMaterial == old(itensMaterial)
      ensures materiais == old(materiais)
    {
      var parsed := parse(req.body);
      if parsed.None? {
        return Err(InvalidJson);
      }
      var data := parsed.value;
      if !data.JObj? {
        return Err(NotADict);
      }
      var f := data.fields;
      var arquivo := Get(f, "arquivo_json", JNull);
      var imagem := Get(f, "imagem", JNull);
      var row := MoldeRow(Get(f, "nome", JNull),
                          if Truthy(arquivo) then Some(arquivo) else None,
                          if Truthy(imagem) then Some(imagem) else None);
      if row.nome == JNull {
        return Err(NullColumn);
      }
      var id := |moldes|;
      var pieces := Elements(Get(f, "pecas", JArr([])));
      if pieces.Err? {
        return Err(pieces.error);
      }
      var ds := CollectLoop(DetalheStep(id), pieces.value);
      if ds.Err? {
        return Err(ds.error);
      }
      moldes := moldes + [row];
      detalhes := detalhes + ds.value;
      r := Ok(id);
    }

    /**
     * `create_produto_padrao`: on success the product, its insumos and its piece materials
     * are appended and the new product's id is answered; on any failure nothing is written.
     */
    method CreateProdutoPadrao(req: Request, parse: string -> Option<Json>) returns (r: Result<nat, ApiError>)
      modifies this
      ensures parse(req.body).None? ==> r == Err(InvalidJson)
      ensures parse(req.body).Some? ==>
                var rows := CreateProdutoRows(parse(req.body).value, |old(moldes)|, old(materiais), old(detalhes), |old(produtos)|);
                (r.Ok? <==> rows.Ok?)
                && (rows.Err? ==> r == Err(rows.error))
                && (rows.Ok? ==> r == Ok(|old(produtos)|)
                                 && produtos == old(produtos) + [rows.value.0]
                                 && insumos == old(insumos) + rows.value.1
                                 && itensMaterial == old(itensMaterial) + rows.value.2)
      ensures r.Err? ==> produtos == old(produtos) && insumos == old(insumos) && itensMaterial == old(itensMaterial)
      ensures moldes == old(moldes) && detalhes == old(detalhes) && materiais == old(materiais)
    {
      var parsed := parse(req.body);
      if parsed.None? {
        return Err(InvalidJson);
      }
      var data := parsed.value;
      if !data.JObj? {
        return Err(NotADict);
      }
      var f := data.fields;
      var molde := IdOf(Get(f, "molde_id", JNull));
      if molde.None? || molde.value >= |moldes| {
        return Err(NotFound);
      }
      var id := |produtos|;
      var row := ProdutoRow(Get(f, "nome", JNull), molde.value, Get(f, "eh_padrao", JBool(true)), 0.0);
      if row.nome == JNull || row.ehPadrao == JNull {
        return Err(NullColumn);
      }
      var insList := Elements(Get(f, "insumos", JArr([])));
      if insList.Err? {
        return Err(insList.error);
      }
      var ins := CollectLoop(InsumoStep(id, materiais), insList.value);
      if ins.Err? {
        return Err(ins.error);
      }
      var pecas := Elements(Get(f, "pecas", JArr([])));
      if pecas.Err? {
        return Err(pecas.error);
      }
      var items := CollectLoop(ItemStep(id, molde.value, materiais, detalhes), pecas.value);
      if items.Err? {
        return Err(items.error);
      }
      produtos := produtos + [row];
      insumos := insumos + ins.value;
      itensMaterial := itensMaterial + items.value;
      r := Ok(id);
    }
  }
}
