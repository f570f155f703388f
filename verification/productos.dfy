/** The products slice: the listing query and its query string, the `setQuery`
    merge, the fetch lifecycle, and the thunks with their missing-token check,
    confirmation and loading bracket. */
module Productos {
  import opened Wrappers
  import opened Text
  import opened JsonValues
  import opened Api
  import opened Effects
  import Ui

  // ---------------------------------------------------------------------------
  // Language and messages

  /** The language of the messages, read defensively from the untyped `ui` slice:
      the first of `lang`, `language`, `locale` that is neither `null` nor missing
      decides, and only exactly "en" gives English. `GetLangOfUiSlice` and
      `GetLangDefaults` relate it to the slice the store actually holds. */
  function GetLang(ui: Option<Json>): (l: Ui.Lang)
    ensures var raw := Coalesce(Coalesce(PropOpt(ui, "lang"), PropOpt(ui, "language")), PropOpt(ui, "locale"));
      l == Ui.En <==> raw == Some(JStr("en"))
    ensures ui.None? ==> l == Ui.Es
    ensures !Nullish(PropOpt(ui, "lang")) ==> (l == Ui.En <==> PropOpt(ui, "lang") == Some(JStr("en")))
    ensures Nullish(PropOpt(ui, "lang")) && !Nullish(PropOpt(ui, "language")) ==>
      (l == Ui.En <==> PropOpt(ui, "language") == Some(JStr("en")))
    ensures Nullish(PropOpt(ui, "lang")) && Nullish(PropOpt(ui, "language")) ==>
      (l == Ui.En <==> PropOpt(ui, "locale") == Some(JStr("en")))
  {
    var raw := Coalesce(Coalesce(PropOpt(ui, "lang"), PropOpt(ui, "language")), PropOpt(ui, "locale"));
    if raw == Some(JStr("en")) then Ui.En else Ui.Es
  }

  function LangJson(l: Ui.Lang): Json
  {
    if l == Ui.En then JStr("en") else JStr("es")
  }

  function OptIdJson(id: Option<int>): Json
  {
    if id.Some? then JNum(Finite(id.value)) else JNull
  }

  /** The `ui` slice as it sits in the store's state. */
  function UiJson(s: Ui.UiState): Json
  {
    JObj(map["lang" := LangJson(s.lang),
             "theme" := JStr(if s.theme == Ui.Dark then "dark" else "light"),
             "loadingCount" := JNum(Finite(s.loadingCount)),
             "loginOpen" := JBool(s.loginOpen),
             "deleteCategoriaId" := OptIdJson(s.deleteCategoriaId),
             "deleteProductoId" := OptIdJson(s.deleteProductoId)])
  }

  /** Reading the language back from the real `ui` slice gives its language. */
  lemma GetLangOfUiSlice(s: Ui.UiState)
    ensures GetLang(Some(UiJson(s))) == s.lang
  {
    assert PropOpt(Some(UiJson(s)), "lang") == Some(LangJson(s.lang));
  }

  /** With no `ui` slice at all, or an unrecognised language, messages are Spanish. */
  lemma GetLangDefaults(ui: Option<Json>, other: string)
    requires other != "en" && other != "es"
    ensures GetLang(None) == Ui.Es
    ensures GetLang(Some(JObj(map["lang" := JStr(other)]))) == Ui.Es
    ensures GetLang(Some(JObj(map["lang" := JNull, "language" := JStr("en")]))) == Ui.En
  {
    var m := map["lang" := JNull, "language" := JStr("en")];
    assert PropOpt(Some(JObj(m)), "lang") == Some(JNull);
    assert PropOpt(Some(JObj(m)), "language") == Some(JStr("en"));
  }

  datatype Copy = Copy(missingToken: string, created: string, updated: string,
                       deleted: string, deleteTitle: string)

  function CopyFor(l: Ui.Lang): Copy
  {
    if l == Ui.En then
      Copy("Missing token (you must sign in).", "Product created", "Product updated",
           "Product deleted", "Delete product")
    else
      Copy("Falta el token (debes iniciar sesión).", "Producto creado", "Producto actualizado",
           "Producto eliminado", "Eliminar producto")
  }

  function DeleteText(l: Ui.Lang, id: int): string
  {
    if l == Ui.En then "Are you sure you want to delete product #" + IntToString(id) + "? (soft delete)"
    else "¿Seguro que deseas eliminar el producto #" + IntToString(id) + "? (soft delete)"
  }

  // ---------------------------------------------------------------------------
  // The query and its query string

  datatype SortDir = Asc | Desc

  datatype Query = Query(
    page: int, pageSize: int, search: Option<string>,
    idCategoria: Option<int>, precioMin: Option<int>, precioMax: Option<int>,
    activo: Option<bool>, sortBy: string, sortDir: SortDir)

  const InitialQuery := Query(1, 10, None, None, None, None, None, "fechaCreacion", Desc)

  function DirString(d: SortDir): string
  {
    if d == Asc then "asc" else "desc"
  }

  function BoolString(b: bool): string
  {
    if b then "true" else "false"
  }

  function OptIntString(v: Option<int>): Option<string>
  {
    if v.Some? then Some(IntToString(v.value)) else None
  }

  /** Every parameter `fetchProductos` may send, in the order it sets them. */
  const KeyOrder := ["page", "pageSize", "search", "idCategoria", "precioMin", "precioMax",
                     "activo", "sortBy", "sortDir"]

  /** The position of each parameter in the query string. */
  function Rank(key: string): nat
  {
    if key == "page" then 0 else if key == "pageSize" then 1 else if key == "search" then 2
    else if key == "idCategoria" then 3 else if key == "precioMin" then 4
    else if key == "precioMax" then 5 else if key == "activo" then 6
    else if key == "sortBy" then 7 else if key == "sortDir" then 8 else 9
  }

  lemma KeyOrderRanks()
    ensures |KeyOrder| == 9
    ensures forall i :: 0 <= i < |KeyOrder| ==> Rank(KeyOrder[i]) == i
  {
  }

  /** The value each parameter of `KeyOrder` takes, or `None` when it is not set:
      `search` only when non-empty, the nullable filters only when non-null. */
  function Values(q: Query): (vs: seq<Option<string>>)
    ensures |vs| == |KeyOrder|
  {
    [Some(IntToString(q.page)), Some(IntToString(q.pageSize)),
     if TruthyStr(q.search) then q.search else None,
     OptIntString(q.idCategoria), OptIntString(q.precioMin), OptIntString(q.precioMax),
     if q.activo.Some? then Some(BoolString(q.activo.value)) else None,
     Some(q.sortBy), Some(DirString(q.sortDir))]
  }

  /** The set parameters, in key order. */
  function Present(keys: seq<string>, vals: seq<Option<string>>): (p: seq<(string, string)>)
    requires |keys| == |vals|
    ensures |p| <= |keys|
  {
    if |keys| == 0 then []
    else (if vals[0].Some? then [(keys[0], vals[0].value)] else []) + Present(keys[1..], vals[1..])
  }

  /** `URLSearchParams.get(key)`: the first value under `key`. */
  function Lookup(params: seq<(string, string)>, key: string): (v: Option<string>)
    ensures v.None? <==> forall i :: 0 <= i < |params| ==> params[i].0 != key
  {
    if |params| == 0 then None
    else if params[0].0 == key then Some(params[0].1)
    else Lookup(params[1..], key)
  }

  /** Keys ranked above `r` stay above `r` once the unset ones are dropped. */
  lemma {:induction false} PresentAbove(keys: seq<string>, vals: seq<Option<string>>, r: int)
    requires |keys| == |vals|
    requires forall i :: 0 <= i < |keys| ==> Rank(keys[i]) > r
    ensures forall i :: 0 <= i < |Present(keys, vals)| ==> Rank(Present(keys, vals)[i].0) > r
    decreases |keys|
  {
    if |keys| > 0 {
      PresentAbove(keys[1..], vals[1..], r);
    }
  }

  /** A list in key order stays in key order below a lower-ranked head. */
  lemma ConsOrdered(head: (string, string), rest: seq<(string, string)>)
    requires forall i, j :: 0 <= i < j < |rest| ==> Rank(rest[i].0) < Rank(rest[j].0)
    requires forall i :: 0 <= i < |rest| ==> Rank(head.0) < Rank(rest[i].0)
    ensures forall i, j :: 0 <= i < j < |[head] + rest| ==>
              Rank(([head] + rest)[i].0) < Rank(([head] + rest)[j].0)
  {
    var p := [head] + rest;
    forall i, j | 0 <= i < j < |p| ensures Rank(p[i].0) < Rank(p[j].0) {
      assert p[j] == rest[j - 1];
      if i > 0 {
        assert p[i] == rest[i - 1];
      }
    }
  }

  /** Dropping the unset parameters keeps the key order. */
  lemma {:induction false} PresentOrdered(keys: seq<string>, vals: seq<Option<string>>)
    requires |keys| == |vals|
    requires forall i, j :: 0 <= i < j < |keys| ==> Rank(keys[i]) < Rank(keys[j])
    ensures forall i, j :: 0 <= i < j < |Present(keys, vals)| ==>
              Rank(Present(keys, vals)[i].0) < Rank(Present(keys, vals)[j].0)
    decreases |keys|
  {
    if |keys| > 0 {
      var rest := Present(keys[1..], vals[1..]);
      PresentOrdered(keys[1..], vals[1..]);
      if vals[0].Some? {
        PresentAbove(keys[1..], vals[1..], Rank(keys[0]));
        ConsOrdered((keys[0], vals[0].value), rest);
        assert Present(keys, vals) == [(keys[0], vals[0].value)] + rest;
      } else {
        assert Present(keys, vals) == rest;
      }
    }
  }

  /** Looking a key up in `Present` finds its value, or nothing when it was not set. */
  lemma {:induction false} LookupPresent(keys: seq<string>, vals: seq<Option<string>>, n: nat)
    requires |keys| == |vals| && n < |keys|
    requires forall i, j :: 0 <= i < j < |keys| ==> Rank(keys[i]) < Rank(keys[j])
    ensures Lookup(Present(keys, vals), keys[n]) == vals[n]
    decreases |keys|
  {
    var rest := Present(keys[1..], vals[1..]);
    var p := Present(keys, vals);
    if n == 0 {
      if vals[0].None? {
        PresentAbove(keys[1..], vals[1..], Rank(keys[0]));
        assert p == rest;
      }
    } else {
      LookupPresent(keys[1..], vals[1..], n - 1);
      assert Rank(keys[0]) < Rank(keys[n]);
      if vals[0].Some? {
        assert p[0].0 != keys[n];
        assert p[1..] == rest;
      } else {
        assert p == rest;
      }
    }
  }

  /** The parameters `fetchProductos` sends, as an ordered key/value list. */
  function QueryParams(q: Query): (p: seq<(string, string)>)
    ensures forall i, j :: 0 <= i < j < |p| ==> Rank(p[i].0) < Rank(p[j].0)
    ensures forall n :: 0 <= n < |KeyOrder| ==> Lookup(p, KeyOrder[n]) == Values(q)[n]
  {
    KeyOrderRanks();
    PresentOrdered(KeyOrder, Values(q));
    PresentAbove(KeyOrder, Values(q), -1);
    forall n | 0 <= n < |KeyOrder| ensures Lookup(Present(KeyOrder, Values(q)), KeyOrder[n]) == Values(q)[n] {
      LookupPresent(KeyOrder, Values(q), n);
    }
    Present(KeyOrder, Values(q))
  }

  /** Which parameters are present, and with what text. */
  lemma QueryParamsPresence(q: Query)
    ensures Lookup(QueryParams(q), "page") == Some(IntToString(q.page))
    ensures Lookup(QueryParams(q), "pageSize") == Some(IntToString(q.pageSize))
    ensures Lookup(QueryParams(q), "search") == (if TruthyStr(q.search) then q.search else None)
    ensures Lookup(QueryParams(q), "idCategoria") == OptIntString(q.idCategoria)
    ensures Lookup(QueryParams(q), "precioMin") == OptIntString(q.precioMin)
    ensures Lookup(QueryParams(q), "precioMax") == OptIntString(q.precioMax)
    ensures Lookup(QueryParams(q), "activo") ==
      (if q.activo.Some? then Some(BoolString(q.activo.value)) else None)
    ensures Lookup(QueryParams(q), "sortBy") == Some(q.sortBy)
    ensures Lookup(QueryParams(q), "sortDir") == Some(DirString(q.sortDir))
  {
    var p := QueryParams(q);
    assert Lookup(p, KeyOrder[0]) == Values(q)[0];
    assert Lookup(p, KeyOrder[1]) == Values(q)[1];
    assert Lookup(p, KeyOrder[2]) == Values(q)[2];
    assert Lookup(p, KeyOrder[3]) == Values(q)[3];
    assert Lookup(p, KeyOrder[4]) == Values(q)[4];
    assert Lookup(p, KeyOrder[5]) == Values(q)[5];
    assert Lookup(p, KeyOrder[6]) == Values(q)[6];
    assert Lookup(p, KeyOrder[7]) == Values(q)[7];
    assert Lookup(p, KeyOrder[8]) == Values(q)[8];
  }

  function ParseDir(t: Option<string>): Option<SortDir>
  {
    if t == Some("asc") then Some(Asc) else if t == Some("desc") then Some(Desc) else None
  }

  function ParseBool(t: Option<string>): Option<bool>
  {
    if t == Some("true") then Some(true) else if t == Some("false") then Some(false) else None
  }

  function ParseOptInt(t: Option<string>): Option<int>
  {
    if t.Some? then ParseInt(t.value) else None
  }

  /** Reads a query back from its parameters; the ones `fetchProductos` always sends
      must be there and well formed, the optional ones are read when present. */
  function ParseQuery(p: seq<(string, string)>): Option<Query>
  {
    var page := ParseOptInt(Lookup(p, "page"));
    var size := ParseOptInt(Lookup(p, "pageSize"));
    var sortBy := Lookup(p, "sortBy");
    var dir := ParseDir(Lookup(p, "sortDir"));
    if page.None? || size.None? || sortBy.None? || dir.None? then None
    else
      Some(Query(page.value, size.value, Lookup(p, "search"),
                 ParseOptInt(Lookup(p, "idCategoria")), ParseOptInt(Lookup(p, "precioMin")),
                 ParseOptInt(Lookup(p, "precioMax")), ParseBool(Lookup(p, "activo")),
                 sortBy.value, dir.value))
  }

  lemma ParseOptIntString(v: Option<int>)
    ensures ParseOptInt(OptIntString(v)) == v
  {
    if v.Some? {
      ParseIntToString(v.value);
    }
  }

  /** The query string loses nothing but the difference between an empty and an
      absent search. */
  lemma QueryParamsRoundTrip(q: Query)
    ensures ParseQuery(QueryParams(q)) == Some(q.(search := if TruthyStr(q.search) then q.search else None))
  {
    var p := QueryParams(q);
    QueryParamsPresence(q);
    ParseOptIntString(Some(q.page));
    ParseOptIntString(Some(q.pageSize));
    ParseOptIntString(q.idCategoria);
    ParseOptIntString(q.precioMin);
    ParseOptIntString(q.precioMax);
    assert ParseDir(Lookup(p, "sortDir")) == Some(q.sortDir);
    assert ParseBool(Lookup(p, "activo")) == q.activo;
  }

  // ---------------------------------------------------------------------------
  // setQuery

  /** `Partial<Query>`: `None` is an absent key; for nullable keys `Some(None)` is `null`. */
  datatype PartialQuery = PartialQuery(
    page: Option<int>, pageSize: Option<int>, search: Option<Option<string>>,
    idCategoria: Option<Option<int>>, precioMin: Option<Option<int>>, precioMax: Option<Option<int>>,
    activo: Option<Option<bool>>, sortBy: Option<string>, sortDir: Option<SortDir>)

  const NoChange := PartialQuery(None, None, None, None, None, None, None, None, None)

  /** `{ ...query, ...payload }`. */
  function SetQuery(q: Query, p: PartialQuery): Query
  {
    Query(p.page.GetOr(q.page), p.pageSize.GetOr(q.pageSize), p.search.GetOr(q.search),
          p.idCategoria.GetOr(q.idCategoria), p.precioMin.GetOr(q.precioMin),
          p.precioMax.GetOr(q.precioMax), p.activo.GetOr(q.activo),
          p.sortBy.GetOr(q.sortBy), p.sortDir.GetOr(q.sortDir))
  }

  /** Every key of a query, as a payload. */
  function Whole(q: Query): PartialQuery
  {
    PartialQuery(Some(q.page), Some(q.pageSize), Some(q.search), Some(q.idCategoria),
                 Some(q.precioMin), Some(q.precioMax), Some(q.activo), Some(q.sortBy), Some(q.sortDir))
  }

  /** Spreading `b` after `a`. */
  function Then<T>(a: Option<T>, b: Option<T>): Option<T>
  {
    if b.Some? then b else a
  }

  function MergePartial(a: PartialQuery, b: PartialQuery): PartialQuery
  {
    PartialQuery(Then(a.page, b.page), Then(a.pageSize, b.pageSize), Then(a.search, b.search),
                 Then(a.idCategoria, b.idCategoria), Then(a.precioMin, b.precioMin),
                 Then(a.precioMax, b.precioMax), Then(a.activo, b.activo),
                 Then(a.sortBy, b.sortBy), Then(a.sortDir, b.sortDir))
  }

  /** The merge: payload keys win, absent keys keep the query's value, and an explicit
      `null` does clear a nullable key. */
  lemma SetQueryMerges(q: Query, p: PartialQuery)
    ensures p.search.Some? ==> SetQuery(q, p).search == p.search.value
    ensures p.search.None? ==> SetQuery(q, p).search == q.search
    ensures p.idCategoria == Some(None) ==> SetQuery(q, p).idCategoria.None?
    ensures SetQuery(q, NoChange) == q
    ensures SetQuery(q, Whole(q)) == q
  {
  }

  /** A full payload replaces the whole query, whatever it was. */
  lemma SetQueryWhole(q: Query, q2: Query)
    ensures SetQuery(q, Whole(q2)) == q2
  {
  }

  lemma SetQueryIdempotent(q: Query, p: PartialQuery)
    ensures SetQuery(SetQuery(q, p), p) == SetQuery(q, p)
  {
  }

  /** Two `setQuery` calls in a row are one with the payloads spread together. */
  lemma SetQueryCompose(q: Query, a: PartialQuery, b: PartialQuery)
    ensures SetQuery(SetQuery(q, a), b) == SetQuery(q, MergePartial(a, b))
  {
  }

  // ---------------------------------------------------------------------------
  // The slice

  datatype State = State(query: Query, data: Json, loading: bool)

  /** The page shown when the server answered with nothing. */
  function EmptyPage(q: Query): Json
  {
    JObj(map["items" := JArr([]), "total" := JNum(Finite(0)),
             "page" := JNum(Finite(q.page)), "pageSize" := JNum(Finite(q.pageSize))])
  }

  const Initial := State(InitialQuery, EmptyPage(InitialQuery), false)

  function SetQueryReducer(s: State, p: PartialQuery): (r: State)
    ensures r.data == s.data && r.loading == s.loading
    ensures r.query == SetQuery(s.query, p)
  {
    s.(query := SetQuery(s.query, p))
  }

  /** `fetchProductos.pending`: the list shows as loading, and the page and query stay. */
  function FetchPending(s: State): (r: State)
    ensures r.loading && r.data == s.data && r.query == s.query
  {
    s.(loading := true)
  }

  /** `fetchProductos.fulfilled`; `payload` is the value the request resolved to. */
  function FetchFulfilled(s: State, payload: Option<Json>): (r: State)
    ensures !r.loading && r.query == s.query
    ensures !Nullish(payload) ==> r.data == payload.value
    ensures Nullish(payload) ==>
      Prop(r.data, "items") == Some(JArr([])) && Prop(r.data, "total") == Some(JNum(Finite(0)))
      && Prop(r.data, "page") == Some(JNum(Finite(s.query.page)))
      && Prop(r.data, "pageSize") == Some(JNum(Finite(s.query.pageSize)))
  {
    s.(loading := false, data := if Nullish(payload) then EmptyPage(s.query) else payload.value)
  }

  /** `fetchProductos.rejected`: loading stops, and the page shown and the query stay. */
  function FetchRejected(s: State): (r: State)
    ensures !r.loading && r.data == s.data && r.query == s.query
  {
    s.(loading := false)
  }

  /** A fetch that settles, either way, ends with the list not loading and the query as
      it was; a rejected one also keeps the page shown. */
  lemma FetchLifecycle(s: State, payload: Option<Json>)
    ensures !FetchFulfilled(FetchPending(s), payload).loading
    ensures FetchRejected(FetchPending(s)) == s.(loading := false)
    ensures FetchFulfilled(FetchPending(s), payload).query == s.query
  {
  }

  // ---------------------------------------------------------------------------
  // Thunks

  /** `ProductoCreateUpdateDto`; a `None` description is `null`. */
  datatype ProductoDto = ProductoDto(
    sku: string, nombre: string, descripcion: Option<string>,
    precio: Num, stock: Num, idCategoria: Num, activo: bool)

  function DtoJson(d: ProductoDto): Json
  {
    JObj(map["sku" := JStr(d.sku), "nombre" := JStr(d.nombre),
             "descripcion" := if d.descripcion.Some? then JStr(d.descripcion.value) else JNull,
             "precio" := JNum(d.precio), "stock" := JNum(d.stock),
             "idCategoria" := JNum(d.idCategoria), "activo" := JBool(d.activo)])
  }

  /** How a thunk fails when there is no token. */
  function NoToken(ui: Option<Json>): Thrown
  {
    JsError("Error", CopyFor(GetLang(ui)).missingToken)
  }

  /** `fetchProductos`: one GET with the query's parameters. */
  function FetchThunk(token: Option<string>, ui: Option<Json>, q: Query, reply: Outcome<Reply>)
    : (t: Trace<Reply>)
    ensures !TruthyStr(token) ==> t == Trace([], Threw(NoToken(ui)))
    ensures TruthyStr(token) ==>
      t.outcome == reply && Sends(t.effects) == 1 && |t.effects| == 1
      && t.effects[0] == Send("/productos", QueryParams(q), Authed(Get, NoBody, token))
  {
    if !TruthyStr(token) then Trace([], Threw(NoToken(ui)))
    else
      var e := Send("/productos", QueryParams(q), Authed(Get, NoBody, token));
      assert Sends([e]) == 1 + Sends([e][1..]);
      Trace([e], reply)
  }

  /** `createProducto`: POST, toast, re-fetch, inside the loading bracket. */
  function CreateThunk(token: Option<string>, ui: Option<Json>, dto: ProductoDto,
                       reply: Outcome<Reply>, refetchError: Option<Thrown>): (t: Trace<bool>)
    ensures !TruthyStr(token) ==> t == Trace([], Threw(NoToken(ui)))
    ensures TruthyStr(token) ==>
      Balanced(t.effects) && Sends(t.effects) == 1 && |t.effects| >= 3
      && t.effects[1] == Send("/productos", [], Authed(Post, JsonBody(DtoJson(dto)), token))
      && (t.outcome == Returned(true) <==> reply.Returned? && refetchError.None?)
      && (Toast(CopyFor(GetLang(ui)).created) in t.effects <==> reply.Returned?)
    ensures TruthyStr(token) && reply.Threw? ==>
      t == Trace([BeginLoading, Send("/productos", [], Authed(Post, JsonBody(DtoJson(dto)), token)), EndLoading],
                 Threw(reply.error))
    ensures TruthyStr(token) && reply.Returned? ==>
      t.effects == [BeginLoading, Send("/productos", [], Authed(Post, JsonBody(DtoJson(dto)), token)),
                    Toast(CopyFor(GetLang(ui)).created), RefetchProductos, EndLoading]
    ensures TruthyStr(token) && reply.Returned? && refetchError.Some? ==> t.outcome == Threw(refetchError.value)
  {
    if !TruthyStr(token) then Trace([], Threw(NoToken(ui)))
    else
      var send := Send("/productos", [], Authed(Post, JsonBody(DtoJson(dto)), token));
      var after := [Toast(CopyFor(GetLang(ui)).created), RefetchProductos];
      Done(Bracket(send, reply, after, refetchError))
  }

  /** `updateProducto`: PUT to the product's path, toast, re-fetch, inside the bracket. */
  function UpdateThunk(token: Option<string>, ui: Option<Json>, id: int, dto: ProductoDto,
                       reply: Outcome<Reply>, refetchError: Option<Thrown>): (t: Trace<bool>)
    ensures !TruthyStr(token) ==> t == Trace([], Threw(NoToken(ui)))
    ensures TruthyStr(token) ==>
      Balanced(t.effects) && Sends(t.effects) == 1 && |t.effects| >= 3
      && t.effects[1] == Send("/productos/" + IntToString(id), [], Authed(Put, JsonBody(DtoJson(dto)), token))
      && (t.outcome == Returned(true) <==> reply.Returned? && refetchError.None?)
      && (Toast(CopyFor(GetLang(ui)).updated) in t.effects <==> reply.Returned?)
    ensures TruthyStr(token) && reply.Threw? ==>
      t == Trace([BeginLoading, Send("/productos/" + IntToString(id), [], Authed(Put, JsonBody(DtoJson(dto)), token)),
                  EndLoading], Threw(reply.error))
    ensures TruthyStr(token) && reply.Returned? ==>
      t.effects == [BeginLoading, Send("/productos/" + IntToString(id), [], Authed(Put, JsonBody(DtoJson(dto)), token)),
                    Toast(CopyFor(GetLang(ui)).updated), RefetchProductos, EndLoading]
    ensures TruthyStr(token) && reply.Returned? && refetchError.Some? ==> t.outcome == Threw(refetchError.value)
  {
    if !TruthyStr(token) then Trace([], Threw(NoToken(ui)))
    else
      var send := Send("/productos/" + IntToString(id), [], Authed(Put, JsonBody(DtoJson(dto)), token));
      var after := [Toast(CopyFor(GetLang(ui)).updated), RefetchProductos];
      Done(Bracket(send, reply, after, refetchError))
  }

  /** The confirmed part of `deleteProducto`: the question `title`/`text`, then the
      bracketed DELETE, the `deleted` toast and the unwrapped re-fetch. */
  function ConfirmedDelete(token: Option<string>, id: int, title: string, text: string, deleted: string,
                           reply: Outcome<Reply>, refetchError: Option<Thrown>): (t: Trace<bool>)
    ensures Balanced(t.effects) && Sends(t.effects) == 1
    ensures reply.Threw? ==>
      t == Trace([Confirm(title, text), BeginLoading,
                  Send("/productos/" + IntToString(id), [], Authed(Delete, NoBody, token)), EndLoading],
                 Threw(reply.error))
    ensures reply.Returned? ==>
      t.effects == [Confirm(title, text), BeginLoading,
                    Send("/productos/" + IntToString(id), [], Authed(Delete, NoBody, token)),
                    Toast(deleted), RefetchProductos, EndLoading]
      && t.outcome == (if refetchError.Some? then Threw(refetchError.value) else Returned(true))
  {
    var ask := Confirm(title, text);
    var send := Send("/productos/" + IntToString(id), [], Authed(Delete, NoBody, token));
    var b := Bracket(send, reply, [Toast(deleted), RefetchProductos], refetchError);
    if reply.Threw? then
      assert [ask] + b.effects == [ask, BeginLoading, send, EndLoading];
      AfterConfirm(ask, Done(b))
    else
      assert b.effects == [BeginLoading, send] + [Toast(deleted), RefetchProductos] + [EndLoading];
      assert [ask] + b.effects == [ask, BeginLoading, send, Toast(deleted), RefetchProductos, EndLoading];
      AfterConfirm(ask, Done(b))
  }

  /** `deleteProducto`: asks first; a declined confirmation returns `false` and does
      nothing else. */
  function DeleteThunk(token: Option<string>, ui: Option<Json>, id: int, confirmed: bool,
                       reply: Outcome<Reply>, refetchError: Option<Thrown>): (t: Trace<bool>)
    ensures !TruthyStr(token) ==> t == Trace([], Threw(NoToken(ui)))
    ensures TruthyStr(token) ==>
      |t.effects| > 0 && t.effects[0] == Confirm(CopyFor(GetLang(ui)).deleteTitle, DeleteText(GetLang(ui), id))
    ensures TruthyStr(token) && !confirmed ==> t.effects == [t.effects[0]] && t.outcome == Returned(false)
    ensures TruthyStr(token) && confirmed ==>
      Balanced(t.effects) && Sends(t.effects) == 1 && |t.effects| >= 4
      && t.effects[2] == Send("/productos/" + IntToString(id), [], Authed(Delete, NoBody, token))
      && (t.outcome == Returned(true) <==> reply.Returned? && refetchError.None?)
    ensures TruthyStr(token) && confirmed && reply.Threw? ==>
      t == Trace([Confirm(CopyFor(GetLang(ui)).deleteTitle, DeleteText(GetLang(ui), id)), BeginLoading,
                  Send("/productos/" + IntToString(id), [], Authed(Delete, NoBody, token)), EndLoading],
                 Threw(reply.error))
    ensures TruthyStr(token) && confirmed && reply.Returned? ==>
      t.effects == [Confirm(CopyFor(GetLang(ui)).deleteTitle, DeleteText(GetLang(ui), id)), BeginLoading,
                    Send("/productos/" + IntToString(id), [], Authed(Delete, NoBody, token)),
                    Toast(CopyFor(GetLang(ui)).deleted), RefetchProductos, EndLoading]
    ensures TruthyStr(token) && confirmed && reply.Returned? && refetchError.Some? ==>
      t.outcome == Threw(refetchError.value)
  {
    if !TruthyStr(token) then Trace([], Threw(NoToken(ui)))
    else
      var lang := GetLang(ui);
      var ask := Confirm(CopyFor(lang).deleteTitle, DeleteText(lang, id));
      if !confirmed then Trace([ask], Returned(false))
      else
        ConfirmedDelete(token, id, CopyFor(lang).deleteTitle, DeleteText(lang, id), CopyFor(lang).deleted,
                        reply, refetchError)
  }

  /** `bulkImportProductos`: POST of a form with the file under `file`, re-fetch, and
      the import result as the thunk's value; no toast. */
  function BulkImportThunk(token: Option<string>, ui: Option<Json>, file: string,
                           reply: Outcome<Reply>, refetchError: Option<Thrown>): (t: Trace<Reply>)
    ensures !TruthyStr(token) ==> t == Trace([], Threw(NoToken(ui)))
    ensures TruthyStr(token) ==>
      Balanced(t.effects) && Sends(t.effects) == 1 && |t.effects| >= 3
      && t.effects[1] == Send("/productos/masivo", [], Authed(Post, FormBody([("file", file)]), token))
      && (forall i :: 0 <= i < |t.effects| ==> !t.effects[i].Toast?)
      && (reply.Returned? && refetchError.None? ==> t.outcome == reply)
    ensures TruthyStr(token) && reply.Threw? ==>
      t == Trace([BeginLoading, Send("/productos/masivo", [], Authed(Post, FormBody([("file", file)]), token)),
                  EndLoading], reply)
    ensures TruthyStr(token) && reply.Returned? ==>
      t.effects == [BeginLoading, Send("/productos/masivo", [], Authed(Post, FormBody([("file", file)]), token)),
                    RefetchProductos, EndLoading]
    ensures TruthyStr(token) && reply.Returned? && refetchError.Some? ==> t.outcome == Threw(refetchError.value)
  {
    if !TruthyStr(token) then Trace([], Threw(NoToken(ui)))
    else
      var send := Send("/productos/masivo", [], Authed(Post, FormBody([("file", file)]), token));
      Bracket(send, reply, [RefetchProductos], refetchError)
  }

  /** The upload goes out without a JSON content type, so the browser can set the
      multipart boundary. */
  lemma BulkImportIsMultipart(token: Option<string>, ui: Option<Json>, file: string,
                              reply: Outcome<Reply>, refetchError: Option<Thrown>, env: Option<string>)
    requires TruthyStr(token)
    ensures var e := BulkImportThunk(token, ui, file, reply, refetchError).effects[1];
      ContentTypeKey !in PrepareRequest(e.path, e.opts, env).headers
  {
    assert HeadersFrom([]) == map[];
  }
}
