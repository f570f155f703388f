/** The categories slice: its query string, the fetch lifecycle, and the mutation
    thunks with their missing-token check, confirmation, loading bracket and re-fetch. */
module Categorias {
  import opened Wrappers
  import opened Text
  import opened JsonValues
  import opened Api
  import opened Effects

  const MissingToken := "Missing token"

  /** How every thunk of this slice fails without a token (the message is not localised). */
  const NoToken := JsError("Error", MissingToken)

  /** The parameters of `fetchCategorias`: `includeInactive` always, then `search`
      when non-empty. */
  function QueryParams(includeInactive: bool, search: Option<string>): (p: seq<(string, string)>)
    ensures |p| >= 1 && p[0] == ("includeInactive", if includeInactive then "true" else "false")
    ensures |p| == 2 <==> TruthyStr(search)
    ensures |p| <= 2
    ensures |p| == 2 ==> p[1] == ("search", search.value)
  {
    [("includeInactive", if includeInactive then "true" else "false")]
    + (if TruthyStr(search) then [("search", search.value)] else [])
  }

  /** Reads the two parameters back. */
  function ParseParams(p: seq<(string, string)>): Option<(bool, Option<string>)>
  {
    if |p| == 0 || p[0].0 != "includeInactive" || (p[0].1 != "true" && p[0].1 != "false") then None
    else if |p| == 1 then Some((p[0].1 == "true", None))
    else if |p| == 2 && p[1].0 == "search" then Some((p[0].1 == "true", Some(p[1].1)))
    else None
  }

  /** Nothing is lost but the difference between an empty and an absent search. */
  lemma QueryParamsRoundTrip(includeInactive: bool, search: Option<string>)
    ensures ParseParams(QueryParams(includeInactive, search))
         == Some((includeInactive, if TruthyStr(search) then search else None))
  {
  }

  /** `fetchCategorias`: one GET. */
  function FetchThunk(token: Option<string>, includeInactive: bool, search: Option<string>,
                      reply: Outcome<Reply>): (t: Trace<Reply>)
    ensures !TruthyStr(token) ==> t == Trace([], Threw(NoToken))
    ensures TruthyStr(token) ==>
      t.outcome == reply && |t.effects| == 1 && Sends(t.effects) == 1
      && t.effects[0] == Send("/categorias", QueryParams(includeInactive, search), Authed(Get, NoBody, token))
  {
    if !TruthyStr(token) then Trace([], Threw(NoToken))
    else
      var e := Send("/categorias", QueryParams(includeInactive, search), Authed(Get, NoBody, token));
      assert Sends([e]) == 1 + Sends([e][1..]);
      Trace([e], reply)
  }

  /** The re-fetch after every mutation: inactive categories included, no search. */
  const Refetch := RefetchCategorias(true, None)

  // The re-fetch after a mutation is awaited but not unwrapped, so its failure never
  // reaches the caller: the thunks pass no re-fetch error to the bracket.

  /** `createCategoria`: POST, re-fetch, inside the loading bracket; no toast. */
  function CreateThunk(token: Option<string>, dto: Json, reply: Outcome<Reply>): (t: Trace<bool>)
    ensures !TruthyStr(token) ==> t == Trace([], Threw(NoToken))
    ensures TruthyStr(token) ==>
      Balanced(t.effects) && Sends(t.effects) == 1 && |t.effects| >= 3
      && t.effects[1] == Send("/categorias", [], Authed(Post, JsonBody(dto), token))
      && (t.outcome == Returned(true) <==> reply.Returned?)
      && (reply.Returned? ==> Refetch in t.effects)
    ensures TruthyStr(token) && reply.Threw? ==>
      t == Trace([BeginLoading, Send("/categorias", [], Authed(Post, JsonBody(dto), token)), EndLoading],
                 Threw(reply.error))
    ensures TruthyStr(token) && reply.Returned? ==>
      t == Trace([BeginLoading, Send("/categorias", [], Authed(Post, JsonBody(dto), token)), Refetch, EndLoading],
                 Returned(true))
  {
    if !TruthyStr(token) then Trace([], Threw(NoToken))
    else
      var send := Send("/categorias", [], Authed(Post, JsonBody(dto), token));
      var t := Bracket(send, reply, [Refetch], None);
      assert reply.Returned? ==> t.effects[2] == Refetch;
      Done(t)
  }

  /** `updateCategoria`: PUT to `/categorias/{id}`, re-fetch, inside the bracket. */
  function UpdateThunk(token: Option<string>, id: int, dto: Json, reply: Outcome<Reply>): (t: Trace<bool>)
    ensures !TruthyStr(token) ==> t == Trace([], Threw(NoToken))
    ensures TruthyStr(token) ==>
      Balanced(t.effects) && Sends(t.effects) == 1 && |t.effects| >= 3
      && t.effects[1] == Send(UpdatePath(id), [], Authed(Put, JsonBody(dto), token))
      && (t.outcome == Returned(true) <==> reply.Returned?)
      && (reply.Returned? ==> Refetch in t.effects)
    ensures TruthyStr(token) && reply.Threw? ==>
      t == Trace([BeginLoading, Send(UpdatePath(id), [], Authed(Put, JsonBody(dto), token)), EndLoading],
                 Threw(reply.error))
    ensures TruthyStr(token) && reply.Returned? ==>
      t == Trace([BeginLoading, Send(UpdatePath(id), [], Authed(Put, JsonBody(dto), token)), Refetch, EndLoading],
                 Returned(true))
  {
    if !TruthyStr(token) then Trace([], Threw(NoToken))
    else
      var send := Send(UpdatePath(id), [], Authed(Put, JsonBody(dto), token));
      var t := Bracket(send, reply, [Refetch], None);
      assert reply.Returned? ==> t.effects[2] == Refetch;
      Done(t)
  }

  const DeleteTitle := "Eliminar categoría"

  function DeleteText(id: int): string
  {
    "¿Seguro que deseas eliminar la categoría #" + IntToString(id) + "? (soft delete)"
  }

  const Deleted := "Categoría eliminada"

  /** `deleteCategoria`: asks first; a declined confirmation returns `false` and does
      nothing else. The request goes to `/api/categorias/{id}`. */
  function DeleteThunk(token: Option<string>, id: int, confirmed: bool, reply: Outcome<Reply>)
    : (t: Trace<bool>)
    ensures !TruthyStr(token) ==> t == Trace([], Threw(NoToken))
    ensures TruthyStr(token) && !confirmed ==> t == Trace([Confirm(DeleteTitle, DeleteText(id))], Returned(false))
    ensures TruthyStr(token) && confirmed ==>
      Balanced(t.effects) && Sends(t.effects) == 1 && |t.effects| >= 4
      && t.effects[0] == Confirm(DeleteTitle, DeleteText(id))
      && t.effects[2] == Send(DeletePath(id), [], Authed(Delete, NoBody, token))
      && (t.outcome == Returned(true) <==> reply.Returned?)
      && (Toast(Deleted) in t.effects <==> reply.Returned?)
    ensures TruthyStr(token) && confirmed && reply.Threw? ==>
      t == Trace([Confirm(DeleteTitle, DeleteText(id)), BeginLoading,
                  Send(DeletePath(id), [], Authed(Delete, NoBody, token)), EndLoading],
                 Threw(reply.error))
    ensures TruthyStr(token) && confirmed && reply.Returned? ==>
      t == Trace([Confirm(DeleteTitle, DeleteText(id)), BeginLoading,
                  Send(DeletePath(id), [], Authed(Delete, NoBody, token)), Toast(Deleted), Refetch, EndLoading],
                 Returned(true))
  {
    if !TruthyStr(token) then Trace([], Threw(NoToken))
    else
      var ask := Confirm(DeleteTitle, DeleteText(id));
      if !confirmed then Trace([ask], Returned(false))
      else
        var send := Send(DeletePath(id), [], Authed(Delete, NoBody, token));
        var b := Bracket(send, reply, [Toast(Deleted), Refetch], None);
        if reply.Threw? then
          assert b.effects == [BeginLoading, send, EndLoading];
          assert [ask] + b.effects == [ask, BeginLoading, send, EndLoading];
          AfterConfirm(ask, Done(b))
        else
          assert b.effects == [BeginLoading, send] + [Toast(Deleted), Refetch] + [EndLoading];
          assert [ask] + b.effects == [ask, BeginLoading, send, Toast(Deleted), Refetch, EndLoading];
          AfterConfirm(ask, Done(b))
  }

  /** Where `updateCategoria` sends its request. */
  function UpdatePath(id: int): string
  {
    "/categorias/" + IntToString(id)
  }

  /** Where `deleteCategoria` sends its request. */
  function DeletePath(id: int): string
  {
    "/api/categorias/" + IntToString(id)
  }

  /** The delete request and the update request of the same category go to different
      paths: only the delete carries the `/api` prefix. */
  lemma DeletePathDiffersFromUpdate(id: int)
    ensures DeletePath(id) == "/api" + UpdatePath(id)
    ensures DeletePath(id) != UpdatePath(id)
  {
    ApiPrefix(IntToString(id));
  }

  lemma ApiPrefix(n: string)
    ensures "/api/categorias/" + n == "/api" + ("/categorias/" + n)
    ensures "/api/categorias/" + n != "/categorias/" + n
  {
    assert ("/api/categorias/" + n)[1] == 'a';
    assert ("/categorias/" + n)[1] == 'c';
  }

  // ---------------------------------------------------------------------------
  // The slice

  datatype State = State(items: Json, loading: bool)

  const Initial := State(JArr([]), false)

  /** `fetchCategorias.pending`: the list shows as loading and keeps its items. */
  function FetchPending(s: State): (r: State)
    ensures r.loading && r.items == s.items
  {
    s.(loading := true)
  }

  /** `fetchCategorias.fulfilled`: the payload, or `[]` when it is nullish. */
  function FetchFulfilled(s: State, payload: Option<Json>): (r: State)
    ensures !r.loading
    ensures Nullish(payload) ==> r.items == JArr([])
    ensures !Nullish(payload) ==> r.items == payload.value
  {
    State(if Nullish(payload) then JArr([]) else payload.value, false)
  }

  /** `fetchCategorias.rejected`: loading stops and the items stay. */
  function FetchRejected(s: State): (r: State)
    ensures !r.loading && r.items == s.items
  {
    s.(loading := false)
  }

  /** A fetch that settles leaves the list not loading; a rejected one keeps the list. */
  lemma FetchLifecycle(s: State, payload: Option<Json>)
    ensures !FetchFulfilled(FetchPending(s), payload).loading
    ensures FetchRejected(FetchPending(s)).items == s.items
    ensures FetchFulfilled(FetchPending(s), payload) == FetchFulfilled(s, payload)
  {
  }
}
