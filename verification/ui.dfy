/** The UI state container: language, theme, the global loading counter, the login
    dialog flag and the two pending delete confirmations. */
module Ui {
  import opened Wrappers

  datatype Lang = Es | En
  datatype Theme = Light | Dark

  datatype UiState = UiState(
    lang: Lang,
    theme: Theme,
    loadingCount: int,
    loginOpen: bool,
    deleteCategoriaId: Option<int>,
    deleteProductoId: Option<int>)

  const Initial := UiState(Es, Light, 0, false, None, None)

  /** `hydrate`: a present (hence truthy) language or theme replaces the current one. */
  function Hydrate(s: UiState, lang: Option<Lang>, theme: Option<Theme>): (r: UiState)
    ensures r.lang == lang.GetOr(s.lang) && r.theme == theme.GetOr(s.theme)
    ensures r == s.(lang := r.lang, theme := r.theme)
  {
    var s1 := if lang.Some? then s.(lang := lang.value) else s;
    if theme.Some? then s1.(theme := theme.value) else s1
  }

  function ToggleLang(s: UiState): (r: UiState)
    ensures r.lang != s.lang
    ensures r == s.(lang := r.lang)
  {
    s.(lang := if s.lang == Es then En else Es)
  }

  function ToggleTheme(s: UiState): (r: UiState)
    ensures r.theme != s.theme
    ensures r == s.(theme := r.theme)
  {
    s.(theme := if s.theme == Dark then Light else Dark)
  }

  lemma ToggleLangInvolution(s: UiState)
    ensures ToggleLang(ToggleLang(s)) == s
  {
  }

  lemma ToggleThemeInvolution(s: UiState)
    ensures ToggleTheme(ToggleTheme(s)) == s
  {
  }

  function BeginLoading(s: UiState): (r: UiState)
    ensures r.loadingCount == s.loadingCount + 1
    ensures r == s.(loadingCount := r.loadingCount)
  {
    s.(loadingCount := s.loadingCount + 1)
  }

  /** `Math.max(0, loadingCount - 1)`. */
  function EndLoading(s: UiState): (r: UiState)
    ensures r.loadingCount >= 0
    ensures s.loadingCount >= 1 ==> r.loadingCount == s.loadingCount - 1
    ensures s.loadingCount <= 1 ==> r.loadingCount == 0
    ensures r == s.(loadingCount := r.loadingCount)
  {
    s.(loadingCount := if s.loadingCount - 1 > 0 then s.loadingCount - 1 else 0)
  }

  /** A begin immediately undone by an end restores the state. */
  lemma BeginEndRestores(s: UiState)
    requires s.loadingCount >= 0
    ensures EndLoading(BeginLoading(s)) == s
  {
  }

  /** `selectLoading`: the global spinner shows while some begin is unmatched. */
  predicate SelectLoading(s: UiState)
  {
    s.loadingCount > 0
  }

  function OpenLogin(s: UiState): (r: UiState)
    ensures r.loginOpen && r == s.(loginOpen := true)
  {
    s.(loginOpen := true)
  }

  function CloseLogin(s: UiState): (r: UiState)
    ensures !r.loginOpen && r == s.(loginOpen := false)
  {
    s.(loginOpen := false)
  }

  function OpenDeleteCategoria(s: UiState, id: int): (r: UiState)
    ensures r.deleteCategoriaId == Some(id) && r == s.(deleteCategoriaId := Some(id))
  {
    s.(deleteCategoriaId := Some(id))
  }

  function ClearDeleteCategoria(s: UiState): (r: UiState)
    ensures r.deleteCategoriaId == None && r == s.(deleteCategoriaId := None)
  {
    s.(deleteCategoriaId := None)
  }

  function OpenDeleteProducto(s: UiState, id: int): (r: UiState)
    ensures r.deleteProductoId == Some(id) && r == s.(deleteProductoId := Some(id))
  {
    s.(deleteProductoId := Some(id))
  }

  function ClearDeleteProducto(s: UiState): (r: UiState)
    ensures r.deleteProductoId == None && r == s.(deleteProductoId := None)
  {
    s.(deleteProductoId := None)
  }

  datatype Action =
    | HydrateUi(lang: Option<Lang>, theme: Option<Theme>)
    | ToggleLangAction
    | ToggleThemeAction
    | BeginLoadingAction
    | EndLoadingAction
    | OpenLoginAction
    | CloseLoginAction
    | OpenDeleteCategoriaAction(categoriaId: int)
    | ClearDeleteCategoriaAction
    | OpenDeleteProductoAction(productoId: int)
    | ClearDeleteProductoAction

  /** The slice reducer. */
  function Reduce(s: UiState, a: Action): UiState
  {
    match a
    case HydrateUi(l, t) => Hydrate(s, l, t)
    case ToggleLangAction => ToggleLang(s)
    case ToggleThemeAction => ToggleTheme(s)
    case BeginLoadingAction => BeginLoading(s)
    case EndLoadingAction => EndLoading(s)
    case OpenLoginAction => OpenLogin(s)
    case CloseLoginAction => CloseLogin(s)
    case OpenDeleteCategoriaAction(id) => OpenDeleteCategoria(s, id)
    case ClearDeleteCategoriaAction => ClearDeleteCategoria(s)
    case OpenDeleteProductoAction(id) => OpenDeleteProducto(s, id)
    case ClearDeleteProductoAction => ClearDeleteProducto(s)
  }

  /** Applies a sequence of actions in order. */
  function ReduceAll(s: UiState, actions: seq<Action>): UiState
    decreases |actions|
  {
    if |actions| == 0 then s else ReduceAll(Reduce(s, actions[0]), actions[1..])
  }

  /** The loading counter is never negative, from the initial state on, whatever is
      dispatched; so `selectLoading`'s `> 0` test is the same as "the counter is not zero". */
  lemma {:induction false} CountNeverNegative(s: UiState, actions: seq<Action>)
    requires s.loadingCount >= 0
    ensures ReduceAll(s, actions).loadingCount >= 0
    ensures SelectLoading(ReduceAll(s, actions)) <==> ReduceAll(s, actions).loadingCount != 0
    decreases |actions|
  {
    if |actions| > 0 {
      CountNeverNegative(Reduce(s, actions[0]), actions[1..]);
    }
  }

  /** Only the loading actions move the counter. */
  lemma OnlyLoadingActionsCount(s: UiState, a: Action)
    requires !a.BeginLoadingAction? && !a.EndLoadingAction?
    ensures Reduce(s, a).loadingCount == s.loadingCount
  {
  }

  /** Closing a dialog that was just opened returns to the previous state. */
  lemma DialogOpenCloseRestores(s: UiState, id: int)
    ensures !s.loginOpen ==> CloseLogin(OpenLogin(s)) == s
    ensures s.deleteCategoriaId.None? ==> ClearDeleteCategoria(OpenDeleteCategoria(s, id)) == s
    ensures s.deleteProductoId.None? ==> ClearDeleteProducto(OpenDeleteProducto(s, id)) == s
  {
  }

  /** The two delete confirmations are independent of each other and of the spinner:
      their reducers commute. */
  lemma DialogsCommute(s: UiState, c: int, p: int)
    ensures OpenDeleteCategoria(OpenDeleteProducto(s, p), c) == OpenDeleteProducto(OpenDeleteCategoria(s, c), p)
    ensures ClearDeleteCategoria(OpenDeleteProducto(s, p)) == OpenDeleteProducto(ClearDeleteCategoria(s), p)
    ensures EndLoading(OpenDeleteProducto(s, p)) == OpenDeleteProducto(EndLoading(s), p)
    ensures BeginLoading(OpenDeleteCategoria(s, c)) == OpenDeleteCategoria(BeginLoading(s), c)
  {
  }
}
