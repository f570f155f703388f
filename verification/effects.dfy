/** Effect traces of the async thunks. A thunk is modelled as a pure function of its
    inputs and of the answers the outside world gives it (the settled request, the
    confirmation dialog, the nested re-fetch); it returns the effects it performed, in
    order, and how it settled. */
module Effects {
  import opened Wrappers
  import opened Api
  import Ui

  datatype Effect =
    | Send(path: string, query: seq<(string, string)>, opts: RequestOptions)
    | BeginLoading
    | EndLoading
    | Toast(text: string)
    | Confirm(title: string, text: string)
    | RefetchProductos
    | RefetchCategorias(includeInactive: bool, search: Option<string>)

  /** The effects a thunk performed and how its promise settled. */
  datatype Trace<+T> = Trace(effects: seq<Effect>, outcome: Outcome<T>)

  /** The change one effect makes to the loading counter. */
  function Delta(e: Effect): int
  {
    if e.BeginLoading? then 1 else if e.EndLoading? then -1 else 0
  }

  /** The net change a run of effects makes to the loading counter, clamping aside. */
  function Depth(es: seq<Effect>): int
  {
    if |es| == 0 then 0 else Delta(es[0]) + Depth(es[1..])
  }

  /** Starting from counter `c`, the counter never goes below zero along `es`. */
  predicate NeverBelow(c: int, es: seq<Effect>)
    decreases |es|
  {
    c >= 0 && (|es| > 0 ==> NeverBelow(c + Delta(es[0]), es[1..]))
  }

  /** Every `EndLoading` closes an earlier `BeginLoading`, and all are closed. */
  predicate Balanced(es: seq<Effect>)
  {
    NeverBelow(0, es) && Depth(es) == 0
  }

  /** The number of requests sent. */
  function Sends(es: seq<Effect>): nat
  {
    if |es| == 0 then 0 else (if es[0].Send? then 1 else 0) + Sends(es[1..])
  }

  /** The UI slice after the loading actions of `es` were dispatched to it. */
  function RunLoading(ui: Ui.UiState, es: seq<Effect>): Ui.UiState
    decreases |es|
  {
    if |es| == 0 then ui
    else
      var next := if es[0].BeginLoading? then Ui.BeginLoading(ui)
                  else if es[0].EndLoading? then Ui.EndLoading(ui)
                  else ui;
      RunLoading(next, es[1..])
  }

  /** Along a run that never underflows, the clamp in `endLoading` never bites: the
      counter moves by exactly `Depth`, and nothing else in the UI changes. */
  lemma {:induction false} RunLoadingExact(ui: Ui.UiState, es: seq<Effect>)
    requires NeverBelow(ui.loadingCount, es)
    ensures RunLoading(ui, es) == ui.(loadingCount := ui.loadingCount + Depth(es))
    decreases |es|
  {
    if |es| > 0 {
      var next := if es[0].BeginLoading? then Ui.BeginLoading(ui)
                  else if es[0].EndLoading? then Ui.EndLoading(ui)
                  else ui;
      assert next == ui.(loadingCount := ui.loadingCount + Delta(es[0]));
      RunLoadingExact(next, es[1..]);
    }
  }

  /** A higher starting counter keeps a run from underflowing. */
  lemma {:induction false} NeverBelowMonotone(c: int, d: int, es: seq<Effect>)
    requires NeverBelow(c, es) && c <= d
    ensures NeverBelow(d, es)
    decreases |es|
  {
    if |es| > 0 {
      NeverBelowMonotone(c + Delta(es[0]), d + Delta(es[0]), es[1..]);
    }
  }

  /** A balanced run leaves the UI slice exactly as it found it, whatever other
      operations hold the spinner at the time. */
  lemma BalancedRestoresUi(ui: Ui.UiState, es: seq<Effect>)
    requires ui.loadingCount >= 0 && Balanced(es)
    ensures RunLoading(ui, es) == ui
  {
    NeverBelowMonotone(0, ui.loadingCount, es);
    RunLoadingExact(ui, es);
  }

  /** The bracket `begin; body; end` with a body free of loading effects is balanced. */
  lemma {:induction false} BracketBalanced(body: seq<Effect>)
    requires forall i :: 0 <= i < |body| ==> Delta(body[i]) == 0
    ensures Balanced([BeginLoading] + body + [EndLoading])
  {
    var es := [BeginLoading] + body + [EndLoading];
    assert es[1..] == body + [EndLoading];
    FlatRun(body);
  }

  /** Running through loading-neutral effects keeps the counter and then closes it. */
  lemma {:induction false} FlatRun(body: seq<Effect>)
    requires forall i :: 0 <= i < |body| ==> Delta(body[i]) == 0
    ensures NeverBelow(1, body + [EndLoading]) && Depth(body + [EndLoading]) == -1
    decreases |body|
  {
    if |body| == 0 {
      assert body + [EndLoading] == [EndLoading];
      assert [EndLoading][1..] == [];
    } else {
      assert (body + [EndLoading])[1..] == body[1..] + [EndLoading];
      FlatRun(body[1..]);
    }
  }

  /** Requests counted over a concatenation. */
  lemma {:induction false} SendsAppend(a: seq<Effect>, b: seq<Effect>)
    ensures Sends(a + b) == Sends(a) + Sends(b)
    decreases |a|
  {
    if |a| == 0 {
      assert a + b == b;
    } else {
      assert (a + b)[1..] == a[1..] + b;
      SendsAppend(a[1..], b);
    }
  }

  /** Effects that neither touch the counter nor send a request. */
  predicate Quiet(es: seq<Effect>)
  {
    forall i :: 0 <= i < |es| ==> Delta(es[i]) == 0 && !es[i].Send?
  }

  lemma {:induction false} QuietSends(es: seq<Effect>)
    requires Quiet(es)
    ensures Sends(es) == 0
    decreases |es|
  {
    if |es| > 0 {
      QuietSends(es[1..]);
    }
  }

  /** Quiet effects in front of a balanced run keep it balanced. */
  lemma {:induction false} QuietPrefixBalanced(pre: seq<Effect>, es: seq<Effect>)
    requires Quiet(pre) && Balanced(es)
    ensures Balanced(pre + es)
    decreases |pre|
  {
    if |pre| > 0 {
      assert (pre + es)[1..] == pre[1..] + es;
      QuietPrefixBalanced(pre[1..], es);
    } else {
      assert pre + es == es;
    }
  }

  /** The `beginLoading; try { request; after } finally { endLoading }` shape shared by
      the mutation thunks. `send` is the request and `reply` how it settled; `after` is
      what follows a successful request (toasts, the re-fetch), and `refetchError` is
      what the re-fetch throws when it is awaited with `unwrap()`. */
  function Bracket(send: Effect, reply: Outcome<Reply>, after: seq<Effect>, refetchError: Option<Thrown>)
    : (t: Trace<Reply>)
    requires send.Send? && Quiet(after)
    ensures Balanced(t.effects) && Sends(t.effects) == 1
    ensures |t.effects| >= 3 && t.effects[0] == BeginLoading && t.effects[1] == send
    ensures t.effects[|t.effects| - 1] == EndLoading
    ensures reply.Threw? ==> t == Trace([BeginLoading, send, EndLoading], reply)
    ensures reply.Returned? ==>
      t.effects == [BeginLoading, send] + after + [EndLoading]
      && t.outcome == (if refetchError.Some? then Threw(refetchError.value) else reply)
  {
    var body := if reply.Threw? then [send] else [send] + after;
    var es := [BeginLoading] + body + [EndLoading];
    assert forall i :: 0 <= i < |body| ==> Delta(body[i]) == 0;
    BracketBalanced(body);
    assert es == [BeginLoading, send] + (body[1..] + [EndLoading]);
    QuietSends(body[1..]);
    SendsAppend([BeginLoading, send], body[1..] + [EndLoading]);
    SendsAppend(body[1..], [EndLoading]);
    var outcome := if reply.Returned? && refetchError.Some? then Threw(refetchError.value) else reply;
    Trace(es, outcome)
  }

  /** The spinner shows as soon as a bracket begins, and after a balanced run it is
      exactly as it was before. */
  lemma SpinnerAcrossRun(ui: Ui.UiState, es: seq<Effect>)
    requires ui.loadingCount >= 0 && Balanced(es)
    ensures Ui.SelectLoading(Ui.BeginLoading(ui))
    ensures Ui.SelectLoading(RunLoading(ui, es)) <==> Ui.SelectLoading(ui)
  {
    BalancedRestoresUi(ui, es);
  }

  /** A confirmation dialog answered "yes", followed by the bracketed run `b`: the
      dialog neither sends nor touches the spinner, so the run stays balanced. */
  function AfterConfirm(ask: Effect, b: Trace<bool>): (t: Trace<bool>)
    requires ask.Confirm? && Balanced(b.effects)
    ensures t.effects == [ask] + b.effects && t.outcome == b.outcome
    ensures Balanced(t.effects) && Sends(t.effects) == Sends(b.effects)
  {
    QuietPrefixBalanced([ask], b.effects);
    SendsAppend([ask], b.effects);
    Trace([ask] + b.effects, b.outcome)
  }

  /** A mutation thunk's result: `true` once the bracket completed, its error otherwise;
      the effects are the bracket's. */
  function Done(t: Trace<Reply>): (r: Trace<bool>)
    ensures r.effects == t.effects
    ensures r.outcome == Returned(true) <==> t.outcome.Returned?
    ensures t.outcome.Threw? ==> r.outcome == Threw(t.outcome.error)
  {
    Trace(t.effects, if t.outcome.Threw? then Threw(t.outcome.error) else Returned(true))
  }
}
