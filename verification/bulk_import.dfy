/** The bulk-import dialog's handling of the import result: normalising the
    heterogeneous per-row error list, and choosing between the success toast and the
    warning dialog with its (truncated) list of failed rows. */
module BulkImport {
  import opened Wrappers
  import opened Text
  import opened JsonValues
  import opened Html
  import opened Api

  /** One failed row as displayed. */
  datatype ImportErrorItem = ImportErrorItem(row: Num, message: string)

  /** `typeof v === "object" && v !== null` (arrays included). */
  predicate IsRecord(v: Json)
  {
    IsObject(v)
  }

  /** Already shaped as `{row: number, message: string}`. */
  predicate IsImportErrorItem(v: Json)
  {
    IsRecord(v) && NumberProp(v, "row").Some? && StringProp(v, "message").Some?
  }

  /** The row assumed for the element at `idx`: data rows are 1-based and follow a header row. */
  function DefaultRow(idx: nat): Num
  {
    Finite(idx + 2)
  }

  const UnknownError := "Unknown error"

  /** One element of the error list, at index `idx`, by first-match precedence. */
  function NormalizeItem(item: Json, idx: nat): (e: ImportErrorItem)
    ensures IsImportErrorItem(item) ==>
      e == ImportErrorItem(NumberProp(item, "row").value, StringProp(item, "message").value)
    ensures item.JStr? ==> e == ImportErrorItem(DefaultRow(idx), item.s)
    ensures IsRecord(item) ==> e.row == NumberProp(item, "row").GetOr(DefaultRow(idx))
    ensures IsRecord(item) && StringProp(item, "message").Some? ==> e.message == StringProp(item, "message").value
    ensures IsRecord(item) && StringProp(item, "message").None? && StringProp(item, "error").Some? ==>
      e.message == StringProp(item, "error").value
    ensures IsRecord(item) && StringProp(item, "message").None? && StringProp(item, "error").None? ==>
      e.message == UnknownError
    ensures !IsRecord(item) && !item.JStr? ==> e == ImportErrorItem(DefaultRow(idx), UnknownError)
  {
    if IsImportErrorItem(item) then
      ImportErrorItem(NumberProp(item, "row").value, StringProp(item, "message").value)
    else if item.JStr? then ImportErrorItem(DefaultRow(idx), item.s)
    else if IsRecord(item) then
      var row := NumberProp(item, "row").GetOr(DefaultRow(idx));
      var msg := match StringProp(item, "message")
        case Some(m) => m
        case None => StringProp(item, "error").GetOr(UnknownError);
      ImportErrorItem(row, msg)
    else ImportErrorItem(DefaultRow(idx), UnknownError)
  }

  /** Elements from index `offset` on. */
  function NormalizeFrom(xs: seq<Json>, offset: nat): (r: seq<ImportErrorItem>)
    ensures |r| == |xs|
    ensures forall i :: 0 <= i < |xs| ==> r[i] == NormalizeItem(xs[i], offset + i)
  {
    if |xs| == 0 then [] else [NormalizeItem(xs[0], offset)] + NormalizeFrom(xs[1..], offset + 1)
  }

  /** `normalizeErrors(result.errors)`; `None` is an absent `errors` field. */
  function NormalizeErrors(errors: Option<Json>): (r: seq<ImportErrorItem>)
    ensures !(errors.Some? && errors.value.JArr?) ==> r == []
    ensures errors.Some? && errors.value.JArr? ==>
      |r| == |errors.value.items|
      && forall i :: 0 <= i < |r| ==> r[i] == NormalizeItem(errors.value.items[i], i)
  {
    match errors
    case Some(JArr(xs)) => NormalizeFrom(xs, 0)
    case _ => []
  }

  /** The pass-through branch only short-cuts the record branch: an element already
      shaped `{row, message}` is normalised to the same row and message either way. */
  lemma PassThroughAgreesWithRecordRule(item: Json, idx: nat)
    requires IsImportErrorItem(item)
    ensures NormalizeItem(item, idx).row == NumberProp(item, "row").GetOr(DefaultRow(idx))
    ensures NormalizeItem(item, idx).message == StringProp(item, "message").value
  {
  }

  /** A list of plain strings becomes rows 2, 3, 4, ... carrying those strings. */
  lemma StringErrorsNumberRows(ss: seq<string>)
    ensures var r := NormalizeErrors(Some(JArr(seq(|ss|, i requires 0 <= i < |ss| => JStr(ss[i])))));
      |r| == |ss| && forall i :: 0 <= i < |ss| ==> r[i] == ImportErrorItem(Finite(i + 2), ss[i])
  {
  }

  /** The worked example: a string, a shaped item, and an `{error}` object at index 2. */
  lemma NormalizeExample()
    ensures NormalizeErrors(Some(JArr([
              JStr("bad row"),
              JObj(map["row" := JNum(Finite(5)), "message" := JStr("dup")]),
              JObj(map["error" := JStr("oops")])])))
         == [ImportErrorItem(Finite(2), "bad row"),
             ImportErrorItem(Finite(5), "dup"),
             ImportErrorItem(Finite(4), "oops")]
  {
  }

  // ---------------------------------------------------------------------------
  // The result summary

  /** At most this many failed rows are listed. */
  const MaxListed: nat := 15

  /** A count field: the number when the field is a number, else 0. */
  function CountOf(result: Json, key: string): (n: Num)
    ensures NumberProp(result, key).Some? ==> n == NumberProp(result, key).value
    ensures NumberProp(result, key).None? ==> n == Finite(0)
  {
    NumberProp(result, key).GetOr(Finite(0))
  }

  /** `n > 0` for a JavaScript number. */
  predicate Positive(n: Num)
  {
    (n.Finite? && n.value > 0) || n.PosInf?
  }

  /** One listed row: `• Fila <row>: <escaped message>`. */
  function RowLine(e: ImportErrorItem): string
  {
    "• Fila " + NumToString(e.row) + ": " + EscapeHtml(e.message)
  }

  /** The note after the list when rows were left out: `+<hidden> más…`. */
  function MoreSuffix(n: nat): (s: string)
    ensures n <= MaxListed <==> s == ""
  {
    if n > MaxListed then "<br/><br/><em>+" + IntToString(n - MaxListed) + " más…</em>" else ""
  }

  /** What the dialog shows once the import call has settled. */
  datatype ImportView =
    | ErrorDialog(text: string)
    | WarningDialog(inserted: Num, updated: Num, failed: Num, lines: seq<string>, more: string)
    | SuccessToast(inserted: Num, updated: Num, failed: Num)

  function Min(a: nat, b: nat): nat
  {
    if a <= b then a else b
  }

  /** The summary of an import result object. */
  function Summarize(result: Json): (v: ImportView)
    requires !result.JNull?
    ensures !v.ErrorDialog?
    ensures v.inserted == CountOf(result, "inserted") && v.updated == CountOf(result, "updated")
    ensures v.failed == CountOf(result, "failed")
    ensures v.WarningDialog? <==>
      Positive(CountOf(result, "failed")) || |NormalizeErrors(Prop(result, "errors"))| > 0
    ensures v.WarningDialog? ==>
      var errs := NormalizeErrors(Prop(result, "errors"));
      |v.lines| == Min(|errs|, MaxListed)
      && (forall i :: 0 <= i < |v.lines| ==> v.lines[i] == RowLine(errs[i]))
      && v.more == MoreSuffix(|errs|)
  {
    var inserted := CountOf(result, "inserted");
    var updated := CountOf(result, "updated");
    var failed := CountOf(result, "failed");
    var errors := NormalizeErrors(Prop(result, "errors"));
    if Positive(failed) || |errors| > 0 then
      var shown := errors[..Min(|errors|, MaxListed)];
      WarningDialog(inserted, updated, failed,
                    seq(|shown|, i requires 0 <= i < |shown| => RowLine(shown[i])),
                    MoreSuffix(|errors|))
    else SuccessToast(inserted, updated, failed)
  }

  /** Every failed row is accounted for: listed, or counted in the `+n` note. */
  lemma SummaryAccountsForEveryRow(result: Json)
    requires !result.JNull?
    requires Summarize(result).WarningDialog?
    ensures var n := |NormalizeErrors(Prop(result, "errors"))|;
      var v := Summarize(result);
      (n <= MaxListed ==> |v.lines| == n && v.more == "")
      && (n > MaxListed ==>
            |v.lines| == MaxListed
            && v.more == "<br/><br/><em>+" + IntToString(n - |v.lines|) + " más…</em>")
  {
  }

  /** Message of the `TypeError` raised when the handler reads `result.inserted` off
      `undefined` or `null` (V8's wording). */
  function ReadPropertyMessage(of: string): string
  {
    "Cannot read properties of " + of + " (reading 'inserted')"
  }

  /** The submit handler after `bulkImportProductos(...)` settled. A rejection reaches
      the catch through `unwrap()`, as the serialised copy, which is not an `Error`: the
      dialog then reads "Error desconocido" whatever the thunk threw. Only the
      `TypeError` raised inside the handler itself shows its message. */
  function SubmitView(outcome: Outcome<Reply>): (v: ImportView)
    ensures outcome.Threw? ==> v == ErrorDialog("Error desconocido")
    ensures outcome == Returned(NoContent) ==> v.ErrorDialog?
    ensures outcome == Returned(JsonReply(JNull)) ==> v.ErrorDialog?
    ensures outcome.Returned? && outcome.value.JsonReply? && !outcome.value.value.JNull? ==>
      v == Summarize(outcome.value.value)
    ensures outcome.Returned? && outcome.value.TextReply? ==> v == SuccessToast(Finite(0), Finite(0), Finite(0))
  {
    match outcome
    case Threw(e) => ErrorDialog(ThrownMessage(Unwrapped(e)).GetOr("Error desconocido"))
    case Returned(NoContent) => ErrorDialog(ReadPropertyMessage("undefined"))
    case Returned(JsonReply(JNull)) => ErrorDialog(ReadPropertyMessage("null"))
    case Returned(JsonReply(r)) => Summarize(r)
    case Returned(TextReply(t)) => Summarize(JStr(t))
  }
}
