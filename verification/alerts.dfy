/** The error dialog: which messages `showError` lists for a thrown value, and the
    HTML body it builds from them. The dialog library itself is not modelled. */
module Alerts {
  import opened Text
  import opened Html
  import opened JsonValues
  import opened Api

  /** The messages listed for a thrown value. */
  function ErrorMessages(err: Thrown): (ms: seq<string>)
    ensures err.ApiErr? ==> ms == err.error.messages
    ensures err.JsError? ==> ms == [err.message]
    ensures err.NonError? ==> ms == ["Error desconocido"]
  {
    match err
    case ApiErr(e) => e.messages
    case JsError(_, m) => [m]
    case NonError(_) => ["Error desconocido"]
  }

  /** As written, an error that reaches `showError` through `unwrap()` never shows its
      messages: the serialised copy is not an `Error`, so the dialog always reads
      "Error desconocido". */
  lemma UnwrappedShowsUnknownAsWritten(t: Thrown)
    ensures ErrorMessages(Unwrapped(t)) == ["Error desconocido"]
  {
  }

  /** A concrete instance: a rejected update whose server answer was a duplicate-SKU error. */
  lemma UnwrapCounterexample()
    ensures ErrorMessages(Unwrapped(ApiErr(ApiError(409, ["SKU duplicado"], JNull)))) != ["SKU duplicado"]
  {
    UnwrappedShowsUnknownAsWritten(ApiErr(ApiError(409, ["SKU duplicado"], JNull)));
  }

  /** The message choice as intended for errors rethrown by `unwrap()`: a thrown value
      carrying a string `message` shows it, one line per newline-separated part, which
      are the messages of the original `ApiError`. */
  function ErrorMessagesCorrected(err: Thrown): (ms: seq<string>)
    ensures !err.NonError? ==> ms == ErrorMessages(err)
    ensures err.NonError? && StringProp(err.value, "message").Some? ==>
      ms == Split(StringProp(err.value, "message").value, '\n')
    ensures err.NonError? && StringProp(err.value, "message").None? ==> ms == ["Error desconocido"]
  {
    match err
    case NonError(v) =>
      if StringProp(v, "message").Some? then Split(StringProp(v, "message").value, '\n')
      else ["Error desconocido"]
    case _ => ErrorMessages(err)
  }

  /** With the correction, what the user sees after `unwrap()` is what the error said:
      an `ApiError`'s messages, or an `Error`'s message. */
  lemma CorrectedShowsUnwrappedMessages(t: Thrown)
    ensures t.ApiErr? && |t.error.messages| > 0
            && (forall i :: 0 <= i < |t.error.messages| ==> '\n' !in t.error.messages[i])
            ==> ErrorMessagesCorrected(Unwrapped(t)) == t.error.messages
    ensures t.JsError? && '\n' !in t.message ==> ErrorMessagesCorrected(Unwrapped(t)) == [t.message]
  {
    if t.JsError? && '\n' !in t.message {
      SplitNoSeparator(t.message, '\n');
    }
  }

  /** One line of the list: a bullet and the escaped message. */
  function Bullet(m: string): string
  {
    "• " + EscapeHtml(m)
  }

  /** The list part of the dialog: one bullet line per message, `<br/>`-separated. */
  function BulletList(ms: seq<string>): string
  {
    JoinBreaks(seq(|ms|, i requires 0 <= i < |ms| => Bullet(ms[i])))
  }

  /** The `html` given to the dialog. */
  function ErrorHtml(ms: seq<string>): string
  {
    "<div style=\"text-align:left\">" + BulletList(ms) + "</div>"
  }

  /** Reads the messages back out of a bullet list. */
  function ReadBulletList(html: string): seq<string>
  {
    if html == "" then []
    else
      var lines := SplitBreaks(html);
      seq(|lines|, i requires 0 <= i < |lines| =>
            UnescapeHtml(if StartsWith(lines[i], "• ") then lines[i][2..] else lines[i]))
  }

  /** The list shows every message, in order, and nothing else: reading it back gives
      exactly the messages. */
  lemma BulletListRoundTrip(ms: seq<string>)
    ensures ReadBulletList(BulletList(ms)) == ms
  {
    var lines := seq(|ms|, i requires 0 <= i < |ms| => Bullet(ms[i]));
    if |ms| > 0 {
      forall i | 0 <= i < |lines| ensures '<' !in lines[i] {
        NoMarkupHasNoOpenTag(EscapeHtml(ms[i]));
        assert lines[i] == "• " + EscapeHtml(ms[i]);
      }
      SplitJoinBreaks(lines);
      assert BulletList(ms) != "" by {
        JoinBreaksNonEmpty(lines);
      }
      var r := ReadBulletList(BulletList(ms));
      forall i | 0 <= i < |ms| ensures r[i] == ms[i] {
        assert lines[i][..2] == "• ";
        assert lines[i][2..] == EscapeHtml(ms[i]);
        UnescapeEscape(ms[i]);
      }
    }
  }

  lemma JoinBreaksNonEmpty(lines: seq<string>)
    requires |lines| > 0 && |lines[0]| > 0
    ensures JoinBreaks(lines) != ""
  {
    if |lines| > 1 {
      assert JoinBreaks(lines)[0] == lines[0][0];
    }
  }
}
