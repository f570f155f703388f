/** The HTML escaping used before messages are put into alert dialogs, and the
    `<br/>`-separated lists those dialogs display. */
module Html {
  import opened Text

  /** `s.replaceAll(c, rep)` for a one-character pattern. */
  function ReplaceAllChar(s: string, c: char, rep: string): string
  {
    if |s| == 0 then ""
    else (if s[0] == c then rep else [s[0]]) + ReplaceAllChar(s[1..], c, rep)
  }

  /** The escaper as written: five `replaceAll` passes, `&` first. */
  function EscapeHtml(s: string): (r: string)
    ensures r == EscapeCharwise(s)
    ensures NoMarkup(r)
  {
    EscapeHtmlIsCharwise(s);
    Chain(s)
  }

  /** The entity each character becomes. */
  function Entity(c: char): string
  {
    if c == '&' then "&amp;"
    else if c == '<' then "&lt;"
    else if c == '>' then "&gt;"
    else if c == '"' then "&quot;"
    else if c == '\'' then "&#039;"
    else [c]
  }

  /** Reference definition: every character replaced by its entity, independently. */
  function EscapeCharwise(s: string): string
  {
    if |s| == 0 then "" else Entity(s[0]) + EscapeCharwise(s[1..])
  }

  predicate Special(c: char)
  {
    c == '&' || c == '<' || c == '>' || c == '"' || c == '\''
  }

  /** No raw `<`, `>`, `"` or `'`. */
  predicate NoMarkup(s: string)
  {
    forall i :: 0 <= i < |s| ==> s[i] != '<' && s[i] != '>' && s[i] != '"' && s[i] != '\''
  }

  lemma {:induction false} ReplaceAllCharAppend(a: string, b: string, c: char, rep: string)
    ensures ReplaceAllChar(a + b, c, rep) == ReplaceAllChar(a, c, rep) + ReplaceAllChar(b, c, rep)
  {
    if |a| > 0 {
      assert (a + b)[1..] == a[1..] + b;
      ReplaceAllCharAppend(a[1..], b, c, rep);
    } else {
      assert a + b == b;
    }
  }

  lemma {:induction false} ReplaceAllCharAbsent(s: string, c: char, rep: string)
    requires c !in s
    ensures ReplaceAllChar(s, c, rep) == s
  {
    if |s| > 0 {
      ReplaceAllCharAbsent(s[1..], c, rep);
      assert [s[0]] + s[1..] == s;
    }
  }

  // The escaper's passes, from the k-th on.
  function Pass5(s: string): string { ReplaceAllChar(s, '\'', "&#039;") }
  function Pass4(s: string): string { Pass5(ReplaceAllChar(s, '"', "&quot;")) }
  function Pass3(s: string): string { Pass4(ReplaceAllChar(s, '>', "&gt;")) }
  function Pass2(s: string): string { Pass3(ReplaceAllChar(s, '<', "&lt;")) }
  function Chain(s: string): string { Pass2(ReplaceAllChar(s, '&', "&amp;")) }

  lemma ChainAppend(a: string, b: string)
    ensures Chain(a + b) == Chain(a) + Chain(b)
  {
    var a1, b1 := ReplaceAllChar(a, '&', "&amp;"), ReplaceAllChar(b, '&', "&amp;");
    ReplaceAllCharAppend(a, b, '&', "&amp;");
    var a2, b2 := ReplaceAllChar(a1, '<', "&lt;"), ReplaceAllChar(b1, '<', "&lt;");
    ReplaceAllCharAppend(a1, b1, '<', "&lt;");
    var a3, b3 := ReplaceAllChar(a2, '>', "&gt;"), ReplaceAllChar(b2, '>', "&gt;");
    ReplaceAllCharAppend(a2, b2, '>', "&gt;");
    var a4, b4 := ReplaceAllChar(a3, '"', "&quot;"), ReplaceAllChar(b3, '"', "&quot;");
    ReplaceAllCharAppend(a3, b3, '"', "&quot;");
    ReplaceAllCharAppend(a4, b4, '\'', "&#039;");
  }

  /** Text without `<`, `>`, `"` or `'` passes the last four passes unchanged. */
  lemma Pass2Absent(s: string)
    requires NoMarkup(s)
    ensures Pass2(s) == s
  {
    ReplaceAllCharAbsent(s, '<', "&lt;");
    ReplaceAllCharAbsent(s, '>', "&gt;");
    ReplaceAllCharAbsent(s, '"', "&quot;");
    ReplaceAllCharAbsent(s, '\'', "&#039;");
  }

  lemma Pass3Absent(s: string)
    requires NoMarkup(s)
    ensures Pass3(s) == s
  {
    ReplaceAllCharAbsent(s, '>', "&gt;");
    ReplaceAllCharAbsent(s, '"', "&quot;");
    ReplaceAllCharAbsent(s, '\'', "&#039;");
  }

  lemma Pass4Absent(s: string)
    requires NoMarkup(s)
    ensures Pass4(s) == s
  {
    ReplaceAllCharAbsent(s, '"', "&quot;");
    ReplaceAllCharAbsent(s, '\'', "&#039;");
  }

  lemma ReplaceOne(x: char, c: char, rep: string)
    ensures ReplaceAllChar([x], c, rep) == (if x == c then rep else [x])
  {
    assert [x][1..] == "";
  }

  /** The later passes leave the entity produced by an earlier pass alone. */
  lemma ChainOne(c: char)
    ensures Chain([c]) == Entity(c)
  {
    ReplaceOne(c, '&', "&amp;");
    if c == '&' {
      Pass2Absent(Entity(c));
    } else {
      ReplaceOne(c, '<', "&lt;");
      if c == '<' {
        Pass3Absent(Entity(c));
      } else {
        ReplaceOne(c, '>', "&gt;");
        if c == '>' {
          Pass4Absent(Entity(c));
        } else {
          ReplaceOne(c, '"', "&quot;");
          if c == '"' {
            ReplaceAllCharAbsent(Entity(c), '\'', "&#039;");
          } else {
            ReplaceOne(c, '\'', "&#039;");
          }
        }
      }
    }
  }

  /** The five sequential passes agree with independent per-character escaping:
      because `&` is replaced first, `<` becomes `&lt;` and never `&amp;lt;`. */
  lemma {:induction false} EscapeHtmlIsCharwise(s: string)
    ensures Chain(s) == EscapeCharwise(s)
    ensures NoMarkup(EscapeCharwise(s))
  {
    ChainIsCharwise(s);
    CharwiseNoMarkup(s);
  }

  lemma {:induction false} ChainIsCharwise(s: string)
    ensures Chain(s) == EscapeCharwise(s)
  {
    if |s| > 0 {
      ChainIsCharwise(s[1..]);
      assert s == [s[0]] + s[1..];
      ChainAppend([s[0]], s[1..]);
      ChainOne(s[0]);
    }
  }

  lemma {:induction false} CharwiseNoMarkup(s: string)
    ensures NoMarkup(EscapeCharwise(s))
  {
    if |s| > 0 {
      CharwiseNoMarkup(s[1..]);
      NoMarkupAppend(Entity(s[0]), EscapeCharwise(s[1..]));
    }
  }

  lemma NoMarkupAppend(a: string, b: string)
    requires NoMarkup(a) && NoMarkup(b)
    ensures NoMarkup(a + b)
  {
    forall i | 0 <= i < |a + b|
      ensures (a + b)[i] != '<' && (a + b)[i] != '>' && (a + b)[i] != '"' && (a + b)[i] != '\''
    {
      if i < |a| { assert (a + b)[i] == a[i]; } else { assert (a + b)[i] == b[i - |a|]; }
    }
  }

  /** Escaping is the identity on text with none of `& < > " '`. */
  lemma {:induction false} EscapeHtmlPlainText(s: string)
    requires forall i :: 0 <= i < |s| ==> !Special(s[i])
    ensures EscapeHtml(s) == s
  {
    PlainCharwise(s);
  }

  lemma {:induction false} PlainCharwise(s: string)
    requires forall i :: 0 <= i < |s| ==> !Special(s[i])
    ensures EscapeCharwise(s) == s
  {
    if |s| > 0 {
      PlainCharwise(s[1..]);
      assert [s[0]] + s[1..] == s;
    }
  }

  /** Decoding of the five entities, the inverse of escaping. */
  function UnescapeHtml(s: string): string
    decreases |s|
  {
    if |s| == 0 then ""
    else if StartsWith(s, "&amp;") then "&" + UnescapeHtml(s[5..])
    else if StartsWith(s, "&lt;") then "<" + UnescapeHtml(s[4..])
    else if StartsWith(s, "&gt;") then ">" + UnescapeHtml(s[4..])
    else if StartsWith(s, "&quot;") then "\"" + UnescapeHtml(s[6..])
    else if StartsWith(s, "&#039;") then "'" + UnescapeHtml(s[6..])
    else [s[0]] + UnescapeHtml(s[1..])
  }

  lemma UnescapeEntity(c: char, rest: string)
    ensures UnescapeHtml(Entity(c) + rest) == [c] + UnescapeHtml(rest)
  {
    var e := Entity(c);
    var s := e + rest;
    assert s[..|e|] == e;
    assert s[|e|..] == rest;
    if !Special(c) {
      assert s[0] == c && s[1..] == rest;
      assert !StartsWith(s, "&amp;") && !StartsWith(s, "&lt;") && !StartsWith(s, "&gt;");
      assert !StartsWith(s, "&quot;") && !StartsWith(s, "&#039;");
    } else if c == '<' {
      assert !StartsWith(s, "&amp;") by { assert s[1] == 'l'; }
    } else if c == '>' {
      assert !StartsWith(s, "&amp;") by { assert s[1] == 'g'; }
      assert !StartsWith(s, "&lt;") by { assert s[1] == 'g'; }
    } else if c == '"' {
      assert !StartsWith(s, "&amp;") by { assert s[1] == 'q'; }
      assert !StartsWith(s, "&lt;") by { assert s[1] == 'q'; }
      assert !StartsWith(s, "&gt;") by { assert s[1] == 'q'; }
    } else if c == '\'' {
      assert !StartsWith(s, "&amp;") by { assert s[1] == '#'; }
      assert !StartsWith(s, "&lt;") by { assert s[1] == '#'; }
      assert !StartsWith(s, "&gt;") by { assert s[1] == '#'; }
      assert !StartsWith(s, "&quot;") by { assert s[1] == '#'; }
    }
  }

  /** Unescaping an escaped string gives back the original text. */
  lemma {:induction false} UnescapeEscape(s: string)
    ensures UnescapeHtml(EscapeHtml(s)) == s
  {
    UnescapeCharwise(s);
  }

  lemma {:induction false} UnescapeCharwise(s: string)
    ensures UnescapeHtml(EscapeCharwise(s)) == s
  {
    if |s| > 0 {
      UnescapeCharwise(s[1..]);
      UnescapeEntity(s[0], EscapeCharwise(s[1..]));
      assert [s[0]] + s[1..] == s;
    }
  }

  // ---------------------------------------------------------------------------
  // Lists of lines separated by `<br/>`.

  const Break := "<br/>"

  /** `items.join("<br/>")`. */
  function JoinBreaks(items: seq<string>): string
  {
    Join(items, Break)
  }

  /** Splits a `<br/>`-joined list back into its lines; lines never hold `<`. */
  function SplitBreaks(s: string): seq<string>
  {
    var parts := Split(s, '<');
    [parts[0]] + seq(|parts| - 1, i requires 0 <= i < |parts| - 1 => DropTag(parts[i + 1]))
  }

  function DropTag(p: string): string
  {
    if StartsWith(p, "br/>") then p[4..] else p
  }

  /** The pieces `items.join("<br/>")` falls into when split at `<`. */
  function Tagged(items: seq<string>): seq<string>
    requires |items| > 0
  {
    [items[0]] + Prefixed(items[1..])
  }

  function Prefixed(xs: seq<string>): (r: seq<string>)
    ensures |r| == |xs|
    ensures forall i :: 0 <= i < |xs| ==> r[i] == "br/>" + xs[i]
  {
    seq(|xs|, i requires 0 <= i < |xs| => "br/>" + xs[i])
  }

  lemma {:induction false} JoinPrefixed(xs: seq<string>)
    requires |xs| > 0
    ensures Join(Prefixed(xs), "<") == "br/>" + Join(xs, Break)
  {
    var ps := Prefixed(xs);
    if |xs| > 1 {
      JoinPrefixed(xs[1..]);
      assert ps[1..] == Prefixed(xs[1..]);
      assert Join(ps, "<") == ps[0] + "<" + Join(ps[1..], "<");
    }
  }

  lemma JoinBreaksTagged(items: seq<string>)
    requires |items| > 0
    ensures JoinBreaks(items) == Join(Tagged(items), "<")
  {
    var t := Tagged(items);
    if |items| > 1 {
      JoinPrefixed(items[1..]);
      assert t[1..] == Prefixed(items[1..]);
      assert Join(t, "<") == t[0] + "<" + Join(t[1..], "<");
    }
  }

  /** A `<br/>`-joined list of lines without `<` splits back into the same lines. */
  lemma SplitJoinBreaks(items: seq<string>)
    requires |items| > 0
    requires forall i :: 0 <= i < |items| ==> '<' !in items[i]
    ensures SplitBreaks(JoinBreaks(items)) == items
  {
    JoinBreaksTagged(items);
    var t := Tagged(items);
    forall i | 0 <= i < |t| ensures '<' !in t[i] {
      if i > 0 {
        assert t[i] == "br/>" + items[i];
      }
    }
    SplitJoin(t, '<');
    var r := SplitBreaks(JoinBreaks(items));
    assert |r| == |items|;
    forall i | 0 <= i < |items| ensures r[i] == items[i] {
      if i > 0 {
        assert t[i] == "br/>" + items[i];
        assert DropTag(t[i]) == items[i];
      }
    }
  }

  lemma NoMarkupHasNoOpenTag(s: string)
    requires NoMarkup(s)
    ensures '<' !in s
  {
  }
}
