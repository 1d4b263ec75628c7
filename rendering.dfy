/**
 * `pyramid_hypernova/rendering.py`: the placeholder markup written when a job
 * is rendered on the client instead of the server, the escaping of the job's
 * data inside it, and the render token that marks where a job's markup goes.
 */
module Rendering {

  import opened Types
  import opened Strings

  /** `encode`: the encoder's text with `&` and then `>` escaped. */
  function Encode(data: Json, encoder: Encoder): string
  {
    var text := encoder(data);
    ReplaceAll(ReplaceAll(text, "&", "&amp;"), ">", "&gt;")
  }

  /** Reference definition of the escaping, one character at a time. */
  function EscapeChar(c: char): string
  {
    if c == '&' then "&amp;" else if c == '>' then "&gt;" else [c]
  }

  function Escape(t: string): string
  {
    if |t| == 0 then "" else EscapeChar(t[0]) + Escape(t[1..])
  }

  /** The client's decoding: `&amp;` and `&gt;` resolved in one left-to-right pass. */
  function Unescape(s: string): string
    decreases |s|
  {
    if |s| == 0 then s
    else if MatchAt(s, "&amp;", 0) then "&" + Unescape(s[5..])
    else if MatchAt(s, "&gt;", 0) then ">" + Unescape(s[4..])
    else [s[0]] + Unescape(s[1..])
  }

  lemma {:induction false} ReplaceAbsentChar(s: string, c: char, rep: string)
    requires c !in s
    ensures ReplaceAll(s, [c], rep) == s
  {
    forall k: nat | k <= |s|
      ensures !MatchAt(s, [c], k)
    {
      if k < |s| {
        assert s[k..k + 1] == [s[k]];
      }
    }
    ReplaceAllAbsent(s, [c], rep);
  }

  /** The two chained `replace` calls escape the text character by character. */
  lemma {:induction false} ReplaceChainIsEscape(t: string)
    ensures ReplaceAll(ReplaceAll(t, "&", "&amp;"), ">", "&gt;") == Escape(t)
    decreases |t|
  {
    if |t| > 0 {
      var head, rest := [t[0]], t[1..];
      assert t == head + rest;
      ReplaceCharConcat(head, rest, '&', "&amp;");
      var h1 := ReplaceAll(head, "&", "&amp;");
      ReplaceCharConcat(h1, ReplaceAll(rest, "&", "&amp;"), '>', "&gt;");
      if t[0] == '&' {
        assert h1 == "&amp;";
        ReplaceAbsentChar("&amp;", '>', "&gt;");
      } else if t[0] == '>' {
        assert h1 == ">";
      } else {
        assert h1 == head;
      }
      ReplaceChainIsEscape(rest);
    }
  }

  lemma {:induction false} EncodeIsEscape(data: Json, encoder: Encoder)
    ensures Encode(data, encoder) == Escape(encoder(data))
  {
    ReplaceChainIsEscape(encoder(data));
  }

  lemma {:induction false} EscapeHasNoGt(t: string)
    ensures '>' !in Escape(t)
    decreases |t|
  {
    if |t| > 0 {
      EscapeHasNoGt(t[1..]);
    }
  }

  /** The encoded data never contains `>`, so it cannot close the comment it sits in. */
  lemma {:induction false} EncodeHasNoGt(data: Json, encoder: Encoder)
    ensures '>' !in Encode(data, encoder)
  {
    EncodeIsEscape(data, encoder);
    EscapeHasNoGt(encoder(data));
  }

  lemma {:induction false} EscapeKeepsPlainText(t: string)
    requires '&' !in t && '>' !in t
    ensures Escape(t) == t
    decreases |t|
  {
    if |t| > 0 {
      EscapeKeepsPlainText(t[1..]);
      assert t == [t[0]] + t[1..];
    }
  }

  /** Text without `&` and `>` is embedded as it is; in particular `<` is not escaped. */
  lemma {:induction false} EncodeKeepsPlainText(data: Json, encoder: Encoder)
    requires '&' !in encoder(data) && '>' !in encoder(data)
    ensures Encode(data, encoder) == encoder(data)
  {
    EncodeIsEscape(data, encoder);
    EscapeKeepsPlainText(encoder(data));
  }

  lemma {:induction false} UnescapeEscape(t: string)
    ensures Unescape(Escape(t)) == t
    decreases |t|
  {
    if |t| > 0 {
      var c, x := t[0], Escape(t[1..]);
      var s := EscapeChar(c) + x;
      assert Escape(t) == s;
      if c == '&' {
        assert s[..5] == "&amp;" && s[5..] == x;
      } else if c == '>' {
        assert s[1] == 'g';
        assert !MatchAt(s, "&amp;", 0);
        assert s[..4] == "&gt;" && s[4..] == x;
      } else {
        assert s[0] == c;
        assert !MatchAt(s, "&amp;", 0) && !MatchAt(s, "&gt;", 0);
        assert s[1..] == x;
      }
      UnescapeEscape(t[1..]);
      assert t == [c] + t[1..];
    }
  }

  /** Decoding the embedded data gives back exactly the encoder's text. */
  lemma {:induction false} UnescapeEncode(data: Json, encoder: Encoder)
    ensures Unescape(Encode(data, encoder)) == encoder(data)
  {
    EncodeIsEscape(data, encoder);
    UnescapeEscape(encoder(data));
  }

  /** A character that `\w` matches, restricted to ASCII. */
  predicate IsWordChar(c: char)
  {
    ('a' <= c <= 'z') || ('A' <= c <= 'Z') || ('0' <= c <= '9') || c == '_'
  }

  /** `re.sub(r'\W', '', s)`: the word characters of `s`, in order. */
  function StripNonWord(s: string): string
  {
    if |s| == 0 then "" else (if IsWordChar(s[0]) then [s[0]] else "") + StripNonWord(s[1..])
  }

  /** Only word characters are left, and each as often as it occurs in the name. */
  lemma {:induction false} StripNonWordFilters(s: string)
    ensures forall i :: 0 <= i < |StripNonWord(s)| ==> IsWordChar(StripNonWord(s)[i])
    ensures forall c :: IsWordChar(c) ==> multiset(StripNonWord(s))[c] == multiset(s)[c]
    decreases |s|
  {
    if |s| > 0 {
      StripNonWordFilters(s[1..]);
      assert s == [s[0]] + s[1..];
      assert multiset(s) == multiset([s[0]]) + multiset(s[1..]);
    }
  }

  lemma {:induction false} StripNonWordConcat(a: string, b: string)
    ensures StripNonWord(a + b) == StripNonWord(a) + StripNonWord(b)
    decreases |a|
  {
    if |a| == 0 {
      assert a + b == b;
    } else {
      var head := if IsWordChar(a[0]) then [a[0]] else "";
      assert (a + b)[0] == a[0];
      assert (a + b)[1..] == a[1..] + b;
      assert StripNonWord(a + b) == head + StripNonWord(a[1..] + b);
      StripNonWordConcat(a[1..], b);
      assert StripNonWord(a) == head + StripNonWord(a[1..]);
    }
  }

  lemma {:induction false} StripNonWordKeepsWords(s: string)
    requires forall i :: 0 <= i < |s| ==> IsWordChar(s[i])
    ensures StripNonWord(s) == s
    decreases |s|
  {
    if |s| > 0 {
      StripNonWordKeepsWords(s[1..]);
      assert s == [s[0]] + s[1..];
    }
  }

  /** A file name such as `MyCoolComponent.js` loses its dot and nothing else. */
  lemma {:induction false} StripNonWordFileName(stem: string, ext: string)
    requires forall i :: 0 <= i < |stem| ==> IsWordChar(stem[i])
    requires forall i :: 0 <= i < |ext| ==> IsWordChar(ext[i])
    ensures StripNonWord(stem + "." + ext) == stem + ext
  {
    var dot := ".";
    assert StripNonWord(dot) == "" by {
      assert !IsWordChar(dot[0]);
      assert dot[1..] == "";
    }
    var name := stem + dot;
    StripNonWordConcat(stem, dot);
    StripNonWordKeepsWords(stem);
    assert StripNonWord(name) == stem;
    StripNonWordConcat(name, ext);
    StripNonWordKeepsWords(ext);
    assert stem + "." + ext == name + ext;
  }

  // ----- the templates and `str.format` -----

  /**
   * A template as `str.format` reads it: pieces of literal text and named
   * replacement fields, one after the other.
   */
  datatype Template =
    | End
    | Text(text: string, rest: Template)
    | Field(name: string, rest: Template)

  /** Every replacement field of `t` is one of `names`. */
  predicate Bound(t: Template, names: set<string>)
  {
    match t
    case End => true
    case Text(_, rest) => Bound(rest, names)
    case Field(name, rest) => name in names && Bound(rest, names)
  }

  /** `t.format(**fields)`: the text as it is and each field replaced by its value (a missing one raises `KeyError`). */
  function Format(t: Template, fields: map<string, string>): string
    requires Bound(t, fields.Keys)
  {
    match t
    case End => ""
    case Text(text, rest) => text + Format(rest, fields)
    case Field(name, rest) => fields[name] + Format(rest, fields)
  }

  /** A template whose fields are among some names has its fields among any larger set. */
  lemma {:induction false} BoundMonotone(t: Template, names: set<string>, more: set<string>)
    requires Bound(t, names) && names <= more
    ensures Bound(t, more)
  {
    match t
    case End =>
    case Text(_, rest) => BoundMonotone(rest, names, more);
    case Field(_, rest) => BoundMonotone(rest, names, more);
  }

  /** A value for a name the template does not use changes nothing; `format` ignores unused keywords. */
  lemma {:induction false} FormatIgnoresUnused(t: Template, fields: map<string, string>, name: string, value: string)
    requires Bound(t, fields.Keys - {name})
    ensures Bound(t, fields.Keys) && Bound(t, fields[name := value].Keys)
    ensures Format(t, fields[name := value]) == Format(t, fields)
  {
    BoundMonotone(t, fields.Keys - {name}, fields.Keys);
    BoundMonotone(t, fields.Keys - {name}, fields[name := value].Keys);
    match t
    case End =>
    case Text(_, rest) => FormatIgnoresUnused(rest, fields, name, value);
    case Field(_, rest) => FormatIgnoresUnused(rest, fields, name, value);
  }

  /** Text before the first field comes first in the result: the result starts with a template's leading text. */
  lemma {:induction false} FormatStartsWithText(text: string, rest: Template, fields: map<string, string>)
    requires Bound(rest, fields.Keys)
    ensures Bound(Text(text, rest), fields.Keys)
    ensures text <= Format(Text(text, rest), fields)
  {
    var r := Format(rest, fields);
    assert (text + r)[..|text|] == text;
  }

  /*
   * The two templates below are written out after `dedent`: every line ends
   * in a newline and the first line of each template is empty. In the second,
   * `{{` and `}}` appear as the braces `format` turns them into.
   */

  /** `BLANK_MARKUP_TEMPLATE`. */
  const BlankMarkupTemplate: Template :=
    Text("\n",
    Text("<div data-hypernova-key=\"",
    Field("key",
    Text("\" data-hypernova-id=\"",
    Field("identifier",
    Text("\"></div>\n",
    Text("<script\n",
    Text("  type=\"application/json\"\n",
    Text("  data-hypernova-key=\"",
    Field("key",
    Text("\"\n",
    Text("  data-hypernova-id=\"",
    Field("identifier",
    Text("\"\n",
    Text("><!--",
    Field("encoded_data",
    Text("--></script>\n",
    End)))))))))))))))))

  /** `FALLBACK_ERROR`. */
  const FallbackErrorTemplate: Template :=
    Text("\n",
    Text("<script type=\"text/javascript\">\n",
    Text("    (function () {\n",
    Text("        function ServerSideRenderingError(component) {\n",
    Text("            this.name = 'ServerSideRenderingError';\n",
    Text("            this.component = component;\n",
    Text("        }\n",
    Text("\n",
    Text("        ServerSideRenderingError.prototype = Object.create(ServerSideRenderingError.prototype);\n",
    Text("        ServerSideRenderingError.prototype.constructor = ServerSideRenderingError;\n",
    Text("\n",
    Text("        throw new ServerSideRenderingError('",
    Field("component",
    Text(" failed to render server-side, and fell back to client-side rendering.');\n",
    Text("    }());\n",
    Text("</script>\n",
    End))))))))))))))))

  /** `BLANK_MARKUP_TEMPLATE.format(key=..., identifier=..., encoded_data=...)`. */
  function BlankMarkup(key: string, identifier: string, encodedData: string): string
  {
    var fields := map["key" := key, "identifier" := identifier, "encoded_data" := encodedData];
    var names := {"key", "identifier", "encoded_data"};
    assert Bound(BlankMarkupTemplate, names) by {
      // The second half of the template first, then the whole.
      assert Bound(BlankMarkupTemplate.rest.rest.rest.rest.rest.rest.rest.rest, names);
    }
    assert fields.Keys == names;
    Format(BlankMarkupTemplate, fields)
  }

  /** `FALLBACK_ERROR.format(component=...)`. */
  function FallbackError(component: string): string
  {
    var fields := map["component" := component];
    assert Bound(FallbackErrorTemplate, {"component"});
    assert fields.Keys == {"component"};
    Format(FallbackErrorTemplate, fields)
  }

  /** `render_blank_markup`: the placeholder for a job rendered on the client. */
  function RenderBlankMarkup(identifier: string, job: Job, throwClientError: bool, encoder: Encoder): string
  {
    var key := StripNonWord(job.name);
    var blankMarkup := BlankMarkup(key, identifier, Encode(job.data, encoder));
    if throwClientError then blankMarkup + FallbackError(key) else blankMarkup
  }

  /** Without the flag the markup is the template alone; with it the error script follows. */
  lemma {:induction false} RenderBlankMarkupShape(identifier: string, job: Job, encoder: Encoder)
    ensures var key := StripNonWord(job.name);
      && RenderBlankMarkup(identifier, job, false, encoder) == BlankMarkup(key, identifier, Encode(job.data, encoder))
      && RenderBlankMarkup(identifier, job, true, encoder)
         == RenderBlankMarkup(identifier, job, false, encoder) + FallbackError(key)
  {
  }

  /** The markup without the error script is a prefix of the markup with it. */
  lemma {:induction false} RenderBlankMarkupPrefix(identifier: string, job: Job, encoder: Encoder)
    ensures RenderBlankMarkup(identifier, job, false, encoder) <= RenderBlankMarkup(identifier, job, true, encoder)
    ensures |RenderBlankMarkup(identifier, job, false, encoder)| < |RenderBlankMarkup(identifier, job, true, encoder)|
  {
    RenderBlankMarkupShape(identifier, job, encoder);
    FallbackErrorNonEmpty(StripNonWord(job.name));
    ProperPrefix(RenderBlankMarkup(identifier, job, false, encoder), FallbackError(StripNonWord(job.name)));
  }

  lemma {:induction false} FallbackErrorNonEmpty(component: string)
    ensures |FallbackError(component)| > 0
  {
    assert |FallbackError(component)| >= |"\n"|;
  }

  lemma {:induction false} ProperPrefix(a: string, b: string)
    requires |b| > 0
    ensures a <= a + b && |a| < |a + b|
  {
    assert (a + b)[..|a|] == a;
  }

  /** Fallback markup is never empty. */
  lemma {:induction false} RenderBlankMarkupNonEmpty(identifier: string, job: Job, throwClientError: bool, encoder: Encoder)
    ensures |RenderBlankMarkup(identifier, job, throwClientError, encoder)| > 0
  {
    var key := StripNonWord(job.name);
    assert BlankMarkup(key, identifier, Encode(job.data, encoder))[0] == '\n';
  }

  /**
   * For a component file `stem.ext` and data whose encoding has no `&` or `>`,
   * the markup carries `stem + ext` as key and the encoder's text unchanged.
   */
  lemma {:induction false} RenderBlankMarkupPlain(identifier: string, stem: string, ext: string, data: Json, context: Json, encoder: Encoder)
    requires forall i :: 0 <= i < |stem| ==> IsWordChar(stem[i])
    requires forall i :: 0 <= i < |ext| ==> IsWordChar(ext[i])
    requires '&' !in encoder(data) && '>' !in encoder(data)
    ensures RenderBlankMarkup(identifier, Job(stem + "." + ext, data, context), false, encoder)
         == BlankMarkup(stem + ext, identifier, encoder(data))
  {
    StripNonWordFileName(stem, ext);
    EncodeKeepsPlainText(data, encoder);
  }

  const TokenPrefix: string := "<!--hypernova-render-token-"
  const TokenSuffix: string := "-->"

  /** A placeholder for a job, later replaced by the job's markup. */
  datatype RenderToken = RenderToken(identifier: string)
  {
    /** `__html__`. */
    function Html(): string
    {
      TokenPrefix + identifier + TokenSuffix
    }

    /** `__str__`, which returns `__html__()`. */
    function Str(): string
    {
      Html()
    }
  }

  /** The identifier can be read back from the token text, so distinct identifiers give distinct tokens. */
  lemma {:induction false} TokenIdentifierRoundTrip(identifier: string)
    ensures var t := RenderToken(identifier).Str();
      && t == "<!--hypernova-render-token-" + identifier + "-->"
      && |t| == |TokenPrefix| + |identifier| + |TokenSuffix|
      && t[|TokenPrefix|..|t| - |TokenSuffix|] == identifier
  {
  }

  lemma {:induction false} TokenInjective(a: string, b: string)
    requires a != b
    ensures RenderToken(a).Str() != RenderToken(b).Str()
  {
    TokenIdentifierRoundTrip(a);
    TokenIdentifierRoundTrip(b);
  }
}
