/**
 * The configuration pass that settles the design: the right-to-left flag
 * derived from the locale, and the custom CSS rendered from a Twig template
 * and squeezed onto one line. The Twig renderer is abstract.
 */
module DesignPass {
  import opened PhpString
  import opened PhpArray

  /** Twig's `render($template, $variables)`. */
  type Renderer = (string, Value) -> string

  const CSS_TEMPLATE: string := "@EasyAdmin/css/easyadmin.css.twig"

  /** ar = Arabic, fa = Persian, he = Hebrew */
  const RTL_LANGUAGES: seq<string> := ["ar", "fa", "he"]

  predicate IsRtlLocale(locale: string) {
    Prefix(locale, 2) in RTL_LANGUAGES
  }

  function ProcessRtlLanguages(config: Value, locale: string): Value {
    if !IsSet(At(config, "design"), "rtl") then Set2(config, "design", "rtl", Bool(IsRtlLocale(locale)))
    else config
  }

  /** The variables handed to the CSS template. */
  function CssVariables(config: Value, kernelDebug: bool): Value {
    Arr([Entry("brand_color", At(At(config, "design"), "brand_color")),
         Entry("color_scheme", At(At(config, "design"), "color_scheme")),
         Entry("kernel_debug", Bool(kernelDebug))])
  }

  /** The CSS template receives exactly the brand colour, the colour scheme
      and the debug flag. */
  lemma CssVariablesFacts(config: Value, kernelDebug: bool)
    ensures Keys(Entries(CssVariables(config, kernelDebug))) == ["brand_color", "color_scheme", "kernel_debug"]
    ensures At(CssVariables(config, kernelDebug), "brand_color") == Path(config, ["design", "brand_color"])
    ensures At(CssVariables(config, kernelDebug), "color_scheme") == Path(config, ["design", "color_scheme"])
    ensures At(CssVariables(config, kernelDebug), "kernel_debug") == Bool(kernelDebug)
  {
    var b, c, k := At(At(config, "design"), "brand_color"), At(At(config, "design"), "color_scheme"), Bool(kernelDebug);
    var es := [Entry("brand_color", b), Entry("color_scheme", c), Entry("kernel_debug", k)];
    assert es[1..] == [Entry("color_scheme", c), Entry("kernel_debug", k)];
    assert es[1..][1..] == [Entry("kernel_debug", k)];
    assert "brand_color" != "color_scheme" && "brand_color" != "kernel_debug" by {
      assert |"brand_color"| == 11 && |"color_scheme"| == 12 && |"kernel_debug"| == 12;
    }
    assert "color_scheme" != "kernel_debug" by {
      assert "color_scheme"[0] == 'c' && "kernel_debug"[0] == 'k';
    }
    assert Find(es[1..], "color_scheme") == Some(c);
    assert Find(es[1..][1..], "kernel_debug") == Some(k);
    assert Find(es[1..], "kernel_debug") == Some(k);
    assert Entries(CssVariables(config, kernelDebug)) == es;
    assert Keys(es[1..][1..]) == ["kernel_debug"];
    assert Keys(es[1..]) == ["color_scheme", "kernel_debug"];
  }

  // ---------------------------------------------------------------------------
  // preg_replace(['/\n/', '/\s{2,}/'], ' ', $css)

  predicate NoNewline(s: string) {
    forall i :: 0 <= i < |s| ==> s[i] != '\n'
  }

  predicate NoAdjacentWhitespace(s: string) {
    forall i :: 0 < i < |s| ==> !(IsWhitespace(s[i - 1]) && IsWhitespace(s[i]))
  }

  /** The first pattern: every line feed becomes a space. */
  function ReplaceNewlines(s: string): string {
    ReplaceAll(s, "\n", " ")
  }

  /** The length of the whitespace run at the start of s. */
  function WhitespaceRun(s: string): (n: nat)
    ensures n <= |s|
    ensures forall i :: 0 <= i < n ==> IsWhitespace(s[i])
    ensures n < |s| ==> !IsWhitespace(s[n])
    decreases |s|
  {
    if |s| > 0 && IsWhitespace(s[0]) then 1 + WhitespaceRun(s[1..]) else 0
  }

  /** The second pattern, matched greedily from the left: a run of two or
      more whitespace characters becomes one space; a lone one is kept. */
  function CollapseWhitespace(s: string): (r: string)
    ensures |r| == 0 <==> |s| == 0
    ensures |s| > 0 ==> (IsWhitespace(r[0]) <==> IsWhitespace(s[0]))
    ensures NoAdjacentWhitespace(r)
    ensures NoNewline(s) ==> NoNewline(r)
    decreases |s|
  {
    if |s| == 0 then ""
    else if IsWhitespace(s[0]) && |s| > 1 && IsWhitespace(s[1]) then " " + CollapseWhitespace(s[WhitespaceRun(s)..])
    else [s[0]] + CollapseWhitespace(s[1..])
  }

  function Minify(css: string): string {
    CollapseWhitespace(ReplaceNewlines(css))
  }

  function ProcessCustomCss(config: Value, twig: Renderer, kernelDebug: bool): Value {
    var css := twig(CSS_TEMPLATE, CssVariables(config, kernelDebug));
    Set2(config, "_internal", "custom_css", Str(Minify(css)))
  }

  /** The pass: the RTL step, then the CSS step. */
  function Process(config: Value, twig: Renderer, kernelDebug: bool, locale: string): Value {
    ProcessCustomCss(ProcessRtlLanguages(config, locale), twig, kernelDebug)
  }

  // ---------------------------------------------------------------------------
  // The minified CSS.

  /** The characters of s that are not whitespace, in order. */
  function Text(s: string): string
    decreases |s|
  {
    if |s| == 0 then "" else (if IsWhitespace(s[0]) then "" else [s[0]]) + Text(s[1..])
  }

  lemma {:induction false} TextAppend(a: string, b: string)
    ensures Text(a + b) == Text(a) + Text(b)
    decreases |a|
  {
    if |a| > 0 {
      assert (a + b)[1..] == a[1..] + b;
      TextAppend(a[1..], b);
    } else {
      assert a + b == b;
    }
  }

  lemma {:induction false} TextOfWhitespace(s: string)
    requires forall i :: 0 <= i < |s| ==> IsWhitespace(s[i])
    ensures Text(s) == ""
    decreases |s|
  {
    if |s| > 0 {
      TextOfWhitespace(s[1..]);
    }
  }

  /** Two strings that differ only by one whitespace character for another have the same text. */
  lemma {:induction false} TextUpToWhitespace(a: string, b: string)
    requires |a| == |b|
    requires forall i :: 0 <= i < |a| ==> a[i] == b[i] || (IsWhitespace(a[i]) && IsWhitespace(b[i]))
    ensures Text(a) == Text(b)
    decreases |a|
  {
    if |a| > 0 {
      TextUpToWhitespace(a[1..], b[1..]);
    }
  }

  lemma {:induction false} CollapseKeepsText(s: string)
    ensures Text(CollapseWhitespace(s)) == Text(s)
    decreases |s|
  {
    if |s| > 0 {
      if IsWhitespace(s[0]) && |s| > 1 && IsWhitespace(s[1]) {
        var n := WhitespaceRun(s);
        CollapseKeepsText(s[n..]);
        assert s == s[..n] + s[n..];
        TextAppend(s[..n], s[n..]);
        TextOfWhitespace(s[..n]);
        TextAppend(" ", CollapseWhitespace(s[n..]));
      } else {
        CollapseKeepsText(s[1..]);
        TextAppend([s[0]], CollapseWhitespace(s[1..]));
      }
    }
  }

  /** The minified CSS has no line feed and no two whitespace characters in a
      row, and keeps every other character in order. */
  lemma MinifyFacts(css: string)
    ensures NoNewline(Minify(css))
    ensures NoAdjacentWhitespace(Minify(css))
    ensures Text(Minify(css)) == Text(css)
  {
    var t := ReplaceNewlines(css);
    ReplaceCharPointwise(css, '\n', ' ');
    TextUpToWhitespace(css, t);
    CollapseKeepsText(t);
  }

  /** A string that is already minified is left alone. */
  lemma {:induction false} CollapseFixpoint(s: string)
    requires NoAdjacentWhitespace(s)
    ensures CollapseWhitespace(s) == s
    decreases |s|
  {
    if |s| > 0 {
      var t := s[1..];
      NoAdjacentTail(s);
      CollapseFixpoint(t);
      if |s| > 1 {
        assert !(IsWhitespace(s[0]) && IsWhitespace(s[1]));
      }
      assert s == [s[0]] + t;
    }
  }

  lemma NoAdjacentTail(s: string)
    requires |s| > 0 && NoAdjacentWhitespace(s)
    ensures NoAdjacentWhitespace(s[1..])
  {
    forall i | 0 < i < |s[1..]| ensures !(IsWhitespace(s[1..][i - 1]) && IsWhitespace(s[1..][i])) {
      assert s[1..][i - 1] == s[i] && s[1..][i] == s[i + 1];
    }
  }

  lemma MinifyIdempotent(css: string)
    ensures Minify(Minify(css)) == Minify(css)
  {
    var m := Minify(css);
    MinifyFacts(css);
    ReplaceCharPointwise(m, '\n', ' ');
    assert ReplaceNewlines(m) == m;
    CollapseFixpoint(m);
  }

  // ---------------------------------------------------------------------------
  // The RTL flag.

  /** With `design.rtl` unset (missing or null), it becomes true exactly for
      the locales starting with ar, fa or he; every other design key and every
      other top-level key is left as it was. */
  lemma RtlDefault(config: Value, locale: string, k: string)
    requires !IsSet(At(config, "design"), "rtl")
    ensures At(At(ProcessRtlLanguages(config, locale), "design"), "rtl") == Bool(IsRtlLocale(locale))
    ensures k != "rtl" ==> Get(At(ProcessRtlLanguages(config, locale), "design"), k) == Get(Arr(Entries(At(config, "design"))), k)
    ensures k != "design" ==> Get(ProcessRtlLanguages(config, locale), k) == Get(Arr(Entries(config)), k)
  {
    var design := At(config, "design");
    var rtl := Bool(IsRtlLocale(locale));
    GetSet(config, "design", Set(design, "rtl", rtl), "design");
    GetSet(config, "design", Set(design, "rtl", rtl), k);
    GetSet(design, "rtl", rtl, "rtl");
    GetSet(design, "rtl", rtl, k);
  }

  lemma RtlExamples()
    ensures IsRtlLocale("ar_SA") && IsRtlLocale("fa") && IsRtlLocale("he_IL")
    ensures !IsRtlLocale("en") && !IsRtlLocale("a") && !IsRtlLocale("") && !IsRtlLocale("fr_FR")
  {
    assert RTL_LANGUAGES == ["ar", "fa", "he"];
    assert Prefix("ar_SA", 2) == "ar" && Prefix("fa", 2) == "fa" && Prefix("he_IL", 2) == "he";
    assert Prefix("en", 2) == "en" && Prefix("a", 2) == "a" && Prefix("", 2) == "" && Prefix("fr_FR", 2) == "fr";
    assert "en"[0] != "ar"[0] && "en"[0] != "fa"[0] && "en"[0] != "he"[0];
    assert "fr"[0] != "ar"[0] && "fr"[1] != "fa"[1] && "fr"[0] != "he"[0];
  }

  /** A value already in `design.rtl` is never changed, so the step is idempotent. */
  lemma RtlIdempotent(config: Value, locale: string)
    ensures IsSet(At(ProcessRtlLanguages(config, locale), "design"), "rtl")
    ensures ProcessRtlLanguages(ProcessRtlLanguages(config, locale), locale) == ProcessRtlLanguages(config, locale)
  {
    if !IsSet(At(config, "design"), "rtl") {
      RtlDefault(config, locale, "rtl");
    }
  }

  /** The RTL step does not touch what the CSS template receives. */
  lemma RtlKeepsCssVariables(config: Value, locale: string, kernelDebug: bool)
    ensures CssVariables(ProcessRtlLanguages(config, locale), kernelDebug) == CssVariables(config, kernelDebug)
  {
    if !IsSet(At(config, "design"), "rtl") {
      RtlDefault(config, locale, "brand_color");
      RtlDefault(config, locale, "color_scheme");
      var design := At(config, "design");
      assert Get(Arr(Entries(design)), "brand_color") == Get(design, "brand_color");
      assert Get(Arr(Entries(design)), "color_scheme") == Get(design, "color_scheme");
    }
  }

  // ---------------------------------------------------------------------------
  // The whole pass.

  /** What the pass produces: `design.rtl` set when it was unset,
      `_internal.custom_css` the minified rendering of the template with the
      brand colour, the colour scheme and the kernel debug flag, and every other
      top-level key unchanged. */
  lemma ProcessFacts(config: Value, twig: Renderer, kernelDebug: bool, locale: string, k: string)
    requires config.Arr?
    ensures var r := Process(config, twig, kernelDebug, locale);
      && At(At(r, "_internal"), "custom_css") == Str(Minify(twig(CSS_TEMPLATE, CssVariables(config, kernelDebug))))
      && At(At(r, "design"), "rtl") ==
           (if IsSet(At(config, "design"), "rtl") then At(At(config, "design"), "rtl") else Bool(IsRtlLocale(locale)))
      && (k != "design" && k != "_internal" ==> Get(r, k) == Get(config, k))
  {
    var c1 := ProcessRtlLanguages(config, locale);
    var css := Str(Minify(twig(CSS_TEMPLATE, CssVariables(c1, kernelDebug))));
    RtlKeepsCssVariables(config, locale, kernelDebug);
    if !IsSet(At(config, "design"), "rtl") {
      RtlDefault(config, locale, "rtl");
      RtlDefault(config, locale, k);
    }
    var inner := Set(At(c1, "_internal"), "custom_css", css);
    GetSet(c1, "_internal", inner, "_internal");
    GetSet(c1, "_internal", inner, "design");
    GetSet(c1, "_internal", inner, k);
    GetSet(At(c1, "_internal"), "custom_css", css, "custom_css");
  }

  /** Running the pass on its own output changes nothing. */
  lemma Idempotent(config: Value, twig: Renderer, kernelDebug: bool, locale: string)
    ensures Process(Process(config, twig, kernelDebug, locale), twig, kernelDebug, locale)
         == Process(config, twig, kernelDebug, locale)
  {
    var c1 := ProcessRtlLanguages(config, locale);
    var css := Str(Minify(twig(CSS_TEMPLATE, CssVariables(c1, kernelDebug))));
    var inner := Set(At(c1, "_internal"), "custom_css", css);
    var r := Set(c1, "_internal", inner);
    RtlIdempotent(config, locale);
    // the second RTL step finds design.rtl set
    GetSet(c1, "_internal", inner, "design");
    assert ProcessRtlLanguages(r, locale) == r;
    // the CSS template sees the same variables
    GetSet(c1, "_internal", inner, "design");
    assert CssVariables(r, kernelDebug) == CssVariables(c1, kernelDebug);
    // and custom_css already holds the result
    GetSet(c1, "_internal", inner, "_internal");
    GetSet(At(c1, "_internal"), "custom_css", css, "custom_css");
    SetExisting(At(r, "_internal"), "custom_css", css);
    SetExisting(r, "_internal", inner);
  }
}
