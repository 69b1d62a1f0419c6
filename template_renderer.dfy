/** The composition step of the template renderer
    (app/components/TemplateRenderer.tsx:76-198): from the fetched base HTML,
    strip stale colour-override blocks, put editable content into the `<h1>`
    headings, and insert a freshly built override block. */
module TemplateRenderer {
  import opened Common
  import opened Text

  datatype Colors = Colors(primary: string, secondary: string, accent: string)

  const DefaultColors := Colors("#1f2937", "#dc2626", "#f3f4f6")

  /** `colors || DEFAULT_COLORS` */
  function ActiveColors(colors: Option<Colors>): Colors {
    colors.GetOr(DefaultColors)
  }

  /** The editable keys per template, in heading order. */
  const EditableKeysMap: map<string, seq<string>> :=
    map["svc_handyman_classic" := ["heroTitle", "heroSubtitle", "servicesTitle", "aboutTitle",
                                   "aboutText", "testimonialsTitle", "ctaText"]]

  /** `EDITABLE_KEYS_MAP[templateId] || []` */
  function EditableKeys(templateId: string): seq<string> {
    if templateId in EditableKeysMap then EditableKeysMap[templateId] else []
  }

  const OverrideOpen: string := "<style id=\"color-overrides\">"
  const StyleClose: string := "</style>"

  /** The colour rules, abbreviated to the three colour variables. */
  function ColorRules(c: Colors): string {
    ":root{--color-primary:" + c.primary + ";--color-secondary:" + c.secondary
    + ";--color-accent:" + c.accent + "}"
  }

  const EditModeComment: string := "/* Edit mode styles */"

  /** The edit-mode outline rules, opened by their comment. */
  const EditModeCss: string := EditModeComment + "[data-editable]{outline:2px dashed}"

  /** `colorOverrideStyles` */
  function StyleBlock(c: Colors, editMode: bool): string {
    OverrideOpen + ColorRules(c) + (if editMode then EditModeCss else "") + StyleClose
  }

  /** The edit-mode rules are in the block exactly in edit mode (for colours
      without a `/`, such as hex codes). */
  lemma EditRulesOnlyInEditMode(c: Colors, editMode: bool)
    requires '/' !in c.primary && '/' !in c.secondary && '/' !in c.accent
    ensures Contains(StyleBlock(c, editMode), EditModeCss) <==> editMode
  {
    if editMode {
      EditRulesPresent(c);
    } else {
      NoSlashBeforeClose(c);
      EditRulesAbsent(OverrideOpen + ColorRules(c), StyleBlock(c, false));
    }
  }

  lemma EditRulesPresent(c: Colors)
    ensures Contains(StyleBlock(c, true), EditModeCss)
  {
    var pre := OverrideOpen + ColorRules(c);
    var s := StyleBlock(c, true);
    assert s == pre + EditModeCss + StyleClose;
    assert s[|pre|..|pre| + |EditModeCss|] == EditModeCss;
    assert OccursAt(s, EditModeCss, |pre|);
  }

  lemma NoSlashBeforeClose(c: Colors)
    requires '/' !in c.primary && '/' !in c.secondary && '/' !in c.accent
    ensures '/' !in OverrideOpen + ColorRules(c)
    ensures StyleBlock(c, false) == OverrideOpen + ColorRules(c) + StyleClose
  {
    assert '/' !in OverrideOpen;
  }

  /** A text whose only slash is the one in its closing `</style>` cannot
      hold the comment that opens the edit-mode rules. */
  lemma EditRulesAbsent(pre: string, s: string)
    requires '/' !in pre && s == pre + StyleClose
    ensures !Contains(s, EditModeCss)
  {
    var q := EditModeComment;
    assert q[0] == '/';
    forall i | 0 <= i ensures !OccursAt(s, q, i) {
      if i + |q| <= |s| {
        assert s[i..i + |q|][0] == s[i] == pre[i];
      }
    }
    if Contains(s, EditModeCss) {
      ContainsPrefix(s, EditModeCss, q);
    }
  }

  /** A global replace by `''` of the lazy pattern `open[\s\S]*?close`: from
      the first `open`, the shortest run up to a `close` is removed and the
      scan resumes after it. When the first `open` has no `close` after it,
      no later `open` has one either, so the rest stays as it is. */
  function StripDelimited(s: string, open: string, close: string): string
    requires open != []
    decreases |s|
  {
    match IndexOf(s, open, 0)
    case None => s
    case Some(i) =>
      match IndexOf(s, close, i + |open|)
      case None => s
      case Some(j) => s[..i] + StripDelimited(s[j + |close|..], open, close)
  }

  lemma OverrideMarkersUnbordered()
    ensures Unbordered(OverrideOpen) && Unbordered(StyleClose)
  {
  }

  /** Text without an opening marker is left alone. */
  lemma StripWithoutMarker(s: string, open: string, close: string)
    requires open != [] && !Contains(s, open)
    ensures StripDelimited(s, open, close) == s
  {
    IncludesIsContains(s, open);
  }

  /** A complete block, preceded by marker-free text, is removed, and
      stripping continues after it: `<style id="color-overrides">...</style>`
      with the pattern's own markers. */
  lemma StripBlock(a: string, inner: string, b: string, open: string, close: string)
    requires Unbordered(open) && Unbordered(close)
    requires !Contains(a, open) && !Contains(inner, close)
    ensures StripDelimited(a + open + inner + close + b, open, close) == a + StripDelimited(b, open, close)
  {
    var s := a + open + inner + close + b;
    assert s == [] + a + open + (inner + close + b);
    FindIn(s, [], a, open, inner + close + b);
    FindIn(s, a + open, inner, close, b);
    var e := |a| + |open| + |inner| + |close|;
    assert s[..|a|] == a && s[e..] == b;
  }

  /** Removing the override blocks: the instance used by the renderer. */
  lemma StripOverrideBlock(a: string, inner: string, b: string)
    requires !Contains(a, OverrideOpen) && !Contains(inner, StyleClose)
    ensures StripDelimited(a + OverrideOpen + inner + StyleClose + b, OverrideOpen, StyleClose)
            == a + StripDelimited(b, OverrideOpen, StyleClose)
  {
    OverrideMarkersUnbordered();
    StripBlock(a, inner, b, OverrideOpen, StyleClose);
  }

  /** The block one render inserts is removed by the next render's strip,
      for colours without a `<`. */
  lemma StripRemovesStyleBlock(a: string, c: Colors, editMode: bool, b: string)
    requires !Contains(a, OverrideOpen)
    requires '<' !in c.primary && '<' !in c.secondary && '<' !in c.accent
    ensures StripDelimited(a + StyleBlock(c, editMode) + b, OverrideOpen, StyleClose)
            == a + StripDelimited(b, OverrideOpen, StyleClose)
  {
    var inner := ColorRules(c) + (if editMode then EditModeCss else "");
    NoAngleInRules(c, editMode);
    AbsentChar(inner, StyleClose, '<');
    var block := StyleBlock(c, editMode);
    var extra := if editMode then EditModeCss else "";
    Spliced(a, OverrideOpen, ColorRules(c), extra, StyleClose, b, block);
    StripOverrideBlock(a, inner, b);
  }

  lemma Spliced(a: string, o: string, x: string, y: string, t: string, b: string, block: string)
    requires block == o + x + y + t
    ensures a + block + b == a + o + (x + y) + t + b
  {
  }

  lemma NoAngleInRules(c: Colors, editMode: bool)
    requires '<' !in c.primary && '<' !in c.secondary && '<' !in c.accent
    ensures '<' !in ColorRules(c) + (if editMode then EditModeCss else "")
  {
    assert '<' !in EditModeCss;
  }

  /** The pieces of an element pattern `open[^>]*>([\s\S]*?)close`: the
      opening text, the character ending the start tag, and the end tag. */
  datatype Element = Element(open: string, tagEnd: string, close: string)

  const H1 := Element("<h1", ">", "</h1>")

  lemma H1Unbordered()
    ensures Unbordered(H1.open) && Unbordered(H1.tagEnd) && Unbordered(H1.close)
  {
  }

  /** The heading that carries the value of `key`. */
  function Tagged(key: string, value: string): string {
    "<h1 data-editable=\"" + key + "\">" + value + "</h1>"
  }

  /** The replacement callback for the `n`-th match `m`. */
  function Heading(m: string, keys: seq<string>, content: map<string, string>, n: nat): string {
    if n < |keys| && keys[n] in content && content[keys[n]] != "" then Tagged(keys[n], content[keys[n]])
    else m
  }

  /** The end of the first match of `open[^>]*>([\s\S]*?)close` (with
      `tagEnd` for `>`); the match starts at the first `open`. From there it
      runs to the first `tagEnd` after it, then to the first `close` after
      that. A first `open` that does not complete means no later one does, so
      then there is no match at all. */
  function ElementEnd(s: string, el: Element): (r: Option<nat>)
    requires el.open != []
    ensures r.Some? ==> IndexOf(s, el.open, 0).Some? && IndexOf(s, el.open, 0).value < r.value <= |s|
  {
    match IndexOf(s, el.open, 0)
    case None => None
    case Some(i) =>
      match IndexOf(s, el.tagEnd, i + |el.open|)
      case None => None
      case Some(g) =>
        match IndexOf(s, el.close, g + |el.tagEnd|)
        case None => None
        case Some(e) => Some(e + |el.close|)
  }

  /** A global replace of the element pattern with the callback, whose
      counter stands at `n`; the scan resumes after each match. */
  function RewriteElements(s: string, el: Element, keys: seq<string>, content: map<string, string>, n: nat): (r: string)
    requires el.open != []
    ensures IndexOf(s, el.open, 0).None? ==> r == s
    decreases |s|
  {
    match ElementEnd(s, el)
    case None => s
    case Some(e) =>
      var i := IndexOf(s, el.open, 0).value;
      s[..i] + Heading(s[i..e], keys, content, n) + RewriteElements(s[e..], el, keys, content, n + 1)
  }

  /** Once the counter has passed the last key, every heading is kept. */
  lemma {:induction false} RewritePastKeys(s: string, el: Element, keys: seq<string>, content: map<string, string>, n: nat)
    requires el.open != [] && n >= |keys|
    ensures RewriteElements(s, el, keys, content, n) == s
    decreases |s|
  {
    var m := ElementEnd(s, el);
    if m.Some? {
      var i, e := IndexOf(s, el.open, 0).value, m.value;
      RewritePastKeys(s[e..], el, keys, content, n + 1);
      Rejoin(s, i, e);
    }
  }

  /** The `n`-th element is paired with the `n`-th key: the first complete
      `open attrs tagEnd inner close` becomes the tagged heading when that key
      has a non-empty value and is kept verbatim otherwise; the elements after
      it continue with the next key. */
  lemma Pairing(a: string, attrs: string, inner: string, b: string, el: Element,
                keys: seq<string>, content: map<string, string>, n: nat)
    requires Unbordered(el.open) && Unbordered(el.tagEnd) && Unbordered(el.close)
    requires !Contains(a, el.open) && !Contains(attrs, el.tagEnd) && !Contains(inner, el.close)
    ensures var h := el.open + attrs + el.tagEnd + inner + el.close;
            RewriteElements(a + h + b, el, keys, content, n)
            == a + (if n < |keys| && keys[n] in content && content[keys[n]] != "" then
                      Tagged(keys[n], content[keys[n]])
                    else h)
               + RewriteElements(b, el, keys, content, n + 1)
  {
    var h := el.open + attrs + el.tagEnd + inner + el.close;
    var s := a + h + b;
    FirstElement(s, a, attrs, inner, b, el);
    assert s[..|a|] == a && s[|a|..|a| + |h|] == h && s[|a| + |h|..] == b;
  }

  /** The search for the first element in such a text ends at that element. */
  lemma FirstElement(s: string, a: string, attrs: string, inner: string, b: string, el: Element)
    requires Unbordered(el.open) && Unbordered(el.tagEnd) && Unbordered(el.close)
    requires !Contains(a, el.open) && !Contains(attrs, el.tagEnd) && !Contains(inner, el.close)
    requires s == a + (el.open + attrs + el.tagEnd + inner + el.close) + b
    ensures IndexOf(s, el.open, 0) == Some(|a|)
    ensures ElementEnd(s, el) == Some(|a| + |el.open| + |attrs| + |el.tagEnd| + |inner| + |el.close|)
  {
    var p1 := a + el.open;
    var p2 := p1 + attrs + el.tagEnd;
    Regroup(a, el.open, attrs, el.tagEnd, inner, el.close, b);
    FindIn(s, [], a, el.open, attrs + el.tagEnd + inner + el.close + b);
    FindIn(s, p1, attrs, el.tagEnd, inner + el.close + b);
    FindIn(s, p2, inner, el.close, b);
  }

  /** The groupings of the seven pieces that the three searches need. */
  lemma Regroup(a: string, o: string, x: string, t: string, y: string, c: string, b: string)
    ensures var s := a + (o + x + t + y + c) + b;
            && s == [] + a + o + (x + t + y + c + b)
            && s == a + o + x + t + (y + c + b)
            && s == a + o + x + t + y + c + b
  {
  }

  /** The `<h1>` instance: a start tag whose attributes hold no `>`. */
  lemma HeadingPairing(a: string, attrs: string, inner: string, b: string,
                       keys: seq<string>, content: map<string, string>, n: nat)
    requires !Contains(a, "<h1") && '>' !in attrs && !Contains(inner, "</h1>")
    ensures var h := "<h1" + attrs + ">" + inner + "</h1>";
            RewriteElements(a + h + b, H1, keys, content, n)
            == a + Heading(h, keys, content, n) + RewriteElements(b, H1, keys, content, n + 1)
  {
    H1Unbordered();
    AbsentChar(attrs, ">", '>');
    Pairing(a, attrs, inner, b, H1, keys, content, n);
  }

  /** `editableContent` non-empty: only then are headings rewritten. */
  function Rewritten(stripped: string, templateId: string, content: map<string, string>): string {
    if |content| > 0 then RewriteElements(stripped, H1, EditableKeys(templateId), content, 0) else stripped
  }

  /** A template without editable keys keeps all its headings. */
  lemma NoKeysNoRewrite(s: string, templateId: string, content: map<string, string>)
    requires templateId !in EditableKeysMap
    ensures Rewritten(s, templateId, content) == s
  {
    if |content| > 0 {
      RewritePastKeys(s, H1, [], content, 0);
    }
  }

  /** Where the block goes: before the first `</head>`; else just past the
      `>` that follows the first `<body` (or at 0 when there is none, since
      `indexOf` gives -1 and -1 + 1 is 0); else at the front. */
  function InsertionPoint(h: string): (k: nat)
    ensures k <= |h|
  {
    match IndexOf(h, "</head>", 0)
    case Some(i) => i
    case None =>
      match IndexOf(h, "<body", 0)
      case None => 0
      case Some(b) =>
        match IndexOf(h, ">", b)
        case Some(g) => g + 1
        case None => 0
  }

  /** The insertion as the source writes it: `replace('</head>', block +
      '</head>')`, else a slice around the end of the body tag, else a prefix. */
  function InsertStyle(h: string, block: string): (r: string)
    ensures |r| == |h| + |block|
  {
    if Includes(h, "</head>") then ReplaceFirst(h, "</head>", block + "</head>")
    else if Includes(h, "<body") then
      var k := match IndexOf(h, ">", IndexOf(h, "<body", 0).value)
               case Some(g) => g + 1
               case None => 0;
      h[..k] + block + h[k..]
    else block + h
  }

  /** Insertion adds the block at the insertion point and changes nothing
      else: cutting the block back out gives the input. */
  lemma InsertOnlyAddsBlock(h: string, block: string)
    ensures var k := InsertionPoint(h);
            && InsertStyle(h, block) == h[..k] + block + h[k..]
            && InsertStyle(h, block)[..k] + InsertStyle(h, block)[k + |block|..] == h
  {
    InsertAtPoint(h, block);
    CutOut(h, block, InsertionPoint(h));
  }

  lemma InsertAtPoint(h: string, block: string)
    ensures InsertStyle(h, block) == h[..InsertionPoint(h)] + block + h[InsertionPoint(h)..]
  {
    if Includes(h, "</head>") {
      var i := IndexOf(h, "</head>", 0).value;
      assert h[i..] == "</head>" + h[i + 7..] by {
        assert h[i..i + 7] == "</head>";
      }
    }
  }

  lemma CutOut(h: string, block: string, k: nat)
    requires k <= |h|
    ensures var r := h[..k] + block + h[k..];
            r[..k] + r[k + |block|..] == h
  {
    var r := h[..k] + block + h[k..];
    assert r[..k] == h[..k] && r[k + |block|..] == h[k..];
  }

  /** The whole composition for a non-empty base. */
  function Composed(baseHtml: string, templateId: string, colors: Option<Colors>, editMode: bool,
                    content: map<string, string>): (r: string)
    ensures Contains(r, StyleBlock(ActiveColors(colors), editMode))
  {
    var h := Rewritten(StripDelimited(baseHtml, OverrideOpen, StyleClose), templateId, content);
    var block := StyleBlock(ActiveColors(colors), editMode);
    InsertOnlyAddsBlock(h, block);
    var k := InsertionPoint(h);
    assert (h[..k] + block + h[k..])[k..k + |block|] == block;
    assert OccursAt(InsertStyle(h, block), block, k);
    InsertStyle(h, block)
  }

  /** Nothing but the new block is added to the stripped, rewritten HTML. */
  lemma ComposedSplits(baseHtml: string, templateId: string, colors: Option<Colors>, editMode: bool,
                       content: map<string, string>)
    ensures var r := Rewritten(StripDelimited(baseHtml, OverrideOpen, StyleClose), templateId, content);
            var k := InsertionPoint(r);
            Composed(baseHtml, templateId, colors, editMode, content)
            == r[..k] + StyleBlock(ActiveColors(colors), editMode) + r[k..]
  {
    InsertOnlyAddsBlock(Rewritten(StripDelimited(baseHtml, OverrideOpen, StyleClose), templateId, content),
                        StyleBlock(ActiveColors(colors), editMode));
  }

  /** The global replace of `open[\s\S]*?close` by `''`, as a scan over the
      text. */
  method RemoveDelimited(s: string, open: string, close: string) returns (r: string)
    requires open != []
    ensures r == StripDelimited(s, open, close)
  {
    var rest := s;
    r := "";
    while true
      invariant r + StripDelimited(rest, open, close) == StripDelimited(s, open, close)
      decreases |rest|
    {
      var start := IndexOf(rest, open, 0);
      if start.None? {
        return r + rest;
      }
      var end := IndexOf(rest, close, start.value + |open|);
      if end.None? {
        return r + rest;
      }
      var next := rest[end.value + |close|..];
      assert StripDelimited(rest, open, close) == rest[..start.value] + StripDelimited(next, open, close);
      Assoc(r, rest[..start.value], StripDelimited(next, open, close));
      r := r + rest[..start.value];
      rest := next;
    }
  }

  /** The global element replace with its callback and `editCounter`. */
  method ReplaceElements(s: string, el: Element, keys: seq<string>, content: map<string, string>)
    returns (r: string)
    requires el.open != []
    ensures r == RewriteElements(s, el, keys, content, 0)
  {
    var rest := s;
    var editCounter: nat := 0;
    r := "";
    while true
      invariant r + RewriteElements(rest, el, keys, content, editCounter) == RewriteElements(s, el, keys, content, 0)
      decreases |rest|
    {
      var found := ElementEnd(rest, el);
      if found.None? {
        return r + rest;
      }
      var i, e := IndexOf(rest, el.open, 0).value, found.value;
      var m := rest[i..e];
      var replacement := m;
      if editCounter < |keys| && keys[editCounter] in content && content[keys[editCounter]] != "" {
        var key := keys[editCounter];
        replacement := Tagged(key, content[key]);
      }
      assert replacement == Heading(m, keys, content, editCounter);
      var next := rest[e..];
      assert RewriteElements(rest, el, keys, content, editCounter)
             == rest[..i] + replacement + RewriteElements(next, el, keys, content, editCounter + 1);
      Assoc(r, rest[..i] + replacement, RewriteElements(next, el, keys, content, editCounter + 1));
      editCounter := editCounter + 1;
      r := r + (rest[..i] + replacement);
      rest := next;
    }
  }

  /** The renderer's state that the effect reads and writes. */
  class Renderer {
    var baseHtml: string
    var html: string

    constructor (base: string)
      ensures baseHtml == base && html == ""
    {
      baseHtml := base;
      html := "";
    }

    /** The colour/content effect. With an empty base it returns at once;
        otherwise `html` is rebuilt from `baseHtml` alone, so the previous
        output never feeds into the next one. */
    method ApplyOverrides(templateId: string, colors: Option<Colors>, editMode: bool,
                          content: map<string, string>)
      modifies this
      ensures baseHtml == old(baseHtml)
      ensures baseHtml == "" ==> html == old(html)
      ensures baseHtml != "" ==> html == Composed(baseHtml, templateId, colors, editMode, content)
    {
      if baseHtml == "" {
        return;
      }
      var active := ActiveColors(colors);
      var block := StyleBlock(active, editMode);
      var finalHtml := baseHtml;
      finalHtml := RemoveDelimited(finalHtml, OverrideOpen, StyleClose);
      if |content| > 0 {
        var editableKeys := EditableKeys(templateId);
        finalHtml := ReplaceElements(finalHtml, H1, editableKeys, content);
      }
      finalHtml := InsertStyle(finalHtml, block);
      html := finalHtml;
    }
  }
}
