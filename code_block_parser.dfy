/**
 * The code-block extractor: finds the first HTML, CSS and JS block of a
 * content tree, either from elements that carry a language hint or, when
 * none of those yields any text, from markdown-style fences in the tree's
 * plain text.
 *
 * The tree walk and the fence scan are written as the loops and the
 * mutating collector the extractor uses; each is proved equal to a
 * specification function (`TextOf`, `CollectSpec`, `FencedBlocks`,
 * `Parse`), and the extractor's promises are lemmas about those functions.
 */
module CodeBlockParser {
  import opened Wrappers
  import opened Types

  /** The element props the extractor reads; `Some` when the prop is a string. */
  datatype Props = Props(
    className: Option<string>,
    language: Option<string>,
    lang: Option<string>,
    dataLanguage: Option<string>,
    dataLang: Option<string>,
    code: Option<string>,
    value: Option<string>)

  const NoProps := Props(None, None, None, None, None, None, None)

  /**
   * A content node: nothing (null, undefined or a boolean), a string or
   * number leaf (a number as its decimal text), an array of nodes, or an
   * element with its props and its `children` prop.
   */
  datatype Node = Nil | Text(text: string) | Arr(items: seq<Node>) | Elem(props: Props, children: Node)

  /** The extractor's working result: one optional text per editor. */
  datatype ExtractedCodeBlocks = ExtractedCodeBlocks(html: Option<string>, css: Option<string>, js: Option<string>) {

    function Get(k: EditorKey): Option<string> {
      match k
      case Html => html
      case Css => css
      case Js => js
    }

    function Set(k: EditorKey, v: string): (r: ExtractedCodeBlocks)
      ensures r.Get(k) == Some(v)
      ensures forall k' :: k' != k ==> r.Get(k') == Get(k')
    {
      match k
      case Html => this.(html := Some(v))
      case Css => this.(css := Some(v))
      case Js => this.(js := Some(v))
    }
  }

  const NoBlocks := ExtractedCodeBlocks(None, None, None)

  /** What the extractor returns to the component. */
  datatype ParsedCodeBlocks = ParsedCodeBlocks(initialHTML: Option<string>, initialCSS: Option<string>, initialJS: Option<string>) {
    function Get(k: EditorKey): Option<string> {
      match k
      case Html => initialHTML
      case Css => initialCSS
      case Js => initialJS
    }
  }

  const NothingParsed := ParsedCodeBlocks(None, None, None)

  function ToParsed(b: ExtractedCodeBlocks): (r: ParsedCodeBlocks)
    ensures forall k :: r.Get(k) == b.Get(k)
  {
    ParsedCodeBlocks(b.html, b.css, b.js)
  }

  /** The gate: there are children, and some initial value is still missing. */
  predicate ShouldParseCodeBlocksFromChildren(
    children: Option<Node>, initialHTML: Option<string>, initialCSS: Option<string>, initialJS: Option<string>)
  {
    children.Some? && (initialHTML.None? || initialCSS.None? || initialJS.None?)
  }

  // ---------------------------------------------------------------------
  // Languages

  /** `toLowerCase` on one character, for the ASCII letters. */
  function LowerChar(c: char): char {
    if 'A' <= c <= 'Z' then (c as int + 32) as char else c
  }

  function Lower(s: string): (r: string)
    ensures |r| == |s|
    ensures forall i :: 0 <= i < |s| ==> r[i] == LowerChar(s[i])
  {
    seq(|s|, i requires 0 <= i < |s| => LowerChar(s[i]))
  }

  /** The alias table; it is consulted with an already lower-cased key. */
  const LanguageAliases: map<string, EditorKey> :=
    map["html" := Html, "css" := Css, "js" := Js, "javascript" := Js]

  /** The editor a language token names, ignoring case. */
  function TokenLanguage(token: string): (r: Option<EditorKey>)
    ensures r == Some(Html) <==> Lower(token) == "html"
    ensures r == Some(Css) <==> Lower(token) == "css"
    ensures r == Some(Js) <==> Lower(token) == "js" || Lower(token) == "javascript"
  {
    var key := Lower(token);
    if key in LanguageAliases then Some(LanguageAliases[key]) else None
  }

  /** The character class `[a-z0-9_-]` under the case-insensitive flag. */
  predicate IsTokenChar(c: char) {
    'a' <= c <= 'z' || 'A' <= c <= 'Z' || '0' <= c <= '9' || c == '_' || c == '-'
  }

  /** The end of the longest run of token characters that starts at `i`. */
  function RunEnd(s: string, i: nat): (e: nat)
    requires i <= |s|
    ensures i <= e <= |s|
    ensures e == |s| || !IsTokenChar(s[e])
    decreases |s| - i
  {
    if i < |s| && IsTokenChar(s[i]) then RunEnd(s, i + 1) else i
  }

  /** Every character of the run is a token character, so the run is maximal. */
  lemma {:induction false} RunEndIsTokenRun(s: string, i: nat)
    requires i <= |s|
    ensures forall k :: i <= k < RunEnd(s, i) ==> IsTokenChar(s[k])
    decreases |s| - i
  {
    if i < |s| && IsTokenChar(s[i]) {
      RunEndIsTokenRun(s, i + 1);
    }
  }

  /** `/language-([a-z0-9_-]+)/i` matches at position `p`. */
  predicate ClassMatchAt(s: string, p: nat) {
    p + 10 <= |s| && Lower(s[p..p + 9]) == "language-" && IsTokenChar(s[p + 9])
  }

  /** The leftmost position at or after `from` where the class pattern matches. */
  function FindClassMatch(s: string, from: nat): (r: Option<nat>)
    requires from <= |s|
    ensures r.Some? ==> from <= r.value && ClassMatchAt(s, r.value)
    ensures r.Some? ==> forall q :: from <= q < r.value ==> !ClassMatchAt(s, q)
    ensures r.None? ==> forall q :: from <= q <= |s| ==> !ClassMatchAt(s, q)
    decreases |s| - from
  {
    if from == |s| then None
    else if ClassMatchAt(s, from) then Some(from)
    else FindClassMatch(s, from + 1)
  }

  /** The capture group of the class pattern's first match: the whole run after `language-`. */
  function ClassNameToken(className: string): (r: Option<string>)
    ensures r.None? <==> forall q :: 0 <= q <= |className| ==> !ClassMatchAt(className, q)
    ensures r.Some? ==> exists p: nat ::
      && ClassMatchAt(className, p)
      && (forall q :: 0 <= q < p ==> !ClassMatchAt(className, q))
      && r.value == className[p + 9..RunEnd(className, p + 9)]
  {
    match FindClassMatch(className, 0)
    case None => None
    case Some(p) => Some(className[p + 9..RunEnd(className, p + 9)])
  }

  /** The language named by a `className`; none for an absent or empty one. */
  function ClassLanguage(className: Option<string>): Option<EditorKey> {
    if !Truthy(className) then None
    else match ClassNameToken(className.value)
      case None => None
      case Some(token) => TokenLanguage(token)
  }

  /** The explicit hints, in the order they are consulted. */
  function Hints(p: Props): seq<Option<string>> {
    [p.language, p.lang, p.dataLanguage, p.dataLang]
  }

  /** `language || lang || dataLanguage || dataLang`, kept only when non-empty. */
  function ExplicitHint(p: Props): Option<string> {
    if Truthy(p.language) then p.language
    else if Truthy(p.lang) then p.lang
    else if Truthy(p.dataLanguage) then p.dataLanguage
    else if Truthy(p.dataLang) then p.dataLang
    else None
  }

  /** The explicit hint is the first non-empty entry of `Hints`, and absent when there is none. */
  lemma ExplicitHintIsFirstNonEmpty(p: Props)
    ensures ExplicitHint(p).None? <==> forall i :: 0 <= i < 4 ==> !Truthy(Hints(p)[i])
    ensures ExplicitHint(p).Some? ==> exists i ::
      && 0 <= i < 4 && Hints(p)[i] == ExplicitHint(p) && Truthy(Hints(p)[i])
      && forall j :: 0 <= j < i ==> !Truthy(Hints(p)[j])
  {
    var h := Hints(p);
    if Truthy(p.language) {
      assert h[0] == ExplicitHint(p);
    } else if Truthy(p.lang) {
      assert h[1] == ExplicitHint(p);
    } else if Truthy(p.dataLanguage) {
      assert h[2] == ExplicitHint(p);
    } else if Truthy(p.dataLang) {
      assert h[3] == ExplicitHint(p);
    }
  }

  function ExtractLanguage(p: Props): (r: Option<EditorKey>) {
    var explicit := ExplicitHint(p);
    if explicit.Some? && TokenLanguage(explicit.value).Some? then TokenLanguage(explicit.value)
    else ClassLanguage(p.className)
  }

  /**
   * Language precedence: the first non-empty explicit hint decides when it
   * names a language; otherwise (no such hint, or one naming no language)
   * the class name decides.
   */
  lemma LanguagePrecedence(p: Props, i: nat)
    requires i < 4 && Truthy(Hints(p)[i])
    requires forall j :: 0 <= j < i ==> !Truthy(Hints(p)[j])
    ensures TokenLanguage(Hints(p)[i].value).Some? ==> ExtractLanguage(p) == TokenLanguage(Hints(p)[i].value)
    ensures TokenLanguage(Hints(p)[i].value).None? ==> ExtractLanguage(p) == ClassLanguage(p.className)
  {
    var h := Hints(p);
    if i > 0 { assert !Truthy(h[0]); }
    if i > 1 { assert !Truthy(h[1]); }
    if i > 2 { assert !Truthy(h[2]); }
    assert ExplicitHint(p) == h[i];
  }

  lemma NoHintMeansClassName(p: Props)
    requires forall i :: 0 <= i < 4 ==> !Truthy(Hints(p)[i])
    ensures ExtractLanguage(p) == ClassLanguage(p.className)
  {
    ExplicitHintIsFirstNonEmpty(p);
  }

  /** All five hints present and disagreeing: `language` wins; each later hint wins once the earlier ones are gone. */
  lemma FullPrecedenceOrder()
    ensures ExtractLanguage(Props(Some("language-css"), Some("html"), Some("css"), Some("js"), Some("css"), None, None)) == Some(Html)
    ensures ExtractLanguage(Props(Some("language-js"), None, Some("css"), Some("html"), Some("js"), None, None)) == Some(Css)
    ensures ExtractLanguage(Props(Some("language-js"), None, None, Some("html"), Some("css"), None, None)) == Some(Html)
    ensures ExtractLanguage(Props(Some("language-html"), None, None, None, Some("css"), None, None)) == Some(Css)
    ensures ExtractLanguage(Props(Some("language-html"), None, None, None, None, None, None)) == Some(Html)
  {
    assert Lower("html") == "html";
    assert Lower("css") == "css";
    HtmlClassNamesHtml();
  }

  /** The class `language-html` names html. */
  lemma HtmlClassNamesHtml()
    ensures ClassLanguage(Some("language-html")) == Some(Html)
  {
    var c := "language-html";
    assert ClassMatchAt(c, 0) by { assert Lower(c[0..9]) == "language-"; }
    assert RunEnd(c, 9) == 13;
    assert c[9..13] == "html";
    assert Lower("html") == "html";
  }

  // ---------------------------------------------------------------------
  // Text of a block

  /** The in-order concatenation of a tree's string and number leaves. */
  function TextOf(n: Node): string
    decreases n, 1
  {
    match n
    case Nil => ""
    case Text(s) => s
    case Arr(items) => TextOfAll(items)
    case Elem(_, c) => TextOf(c)
  }

  function TextOfAll(items: seq<Node>): string
    decreases items, 0
  {
    if items == [] then "" else TextOfAll(items[..|items| - 1]) + TextOf(items[|items| - 1])
  }

  /** `extractText`: accumulates the text of every leaf, visiting the children in order. */
  method ExtractText(node: Node) returns (text: string)
    ensures text == TextOf(node)
    decreases node
  {
    text := "";
    match node {
      case Nil =>
      case Text(s) =>
        text := s;
      case Elem(_, c) =>
        text := ExtractText(c);
      case Arr(items) =>
        var i := 0;
        while i < |items|
          invariant 0 <= i <= |items|
          invariant text == TextOfAll(items[..i])
        {
          var t := ExtractText(items[i]);
          assert items[..i + 1][..i] == items[..i];
          text := text + t;
          i := i + 1;
        }
        assert items[..|items|] == items;
    }
  }

  /** The text of a block element: its string `code` prop, else its string `value` prop, else its children's text. */
  function CodeOf(p: Props, children: Node): string {
    if p.code.Some? then p.code.value
    else if p.value.Some? then p.value.value
    else TextOf(children)
  }

  method ExtractCodeFromNode(p: Props, children: Node) returns (code: string)
    ensures code == CodeOf(p, children)
  {
    if p.code.Some? {
      code := p.code.value;
    } else if p.value.Some? {
      code := p.value.value;
    } else {
      code := ExtractText(children);
    }
  }

  /** `rawSegments.join('')`. */
  function Join(segments: seq<string>): string {
    if segments == [] then "" else Join(segments[..|segments| - 1]) + segments[|segments| - 1]
  }

  lemma {:induction false} JoinAppend(a: seq<string>, b: seq<string>)
    ensures Join(a + b) == Join(a) + Join(b)
    decreases |b|
  {
    if b == [] {
      assert a + b == a;
    } else {
      var b', x := b[..|b| - 1], b[|b| - 1];
      var ab := a + b;
      assert ab[..|ab| - 1] == a + b' && ab[|ab| - 1] == x;
      assert Join(ab) == Join(a + b') + x;
      JoinAppend(a, b');
    }
  }

  /** The leaves of a tree as separate strings, in document order. */
  function Leaves(n: Node): seq<string>
    decreases n, 1
  {
    match n
    case Nil => []
    case Text(s) => [s]
    case Arr(items) => LeavesAll(items)
    case Elem(_, c) => Leaves(c)
  }

  function LeavesAll(items: seq<Node>): seq<string>
    decreases items, 0
  {
    if items == [] then [] else LeavesAll(items[..|items| - 1]) + Leaves(items[|items| - 1])
  }

  /** A block's text is the concatenation of its leaves, in order. */
  lemma {:induction false} TextOfIsJoinedLeaves(n: Node)
    ensures TextOf(n) == Join(Leaves(n))
    decreases n, 1
  {
    match n
    case Nil =>
    case Text(s) =>
      assert Join([s]) == Join([]) + s;
    case Arr(items) =>
      TextOfAllIsJoinedLeaves(items);
    case Elem(_, c) =>
      TextOfIsJoinedLeaves(c);
  }

  lemma {:induction false} TextOfAllIsJoinedLeaves(items: seq<Node>)
    ensures TextOfAll(items) == Join(LeavesAll(items))
    decreases items, 0
  {
    if items != [] {
      var init, last := items[..|items| - 1], items[|items| - 1];
      TextOfAllIsJoinedLeaves(init);
      TextOfIsJoinedLeaves(last);
      JoinAppend(LeavesAll(init), Leaves(last));
    }
  }

  // ---------------------------------------------------------------------
  // The structured walk

  /** The collector's state: the filled slots and the plain-text segments seen so far. */
  datatype Walk = Walk(result: ExtractedCodeBlocks, rawSegments: seq<string>)

  /**
   * `collectCodeBlocks`: a hinted element whose slot is still empty fills
   * it and is not descended into; any other element is descended into;
   * leaves are appended to the raw segments.
   */
  function CollectSpec(n: Node, w: Walk): Walk
    decreases n, 1
  {
    match n
    case Nil => w
    case Text(s) => w.(rawSegments := w.rawSegments + [s])
    case Arr(items) => CollectAllSpec(items, w)
    case Elem(p, c) =>
      var detected := ExtractLanguage(p);
      if detected.Some? && w.result.Get(detected.value).None? then
        w.(result := w.result.Set(detected.value, CodeOf(p, c)))
      else
        CollectSpec(c, w)
  }

  function CollectAllSpec(items: seq<Node>, w: Walk): Walk
    decreases items, 0
  {
    if items == [] then w else CollectSpec(items[|items| - 1], CollectAllSpec(items[..|items| - 1], w))
  }

  /** The `result` object and the `rawSegments` array that `collectCodeBlocks` mutates. */
  class CodeBlockCollector {
    var result: ExtractedCodeBlocks
    var rawSegments: seq<string>

    constructor ()
      ensures result == NoBlocks && rawSegments == []
    {
      result := NoBlocks;
      rawSegments := [];
    }

    method Collect(node: Node)
      modifies this
      ensures Walk(result, rawSegments) == CollectSpec(node, old(Walk(result, rawSegments)))
      decreases node
    {
      match node {
        case Nil =>
        case Text(s) =>
          rawSegments := rawSegments + [s];
        case Arr(items) =>
          ghost var w0 := Walk(result, rawSegments);
          var i := 0;
          while i < |items|
            invariant 0 <= i <= |items|
            invariant Walk(result, rawSegments) == CollectAllSpec(items[..i], w0)
          {
            assert items[..i + 1][..i] == items[..i];
            Collect(items[i]);
            i := i + 1;
          }
          assert items[..|items|] == items;
        case Elem(p, c) =>
          var detected := ExtractLanguage(p);
          if detected.Some? && result.Get(detected.value).None? {
            var code := ExtractCodeFromNode(p, c);
            result := result.Set(detected.value, code);
          } else {
            Collect(c);
          }
      }
    }
  }

  /** Appending children to an array walks them after the earlier ones. */
  lemma {:induction false} CollectAllAppend(xs: seq<Node>, ys: seq<Node>, w: Walk)
    ensures CollectAllSpec(xs + ys, w) == CollectAllSpec(ys, CollectAllSpec(xs, w))
    decreases |ys|
  {
    if ys == [] {
      assert xs + ys == xs;
    } else {
      var ys' := ys[..|ys| - 1];
      assert (xs + ys)[..|xs + ys| - 1] == xs + ys';
      assert (xs + ys)[|xs + ys| - 1] == ys[|ys| - 1];
      CollectAllAppend(xs, ys', w);
    }
  }

  /** A filled slot is never overwritten, and raw segments are only appended to. */
  lemma {:induction false} CollectKeepsFilledSlots(n: Node, w: Walk, k: EditorKey)
    ensures w.result.Get(k).Some? ==> CollectSpec(n, w).result.Get(k) == w.result.Get(k)
    ensures w.rawSegments <= CollectSpec(n, w).rawSegments
    decreases n, 1
  {
    match n
    case Nil =>
    case Text(s) =>
    case Arr(items) =>
      CollectAllKeepsFilledSlots(items, w, k);
    case Elem(p, c) =>
      CollectKeepsFilledSlots(c, w, k);
  }

  lemma {:induction false} CollectAllKeepsFilledSlots(items: seq<Node>, w: Walk, k: EditorKey)
    ensures w.result.Get(k).Some? ==> CollectAllSpec(items, w).result.Get(k) == w.result.Get(k)
    ensures w.rawSegments <= CollectAllSpec(items, w).rawSegments
    decreases items, 0
  {
    if items != [] {
      var init := items[..|items| - 1];
      CollectAllKeepsFilledSlots(init, w, k);
      CollectKeepsFilledSlots(items[|items| - 1], CollectAllSpec(init, w), k);
    }
  }

  /** In an array, a slot filled while walking the first child keeps that child's block. */
  lemma FirstChildWins(first: Node, rest: seq<Node>, w: Walk, k: EditorKey)
    requires CollectSpec(first, w).result.Get(k).Some?
    ensures CollectSpec(Arr([first] + rest), w).result.Get(k) == CollectSpec(first, w).result.Get(k)
  {
    CollectAllAppend([first], rest, w);
    assert CollectAllSpec([first], w) == CollectSpec(first, w) by {
      assert [first][..0] == [];
    }
    CollectAllKeepsFilledSlots(rest, CollectSpec(first, w), k);
  }

  /**
   * The walk is complete for the elements it reaches: a child hinted as `k`
   * whose slot is still empty when the walk gets to it fills that slot
   * with its block text, and the later siblings leave it so.
   */
  lemma ReachedBlockFillsEmptySlot(items: seq<Node>, i: nat, w: Walk, k: EditorKey)
    requires i < |items| && items[i].Elem? && ExtractLanguage(items[i].props) == Some(k)
    requires CollectAllSpec(items[..i], w).result.Get(k).None?
    ensures CollectAllSpec(items, w).result.Get(k) == Some(CodeOf(items[i].props, items[i].children))
  {
    var before := CollectAllSpec(items[..i], w);
    var after := CollectSpec(items[i], before);
    assert after.result.Get(k) == Some(CodeOf(items[i].props, items[i].children));
    assert items[..i + 1][..i] == items[..i];
    assert CollectAllSpec(items[..i + 1], w) == after;
    assert items == items[..i + 1] + items[i + 1..];
    CollectAllAppend(items[..i + 1], items[i + 1..], w);
    CollectAllKeepsFilledSlots(items[i + 1..], after, k);
  }

  /** The tree holds an element hinted as `k` whose block text is `v`. */
  predicate HasBlock(n: Node, k: EditorKey, v: string)
    decreases n, 1
  {
    match n
    case Elem(p, c) => (ExtractLanguage(p) == Some(k) && CodeOf(p, c) == v) || HasBlock(c, k, v)
    case Arr(items) => HasBlockIn(items, k, v)
    case _ => false
  }

  predicate HasBlockIn(items: seq<Node>, k: EditorKey, v: string)
    decreases items, 0
  {
    exists i :: 0 <= i < |items| && HasBlock(items[i], k, v)
  }

  /** Every slot the walk fills holds the text of an element of the tree hinted with that slot's language. */
  lemma {:induction false} CollectIsSound(n: Node, w: Walk, k: EditorKey, v: string)
    requires CollectSpec(n, w).result.Get(k) == Some(v)
    ensures w.result.Get(k) == Some(v) || HasBlock(n, k, v)
    decreases n, 1
  {
    match n
    case Nil =>
    case Text(s) =>
    case Arr(items) =>
      CollectAllIsSound(items, w, k, v);
    case Elem(p, c) =>
      var detected := ExtractLanguage(p);
      if !(detected.Some? && w.result.Get(detected.value).None?) {
        CollectIsSound(c, w, k, v);
      }
  }

  lemma {:induction false} CollectAllIsSound(items: seq<Node>, w: Walk, k: EditorKey, v: string)
    requires CollectAllSpec(items, w).result.Get(k) == Some(v)
    ensures w.result.Get(k) == Some(v) || HasBlockIn(items, k, v)
    decreases items, 0
  {
    if items != [] {
      var init, last := items[..|items| - 1], items[|items| - 1];
      CollectIsSound(last, CollectAllSpec(init, w), k, v);
      if HasBlock(last, k, v) {
        assert HasBlock(items[|items| - 1], k, v);
      } else {
        CollectAllIsSound(init, w, k, v);
        if HasBlockIn(init, k, v) {
          var i :| 0 <= i < |init| && HasBlock(init[i], k, v);
          assert items[i] == init[i];
        }
      }
    }
  }

  /** No element of the tree carries a recognised language. */
  predicate NoHints(n: Node)
    decreases n, 1
  {
    match n
    case Elem(p, c) => ExtractLanguage(p).None? && NoHints(c)
    case Arr(items) => NoHintsIn(items)
    case _ => true
  }

  predicate NoHintsIn(items: seq<Node>)
    decreases items, 0
  {
    forall i :: 0 <= i < |items| ==> NoHints(items[i])
  }

  /** Without hints the walk fills nothing and collects every leaf as a raw segment. */
  lemma {:induction false} CollectPlainTree(n: Node, w: Walk)
    requires NoHints(n)
    ensures CollectSpec(n, w) == Walk(w.result, w.rawSegments + Leaves(n))
    decreases n, 1
  {
    match n
    case Nil =>
      assert w.rawSegments + [] == w.rawSegments;
    case Text(s) =>
    case Arr(items) =>
      CollectAllPlain(items, w);
    case Elem(p, c) =>
      CollectPlainTree(c, w);
  }

  lemma {:induction false} CollectAllPlain(items: seq<Node>, w: Walk)
    requires NoHintsIn(items)
    ensures CollectAllSpec(items, w) == Walk(w.result, w.rawSegments + LeavesAll(items))
    decreases items, 0
  {
    if items == [] {
      assert w.rawSegments + [] == w.rawSegments;
    } else {
      var init, last := items[..|items| - 1], items[|items| - 1];
      assert NoHintsIn(init) by {
        forall i | 0 <= i < |init| ensures NoHints(init[i]) {
          assert init[i] == items[i];
        }
      }
      assert NoHints(last);
      CollectAllPlain(init, w);
      CollectPlainTree(last, CollectAllSpec(init, w));
      assert w.rawSegments + LeavesAll(init) + Leaves(last) == w.rawSegments + LeavesAll(items);
    }
  }

  // ---------------------------------------------------------------------
  // Fences

  /** One match of the fence pattern: the language token, the content, and where the match ends. */
  datatype Fence = Fence(language: string, content: string, end: nat)

  predicate TicksAt(s: string, q: nat) {
    q + 3 <= |s| && s[q] == '`' && s[q + 1] == '`' && s[q + 2] == '`'
  }

  /** The first three backticks at or after `from`: where the lazy content group stops. */
  function FindTicks(s: string, from: nat): (r: Option<nat>)
    requires from <= |s|
    ensures r.Some? ==> from <= r.value && TicksAt(s, r.value)
    decreases |s| - from
  {
    if from == |s| then None
    else if TicksAt(s, from) then Some(from)
    else FindTicks(s, from + 1)
  }

  /** The backticks found are the leftmost ones, and none are found only when there are none. */
  lemma {:induction false} FindTicksIsLeftmost(s: string, from: nat)
    requires from <= |s|
    ensures FindTicks(s, from).Some? ==> forall q :: from <= q < FindTicks(s, from).value ==> !TicksAt(s, q)
    ensures FindTicks(s, from).None? ==> forall q :: from <= q <= |s| ==> !TicksAt(s, q)
    decreases |s| - from
  {
    if from < |s| && !TicksAt(s, from) {
      FindTicksIsLeftmost(s, from + 1);
    }
  }

  /** The end of the run of spaces and tabs that starts at `i` (`[ \t]*`). */
  function BlankEnd(s: string, i: nat): (e: nat)
    requires i <= |s|
    ensures i <= e <= |s|
    ensures e == |s| || (s[e] != ' ' && s[e] != '\t')
    decreases |s| - i
  {
    if i < |s| && (s[i] == ' ' || s[i] == '\t') then BlankEnd(s, i + 1) else i
  }

  /** Every character skipped is a space or a tab. */
  lemma {:induction false} BlankEndIsBlankRun(s: string, i: nat)
    requires i <= |s|
    ensures forall k :: i <= k < BlankEnd(s, i) ==> s[k] == ' ' || s[k] == '\t'
    decreases |s| - i
  {
    if i < |s| && (s[i] == ' ' || s[i] == '\t') {
      BlankEndIsBlankRun(s, i + 1);
    }
  }

  /**
   * Where the content starts after the blanks that end at `i`: `\n` or
   * `\r\n` must follow, otherwise the match fails.
   */
  function ContentStart(s: string, i: nat): (r: Option<nat>)
    requires i <= |s|
    ensures r.Some? ==> i < r.value <= |s|
  {
    if i < |s| && s[i] == '\n' then Some(i + 1)
    else if i + 1 < |s| && s[i] == '\r' && s[i + 1] == '\n' then Some(i + 2)
    else None
  }

  /**
   * The fence pattern matched at exactly position `p`. The token and the
   * blanks are maximal runs (no shorter choice can be followed by a line
   * break), and the content stops at the first backticks after the break.
   */
  function FenceAt(s: string, p: nat): (r: Option<Fence>)
    requires p <= |s|
    ensures r.Some? ==> TicksAt(s, p) && p < r.value.end <= |s|
  {
    if !TicksAt(s, p) then None
    else
      var tokenEnd := RunEnd(s, p + 3);
      if tokenEnd == p + 3 then None
      else match ContentStart(s, BlankEnd(s, tokenEnd))
        case None => None
        case Some(c) =>
          match FindTicks(s, c)
          case None => None
          case Some(q) => Some(Fence(s[p + 3..tokenEnd], s[c..q], q + 3))
  }

  /** `regex.exec` with `lastIndex == from`: the leftmost match starting at or after `from`. */
  function NextFence(s: string, from: nat): (r: Option<(nat, Fence)>)
    requires from <= |s|
    ensures r.Some? ==> from <= r.value.0 <= |s| && FenceAt(s, r.value.0) == Some(r.value.1)
    decreases |s| - from
  {
    match FenceAt(s, from)
    case Some(f) => Some((from, f))
    case None => if from == |s| then None else NextFence(s, from + 1)
  }

  /** One call of `regex.exec`: tries each start position in turn. */
  method Exec(s: string, lastIndex: nat) returns (m: Option<(nat, Fence)>)
    requires lastIndex <= |s|
    ensures m == NextFence(s, lastIndex)
  {
    var p := lastIndex;
    while p <= |s|
      invariant lastIndex <= p <= |s| + 1
      invariant p <= |s| ==> NextFence(s, lastIndex) == NextFence(s, p)
      invariant p == |s| + 1 ==> NextFence(s, lastIndex).None?
      decreases |s| + 1 - p
    {
      var f := FenceAt(s, p);
      if f.Some? {
        return Some((p, f.value));
      }
      NextFenceStep(s, p);
      p := p + 1;
    }
    return None;
  }

  /** One step of `exec`: a match at `p` is reported, and where none starts the scan moves on. */
  lemma NextFenceStep(s: string, p: nat)
    requires p <= |s|
    ensures FenceAt(s, p).Some? ==> NextFence(s, p) == Some((p, FenceAt(s, p).value))
    ensures FenceAt(s, p).None? && p == |s| ==> NextFence(s, p).None?
    ensures FenceAt(s, p).None? && p < |s| ==> NextFence(s, p) == NextFence(s, p + 1)
  {
  }

  /** `exec` reports the leftmost match: there is none between `from` and the one it reports. */
  lemma {:induction false} NextFenceIsLeftmost(s: string, from: nat)
    requires from <= |s| && NextFence(s, from).Some?
    ensures forall q :: from <= q < NextFence(s, from).value.0 ==> FenceAt(s, q).None?
    decreases |s| - from
  {
    NextFenceStep(s, from);
    if FenceAt(s, from).None? && from < |s| {
      NextFenceIsLeftmost(s, from + 1);
    }
  }

  /** `exec` reports nothing only when no position from `from` on holds a match. */
  lemma {:induction false} NoFenceReportedMeansNone(s: string, from: nat)
    requires from <= |s| && NextFence(s, from).None?
    ensures forall q :: from <= q <= |s| ==> FenceAt(s, q).None?
    decreases |s| - from
  {
    NextFenceStep(s, from);
    if from < |s| {
      NoFenceReportedMeansNone(s, from + 1);
    }
  }

  /** The first position holding a match is the one `exec` reports. */
  lemma {:induction false} NextFenceIsFirstMatch(s: string, from: nat, p: nat)
    requires from <= p <= |s|
    requires forall q :: from <= q < p ==> FenceAt(s, q).None?
    requires FenceAt(s, p).Some?
    ensures NextFence(s, from) == Some((p, FenceAt(s, p).value))
    decreases p - from
  {
    if from == p {
      NextFenceStep(s, p);
    } else {
      NextFenceStep(s, from);
      NextFenceIsFirstMatch(s, from + 1, p);
    }
  }

  /** With no match at any position from `from` on, `exec` reports none. */
  lemma {:induction false} NoMatchMeansNoFence(s: string, from: nat)
    requires from <= |s|
    requires forall q :: from <= q <= |s| ==> FenceAt(s, q).None?
    ensures NextFence(s, from).None?
    decreases |s| - from
  {
    NextFenceStep(s, from);
    if from < |s| {
      NoMatchMeansNoFence(s, from + 1);
    }
  }

  /** Keep a fence's content when its token names a language whose slot is still empty. */
  function RecordFence(acc: ExtractedCodeBlocks, f: Fence): ExtractedCodeBlocks {
    var language := TokenLanguage(f.language);
    if language.Some? && acc.Get(language.value).None? then acc.Set(language.value, f.content) else acc
  }

  function FencedFrom(s: string, from: nat, acc: ExtractedCodeBlocks): ExtractedCodeBlocks
    requires from <= |s|
    decreases |s| - from
  {
    match NextFence(s, from)
    case None => acc
    case Some((_, f)) => FencedFrom(s, f.end, RecordFence(acc, f))
  }

  /** What `parseFencedBlocks` returns for `raw`. */
  function FencedBlocks(raw: string): ExtractedCodeBlocks {
    FencedFrom(raw, 0, NoBlocks)
  }

  /** `parseFencedBlocks`: the global `exec` loop filling `result`. */
  method ParseFencedBlocks(raw: string) returns (result: ExtractedCodeBlocks)
    ensures result == FencedBlocks(raw)
  {
    result := NoBlocks;
    var lastIndex := 0;
    var m := Exec(raw, lastIndex);
    while m.Some?
      invariant lastIndex <= |raw|
      invariant m == NextFence(raw, lastIndex)
      invariant FencedFrom(raw, lastIndex, result) == FencedBlocks(raw)
      decreases |raw| - lastIndex
    {
      var f := m.value.1;
      var language := TokenLanguage(f.language);
      if language.Some? && result.Get(language.value).None? {
        result := result.Set(language.value, f.content);
      }
      lastIndex := f.end;
      m := Exec(raw, lastIndex);
    }
  }

  /** The successive matches of the global `exec` loop. */
  function FencesFrom(s: string, from: nat): seq<Fence>
    requires from <= |s|
    decreases |s| - from
  {
    match NextFence(s, from)
    case None => []
    case Some((_, f)) => [f] + FencesFrom(s, f.end)
  }

  /** The content of the first fence in `fs` whose token names `k`. */
  function FirstFenceContent(fs: seq<Fence>, k: EditorKey): Option<string> {
    if fs == [] then None
    else if TokenLanguage(fs[0].language) == Some(k) then Some(fs[0].content)
    else FirstFenceContent(fs[1..], k)
  }

  lemma RecordFenceGet(acc: ExtractedCodeBlocks, f: Fence, k: EditorKey)
    ensures RecordFence(acc, f).Get(k)
      == acc.Get(k).OrElse(if TokenLanguage(f.language) == Some(k) then Some(f.content) else None)
  {
  }

  lemma {:induction false} FencedFromFirst(s: string, from: nat, acc: ExtractedCodeBlocks, k: EditorKey)
    requires from <= |s|
    ensures FencedFrom(s, from, acc).Get(k) == acc.Get(k).OrElse(FirstFenceContent(FencesFrom(s, from), k))
    decreases |s| - from
  {
    var r := NextFence(s, from);
    if r.Some? {
      var f := r.value.1;
      var rest := FencesFrom(s, f.end);
      assert FencedFrom(s, from, acc) == FencedFrom(s, f.end, RecordFence(acc, f));
      assert FencesFrom(s, from) == [f] + rest;
      assert ([f] + rest)[0] == f && ([f] + rest)[1..] == rest;
      FencedFromFirst(s, f.end, RecordFence(acc, f), k);
      RecordFenceGet(acc, f, k);
    }
  }

  /** Per language, `parseFencedBlocks` keeps the content of the first match naming it, and nothing else. */
  lemma FencedBlocksKeepFirstPerLanguage(raw: string, k: EditorKey)
    ensures FencedBlocks(raw).Get(k) == FirstFenceContent(FencesFrom(raw, 0), k)
  {
    FencedFromFirst(raw, 0, NoBlocks, k);
  }

  lemma {:induction false} FencedFromKeeps(s: string, from: nat, acc: ExtractedCodeBlocks, k: EditorKey)
    requires from <= |s|
    requires acc.Get(k).Some?
    ensures FencedFrom(s, from, acc).Get(k) == acc.Get(k)
  {
    FencedFromFirst(s, from, acc, k);
  }

  /** A fence as one writes it: "```", the token, optional blanks, the line break, the content, "```". */
  function FenceText(token: string, blanks: string, nl: string, content: string): string {
    "```" + token + blanks + nl + content + "```"
  }

  /** Spaces and tabs only, as `[ \t]*` takes. */
  predicate IsBlanks(blanks: string) {
    forall i :: 0 <= i < |blanks| ==> blanks[i] == ' ' || blanks[i] == '\t'
  }

  /** No "```" starts inside the content, not even one that runs into the closing backticks. */
  predicate NoTicksInside(content: string) {
    forall i :: 0 <= i < |content| ==> !TicksAt(content + "```", i)
  }

  /** Content without any backtick has no "```" inside. */
  lemma BacktickFreeHasNoTicks(content: string)
    requires '`' !in content
    ensures NoTicksInside(content)
  {
    forall i | 0 <= i < |content| ensures !TicksAt(content + "```", i) {
      assert (content + "```")[i] == content[i];
    }
  }

  /**
   * A written fence matches at `p`, with any blanks after the token, a
   * "\n" or "\r\n" line break, and content that may hold single or double
   * backticks: the match has that token and that content verbatim, and
   * ends after the closing backticks.
   */
  lemma FenceMatchesAt(s: string, p: nat, token: string, blanks: string, nl: string, content: string)
    requires |token| > 0 && forall i :: 0 <= i < |token| ==> IsTokenChar(token[i])
    requires IsBlanks(blanks) && (nl == "\n" || nl == "\r\n") && NoTicksInside(content)
    requires p + |FenceText(token, blanks, nl, content)| <= |s|
    requires s[p..p + |FenceText(token, blanks, nl, content)|] == FenceText(token, blanks, nl, content)
    ensures FenceAt(s, p) == Some(Fence(token, content, p + |FenceText(token, blanks, nl, content)|))
  {
    var t := p + 3 + |token|;
    var b := t + |blanks|;
    var c := b + |nl|;
    var q := c + |content|;
    FenceTextParts(s, p, token, blanks, nl, content);
    var tail := content + "```";
    forall i | p + 3 <= i < t ensures IsTokenChar(s[i]) {
      assert s[p + 3..t][i - p - 3] == s[i];
    }
    forall i | t <= i < b ensures s[i] == ' ' || s[i] == '\t' {
      assert s[t..b][i - t] == s[i];
    }
    assert ContentStart(s, b) == Some(c) by {
      assert s[b..c][0] == s[b];
      if nl == "\r\n" {
        assert s[b..c][1] == s[b + 1];
      }
    }
    forall i | c <= i < q ensures !TicksAt(s, i) {
      assert !TicksAt(tail, i - c);
      assert s[c..q + 3][i - c] == s[i];
      if i + 1 < q + 3 { assert s[c..q + 3][i + 1 - c] == s[i + 1]; }
      if i + 2 < q + 3 { assert s[c..q + 3][i + 2 - c] == s[i + 2]; }
    }
    assert TicksAt(s, q) by {
      assert tail[|content|] == '`' && tail[|content| + 1] == '`' && tail[|content| + 2] == '`';
      assert s[c..q + 3][q - c] == s[q];
      assert s[c..q + 3][q + 1 - c] == s[q + 1];
      assert s[c..q + 3][q + 2 - c] == s[q + 2];
    }
    FenceAtParts(s, p, t, b, c, q);
    assert s[c..q] == content by {
      assert s[c..q] == s[c..q + 3][..|content|];
      assert tail[..|content|] == content;
    }
  }

  /** The text at `p` split back into the parts of the written fence. */
  lemma FenceTextParts(s: string, p: nat, token: string, blanks: string, nl: string, content: string)
    requires p + |FenceText(token, blanks, nl, content)| <= |s|
    requires s[p..p + |FenceText(token, blanks, nl, content)|] == FenceText(token, blanks, nl, content)
    ensures var t := p + 3 + |token|; var b := t + |blanks|; var c := b + |nl|; var q := c + |content|;
      && q + 3 <= |s| && TicksAt(s, p)
      && s[p + 3..t] == token && s[t..b] == blanks && s[b..c] == nl && s[c..q + 3] == content + "```"
  {
    var t := p + 3 + |token|;
    var b := t + |blanks|;
    var c := b + |nl|;
    var x2 := "```" + token;
    var x3 := x2 + blanks;
    var x4 := x3 + nl;
    assert FenceText(token, blanks, nl, content) == x4 + (content + "```");
    SplitAt(s, p, x4, content + "```");
    SplitAt(s, p, x3, nl);
    SplitAt(s, p, x2, blanks);
    SplitAt(s, p, "```", token);
    assert s[p..p + 3][0] == s[p] && s[p..p + 3][1] == s[p + 1] && s[p..p + 3][2] == s[p + 2];
  }

  /** A text that reads `a + b` at `p` reads `a` at `p` and `b` right after it. */
  lemma SplitAt(s: string, p: nat, a: string, b: string)
    requires p + |a + b| <= |s| && s[p..p + |a + b|] == a + b
    ensures s[p..p + |a|] == a && s[p + |a|..p + |a| + |b|] == b
  {
    assert s[p..p + |a|] == s[p..p + |a + b|][..|a|];
    assert s[p + |a|..p + |a| + |b|] == s[p..p + |a + b|][|a|..];
  }

  /** The match at `p`, from where each part of it ends. */
  lemma FenceAtParts(s: string, p: nat, t: nat, b: nat, c: nat, q: nat)
    requires p + 3 < t <= b < c <= q && q + 3 <= |s|
    requires TicksAt(s, p)
    requires forall i :: p + 3 <= i < t ==> IsTokenChar(s[i])
    requires forall i :: t <= i < b ==> s[i] == ' ' || s[i] == '\t'
    requires ContentStart(s, b) == Some(c)
    requires forall i :: c <= i < q ==> !TicksAt(s, i)
    requires TicksAt(s, q)
    ensures FenceAt(s, p) == Some(Fence(s[p + 3..t], s[c..q], q + 3))
  {
    assert !IsTokenChar(s[t]);
    RunEndAt(s, p + 3, t);
    BlankEndAt(s, t, b);
    FindTicksAt(s, c, q);
  }

  /** A run of blanks followed by something else ends where `BlankEnd` says. */
  lemma {:induction false} BlankEndAt(s: string, i: nat, e: nat)
    requires i <= e < |s|
    requires forall k :: i <= k < e ==> s[k] == ' ' || s[k] == '\t'
    requires s[e] != ' ' && s[e] != '\t'
    ensures BlankEnd(s, i) == e
    decreases e - i
  {
    if i < e {
      BlankEndAt(s, i + 1, e);
    }
  }

  /** Backticks at `q` with none between `from` and `q` are the ones found. */
  lemma {:induction false} FindTicksAt(s: string, from: nat, q: nat)
    requires from <= q && TicksAt(s, q)
    requires forall i :: from <= i < q ==> !TicksAt(s, i)
    ensures FindTicks(s, from) == Some(q)
    decreases q - from
  {
    if from < q {
      FindTicksAt(s, from + 1, q);
    }
  }

  /** A run of token characters that cannot be extended ends where `RunEnd` says. */
  lemma {:induction false} RunEndAt(s: string, i: nat, e: nat)
    requires i <= e < |s|
    requires forall k :: i <= k < e ==> IsTokenChar(s[k])
    requires !IsTokenChar(s[e])
    ensures RunEnd(s, i) == e
    decreases e - i
  {
    if i < e {
      RunEndAt(s, i + 1, e);
    }
  }

  /** With no backtick between `from` and a match at `p`, the next `exec` finds that match. */
  lemma NextFenceSkipsPlainText(s: string, from: nat, p: nat)
    requires from <= p <= |s|
    requires forall i :: from <= i < p ==> s[i] != '`'
    requires FenceAt(s, p).Some?
    ensures NextFence(s, from) == Some((p, FenceAt(s, p).value))
  {
    forall i | from <= i < p ensures FenceAt(s, i).None? {
      assert s[i] != '`';
    }
    NextFenceIsFirstMatch(s, from, p);
  }

  /** No backtick from `from` on: `exec` finds nothing more. */
  lemma NoFenceInPlainText(s: string, from: nat)
    requires from <= |s|
    requires forall i :: from <= i < |s| ==> s[i] != '`'
    ensures NextFence(s, from).None?
  {
    forall i | from <= i <= |s| ensures FenceAt(s, i).None? {
      assert i < |s| ==> s[i] != '`';
    }
    NoMatchMeansNoFence(s, from);
  }

  /** The only fence of backtick-free text around one match at `p` whose token names `k`. */
  lemma SingleFence(s: string, p: nat, f: Fence, k: EditorKey)
    requires p <= |s|
    requires forall i :: 0 <= i < p ==> s[i] != '`'
    requires FenceAt(s, p) == Some(f)
    requires TokenLanguage(f.language) == Some(k)
    ensures FencedBlocks(s).Get(k) == Some(f.content)
    ensures (forall i :: f.end <= i < |s| ==> s[i] != '`') ==>
      FencedBlocks(s) == NoBlocks.Set(k, f.content)
  {
    NextFenceSkipsPlainText(s, 0, p);
    var acc := RecordFence(NoBlocks, f);
    assert acc == NoBlocks.Set(k, f.content);
    assert FencedBlocks(s) == FencedFrom(s, f.end, acc);
    FencedFromKeeps(s, f.end, acc, k);
    if forall i :: f.end <= i < |s| ==> s[i] != '`' {
      NoFenceInPlainText(s, f.end);
    }
  }

  /**
   * A fence round-trips: prose without backticks, then a written fence
   * whose token names `k`, yields that content verbatim for `k`; with
   * nothing but backtick-free text after it, every other language stays
   * absent.
   */
  lemma FenceRoundTrip(pre: string, token: string, blanks: string, nl: string, content: string, post: string, k: EditorKey)
    requires '`' !in pre
    requires |token| > 0 && forall i :: 0 <= i < |token| ==> IsTokenChar(token[i])
    requires IsBlanks(blanks) && (nl == "\n" || nl == "\r\n") && NoTicksInside(content)
    requires TokenLanguage(token) == Some(k)
    ensures FencedBlocks(pre + FenceText(token, blanks, nl, content) + post).Get(k) == Some(content)
    ensures '`' !in post ==> forall k' :: k' != k ==>
      FencedBlocks(pre + FenceText(token, blanks, nl, content) + post).Get(k').None?
  {
    var w := FenceText(token, blanks, nl, content);
    var s := pre + w + post;
    var p := |pre|;
    var e := p + |w|;
    assert s[..p] == pre;
    assert s[p..e] == w;
    assert s[e..] == post;
    FenceMatchesAt(s, p, token, blanks, nl, content);
    forall i | 0 <= i < p ensures s[i] != '`' {
      assert s[i] == s[..p][i];
    }
    if '`' !in post {
      forall i | e <= i < |s| ensures s[i] != '`' {
        assert s[i] == s[e..][i - e];
      }
    }
    SingleFence(s, p, Fence(token, content, e), k);
  }

  // ---------------------------------------------------------------------
  // The extractor

  /** `{ ...result, ...fenced }`: the fenced slots that are defined override. */
  function Spread(result: ExtractedCodeBlocks, fenced: ExtractedCodeBlocks): (r: ExtractedCodeBlocks)
    ensures forall k :: r.Get(k) == fenced.Get(k).OrElse(result.Get(k))
  {
    ExtractedCodeBlocks(fenced.html.OrElse(result.html), fenced.css.OrElse(result.css), fenced.js.OrElse(result.js))
  }

  /** No slot holds a non-empty text, so the fenced fallback runs. */
  predicate NeedsFallback(result: ExtractedCodeBlocks) {
    !Truthy(result.html) && !Truthy(result.css) && !Truthy(result.js)
  }

  /** What `parseCodeBlocksFromChildren` returns. */
  function Parse(children: Node): ParsedCodeBlocks {
    var w := CollectSpec(children, Walk(NoBlocks, []));
    var resolved :=
      if NeedsFallback(w.result) then Spread(w.result, FencedBlocks(Join(w.rawSegments))) else w.result;
    ToParsed(resolved)
  }

  method ParseCodeBlocksFromChildren(children: Node) returns (parsed: ParsedCodeBlocks)
    ensures parsed == Parse(children)
  {
    var collector := new CodeBlockCollector();
    collector.Collect(children);
    var resolved := collector.result;
    if !Truthy(resolved.html) && !Truthy(resolved.css) && !Truthy(resolved.js) {
      var fenced := ParseFencedBlocks(Join(collector.rawSegments));
      resolved := ExtractedCodeBlocks(
        fenced.html.OrElse(resolved.html), fenced.css.OrElse(resolved.css), fenced.js.OrElse(resolved.js));
    }
    parsed := ParsedCodeBlocks(resolved.html, resolved.css, resolved.js);
  }

  /**
   * The extractor's fallback rule: when some structured block has non-empty
   * text the structured result is returned as it is; otherwise each fenced
   * slot overrides and the other structured slots are kept.
   */
  lemma ParseFallbackRule(children: Node, k: EditorKey)
    ensures var w := CollectSpec(children, Walk(NoBlocks, []));
      && (!NeedsFallback(w.result) ==> Parse(children).Get(k) == w.result.Get(k))
      && (NeedsFallback(w.result) ==>
            Parse(children).Get(k) == FencedBlocks(Join(w.rawSegments)).Get(k).OrElse(w.result.Get(k)))
  {
  }

  /**
   * A slot is defined only if something was found for it: a hinted element
   * of the tree, or the first fence naming it in the raw text.
   */
  lemma ParseIsSound(children: Node, k: EditorKey, v: string)
    requires Parse(children).Get(k) == Some(v)
    ensures var w := CollectSpec(children, Walk(NoBlocks, []));
      HasBlock(children, k, v) || FirstFenceContent(FencesFrom(Join(w.rawSegments), 0), k) == Some(v)
  {
    var w := CollectSpec(children, Walk(NoBlocks, []));
    var raw := Join(w.rawSegments);
    FencedBlocksKeepFirstPerLanguage(raw, k);
    if w.result.Get(k) == Some(v) {
      CollectIsSound(children, Walk(NoBlocks, []), k, v);
    }
  }

  /** A tree without hints (a markdown string, say) is read through its fences only. */
  lemma ParsePlainTree(children: Node)
    requires NoHints(children)
    ensures Parse(children) == ToParsed(FencedBlocks(TextOf(children)))
  {
    CollectPlainTree(children, Walk(NoBlocks, []));
    assert [] + Leaves(children) == Leaves(children);
    TextOfIsJoinedLeaves(children);
  }

  /** A fence without blanks and with a plain newline, and nothing after it. */
  lemma CanonicalFenceText(pre: string, token: string, content: string)
    ensures pre + FenceText(token, "", "\n", content) + "" == pre + "```" + token + "\n" + content + "```"
  {
    assert token + "" == token;
  }

  /** A raw markdown string with one fence: its content is recovered verbatim. */
  lemma RawFenceIsRecovered(pre: string, token: string, content: string, k: EditorKey)
    requires '`' !in pre && '`' !in content
    requires |token| > 0 && forall i :: 0 <= i < |token| ==> IsTokenChar(token[i])
    requires TokenLanguage(token) == Some(k)
    ensures Parse(Text(pre + "```" + token + "\n" + content + "```")).Get(k) == Some(content)
    ensures forall k' :: k' != k ==> Parse(Text(pre + "```" + token + "\n" + content + "```")).Get(k').None?
  {
    var s := pre + "```" + token + "\n" + content + "```";
    BacktickFreeHasNoTicks(content);
    FenceRoundTrip(pre, token, "", "\n", content, "", k);
    CanonicalFenceText(pre, token, content);
    ParsePlainTree(Text(s));
  }

  /**
   * One hinted element inside an unhinted wrapper (`<pre><code
   * data-language=...>`): its block text fills its language's slot and the
   * other slots stay absent.
   */
  lemma WrappedBlockIsExtracted(wrapper: Props, p: Props, c: Node, k: EditorKey)
    requires ExtractLanguage(wrapper).None?
    requires ExtractLanguage(p) == Some(k)
    ensures Parse(Elem(wrapper, Elem(p, c))).Get(k) == Some(CodeOf(p, c))
    ensures forall k' :: k' != k ==> Parse(Elem(wrapper, Elem(p, c))).Get(k').None?
  {
    var w0 := Walk(NoBlocks, []);
    var w := Walk(NoBlocks.Set(k, CodeOf(p, c)), []);
    assert CollectSpec(Elem(p, c), w0) == w;
    assert CollectSpec(Elem(wrapper, Elem(p, c)), w0) == w;
    NoFenceInPlainText("", 0);
    assert FencedBlocks(Join([])) == NoBlocks;
  }

  /**
   * A hinted element is consumed whole: a block hinted with another
   * language inside it never reaches its own slot, and the outer block's
   * text includes the inner one's.
   */
  lemma NestedBlockIsLost(outer: Props, inner: Props, c: Node, k: EditorKey, k': EditorKey)
    requires ExtractLanguage(outer) == Some(k) && ExtractLanguage(inner) == Some(k') && k != k'
    requires outer.code.None? && outer.value.None?
    ensures HasBlock(Elem(outer, Elem(inner, c)), k', CodeOf(inner, c))
    ensures Parse(Elem(outer, Elem(inner, c))).Get(k) == Some(TextOf(c))
    ensures Parse(Elem(outer, Elem(inner, c))).Get(k').None?
  {
    var w0 := Walk(NoBlocks, []);
    var w := Walk(NoBlocks.Set(k, TextOf(c)), []);
    assert CollectSpec(Elem(outer, Elem(inner, c)), w0) == w;
    NoFenceInPlainText("", 0);
    assert FencedBlocks(Join([])) == NoBlocks;
  }
}
