/**
 * The extractor with its alias lookup exactly as written: a property read
 * on a plain object literal. Such an object also answers the names it
 * inherits, and two of those are reachable from a lower-cased token of
 * `[a-z0-9_-]` characters and yield truthy values: `constructor` (a
 * function) and `__proto__` (an object). Used as a key of the `result`
 * object, each of them fills a slot of its own, next to html, css and js.
 *
 * `CodeBlockParser` uses own-property lookup. This module shows where the
 * two differ and proves that they agree everywhere else.
 */
module CodeBlockParserAsWritten {
  import opened Wrappers
  import opened Types
  import opened CodeBlockParser

  /** A key of the `result` object: an editor, or the slot an inherited alias value is stored under. */
  datatype SlotKey = Editor(key: EditorKey) | Inherited(name: string)

  /** `LANGUAGE_ALIASES[key]`, own entries first, then the two truthy inherited ones. */
  function LookupAsWritten(key: string): Option<SlotKey> {
    if key in LanguageAliases then Some(Editor(LanguageAliases[key]))
    else if key == "constructor" || key == "__proto__" then Some(Inherited(key))
    else None
  }

  function TokenSlotAsWritten(token: string): (r: Option<SlotKey>)
    ensures r.Some? && r.value.Editor? ==> TokenLanguage(token) == Some(r.value.key)
    ensures r.None? ==> TokenLanguage(token).None?
  {
    LookupAsWritten(Lower(token))
  }

  function ClassSlotAsWritten(className: Option<string>): Option<SlotKey> {
    if !Truthy(className) then None
    else match ClassNameToken(className.value)
      case None => None
      case Some(token) => TokenSlotAsWritten(token)
  }

  /** `extractLanguage` as written: an inherited value also counts as a recognised language. */
  function ExtractLanguageAsWritten(p: Props): Option<SlotKey> {
    var explicit := ExplicitHint(p);
    if explicit.Some? && TokenSlotAsWritten(explicit.value).Some? then TokenSlotAsWritten(explicit.value)
    else ClassSlotAsWritten(p.className)
  }

  datatype WalkAsWritten = WalkAsWritten(result: map<SlotKey, string>, rawSegments: seq<string>)

  /** `collectCodeBlocks` as written, over a `result` object keyed by `SlotKey`. */
  function CollectAsWritten(n: Node, w: WalkAsWritten): WalkAsWritten
    decreases n, 1
  {
    match n
    case Nil => w
    case Text(s) => w.(rawSegments := w.rawSegments + [s])
    case Arr(items) => CollectAllAsWritten(items, w)
    case Elem(p, c) =>
      var detected := ExtractLanguageAsWritten(p);
      if detected.Some? && detected.value !in w.result then
        w.(result := w.result[detected.value := CodeOf(p, c)])
      else
        CollectAsWritten(c, w)
  }

  function CollectAllAsWritten(items: seq<Node>, w: WalkAsWritten): WalkAsWritten
    decreases items, 0
  {
    if items == [] then w else CollectAsWritten(items[|items| - 1], CollectAllAsWritten(items[..|items| - 1], w))
  }

  function RecordFenceAsWritten(acc: map<SlotKey, string>, f: Fence): map<SlotKey, string> {
    var language := TokenSlotAsWritten(f.language);
    if language.Some? && language.value !in acc then acc[language.value := f.content] else acc
  }

  /** `parseFencedBlocks` as written. */
  function FencedFromAsWritten(s: string, from: nat, acc: map<SlotKey, string>): map<SlotKey, string>
    requires from <= |s|
    decreases |s| - from
  {
    match NextFence(s, from)
    case None => acc
    case Some((_, f)) => FencedFromAsWritten(s, f.end, RecordFenceAsWritten(acc, f))
  }

  function Slot(m: map<SlotKey, string>, k: EditorKey): Option<string> {
    if Editor(k) in m then Some(m[Editor(k)]) else None
  }

  /** `parseCodeBlocksFromChildren` as written. */
  function ParseAsWritten(children: Node): ParsedCodeBlocks {
    var w := CollectAsWritten(children, WalkAsWritten(map[], []));
    var result := w.result;
    var resolved :=
      if !Truthy(Slot(result, Html)) && !Truthy(Slot(result, Css)) && !Truthy(Slot(result, Js)) then
        result + FencedFromAsWritten(Join(w.rawSegments), 0, map[])
      else result;
    ParsedCodeBlocks(Slot(resolved, Html), Slot(resolved, Css), Slot(resolved, Js))
  }

  /**
   * A block whose hints reach an inherited name is stored in a hidden slot:
   * it is neither descended into nor kept as raw text, so nothing is found.
   */
  lemma InheritedHintHidesBlock(p: Props, c: Node)
    requires ExtractLanguageAsWritten(p).Some? && ExtractLanguageAsWritten(p).value.Inherited?
    ensures ParseAsWritten(Elem(p, c)) == NothingParsed
  {
    var key := ExtractLanguageAsWritten(p).value;
    assert CollectAsWritten(Elem(p, c), WalkAsWritten(map[], [])) == WalkAsWritten(map[key := CodeOf(p, c)], []);
    NoFenceInPlainText("", 0);
    assert FencedFromAsWritten(Join([]), 0, map[]) == map[];
  }

  /** The hints of the counterexample: `className="language-html"` and `language="constructor"`. */
  lemma ConstructorHintDetection()
    ensures var p := Props(Some("language-html"), Some("constructor"), None, None, None, None, None);
      && ExtractLanguageAsWritten(p) == Some(Inherited("constructor"))
      && ExtractLanguage(p) == Some(Html)
  {
    ConstructorIsInherited();
    HtmlClassNamesHtml();
  }

  /** As written, the token `constructor` reaches an inherited value; the own entries do not hold it. */
  lemma ConstructorIsInherited()
    ensures TokenSlotAsWritten("constructor") == Some(Inherited("constructor"))
    ensures TokenLanguage("constructor").None?
  {
    assert Lower("constructor") == "constructor";
  }

  /**
   * `language="constructor"` on a block whose class names html: as written
   * the explicit hint reads the inherited constructor and no HTML is found;
   * with own-property lookup the class name decides and the block is the HTML.
   */
  lemma ConstructorHintHidesBlock()
    ensures var n := Elem(Props(Some("language-html"), Some("constructor"), None, None, None, None, None), Text("<p>x</p>"));
      && ParseAsWritten(n).initialHTML.None?
      && Parse(n).initialHTML == Some("<p>x</p>")
  {
    var p := Props(Some("language-html"), Some("constructor"), None, None, None, None, None);
    ConstructorHintDetection();
    InheritedHintHidesBlock(p, Text("<p>x</p>"));
    WrappedBlockIsExtractedBare(p, Text("<p>x</p>"), Html);
    assert CodeOf(p, Text("<p>x</p>")) == "<p>x</p>";
  }

  lemma WrappedBlockIsExtractedBare(p: Props, c: Node, k: EditorKey)
    requires ExtractLanguage(p) == Some(k)
    ensures Parse(Elem(p, c)).Get(k) == Some(CodeOf(p, c))
  {
    assert CollectSpec(Elem(p, c), Walk(NoBlocks, [])) == Walk(NoBlocks.Set(k, CodeOf(p, c)), []);
    NoFenceInPlainText("", 0);
    assert FencedBlocks(Join([])) == NoBlocks;
  }

  /** The editor slots of a `result` object agree with the extracted blocks. */
  ghost predicate EditorsAgree(m: map<SlotKey, string>, b: ExtractedCodeBlocks) {
    forall k :: Slot(m, k) == b.Get(k)
  }

  /** Neither lookup of the element's hints reaches an inherited name. */
  predicate NoInheritedHints(n: Node)
    decreases n, 1
  {
    match n
    case Elem(p, c) => (ExtractLanguageAsWritten(p).None? || ExtractLanguageAsWritten(p).value.Editor?) && NoInheritedHints(c)
    case Arr(items) => NoInheritedHintsIn(items)
    case _ => true
  }

  predicate NoInheritedHintsIn(items: seq<Node>)
    decreases items, 0
  {
    forall i :: 0 <= i < |items| ==> NoInheritedHints(items[i])
  }

  lemma DetectionAgrees(p: Props)
    requires ExtractLanguageAsWritten(p).None? || ExtractLanguageAsWritten(p).value.Editor?
    ensures ExtractLanguageAsWritten(p).None? <==> ExtractLanguage(p).None?
    ensures ExtractLanguageAsWritten(p).Some? ==> ExtractLanguage(p) == Some(ExtractLanguageAsWritten(p).value.key)
  {
  }

  lemma RecordFenceAgrees(acc: map<SlotKey, string>, b: ExtractedCodeBlocks, f: Fence)
    requires EditorsAgree(acc, b)
    ensures EditorsAgree(RecordFenceAsWritten(acc, f), RecordFence(b, f))
  {
    var language := TokenSlotAsWritten(f.language);
    forall k ensures Slot(RecordFenceAsWritten(acc, f), k) == RecordFence(b, f).Get(k) {
      assert Slot(acc, k) == b.Get(k);
    }
  }

  lemma {:induction false} FencedAgrees(s: string, from: nat, acc: map<SlotKey, string>, b: ExtractedCodeBlocks)
    requires from <= |s|
    requires EditorsAgree(acc, b)
    ensures EditorsAgree(FencedFromAsWritten(s, from, acc), FencedFrom(s, from, b))
    decreases |s| - from
  {
    match NextFence(s, from)
    case None =>
    case Some((_, f)) =>
      RecordFenceAgrees(acc, b, f);
      FencedAgrees(s, f.end, RecordFenceAsWritten(acc, f), RecordFence(b, f));
  }

  lemma {:induction false} CollectAgrees(n: Node, w: WalkAsWritten, v: Walk)
    requires NoInheritedHints(n)
    requires EditorsAgree(w.result, v.result) && w.rawSegments == v.rawSegments
    ensures EditorsAgree(CollectAsWritten(n, w).result, CollectSpec(n, v).result)
    ensures CollectAsWritten(n, w).rawSegments == CollectSpec(n, v).rawSegments
    decreases n, 1
  {
    match n
    case Nil =>
    case Text(s) =>
    case Arr(items) =>
      CollectAllAgrees(items, w, v);
    case Elem(p, c) =>
      DetectionAgrees(p);
      var detected := ExtractLanguageAsWritten(p);
      if detected.Some? {
        var k := detected.value.key;
        assert Slot(w.result, k) == v.result.Get(k);
        if detected.value !in w.result {
          var m := w.result[detected.value := CodeOf(p, c)];
          forall k' ensures Slot(m, k') == v.result.Set(k, CodeOf(p, c)).Get(k') {
            assert Slot(w.result, k') == v.result.Get(k');
          }
        } else {
          CollectAgrees(c, w, v);
        }
      } else {
        CollectAgrees(c, w, v);
      }
  }

  lemma {:induction false} CollectAllAgrees(items: seq<Node>, w: WalkAsWritten, v: Walk)
    requires NoInheritedHintsIn(items)
    requires EditorsAgree(w.result, v.result) && w.rawSegments == v.rawSegments
    ensures EditorsAgree(CollectAllAsWritten(items, w).result, CollectAllSpec(items, v).result)
    ensures CollectAllAsWritten(items, w).rawSegments == CollectAllSpec(items, v).rawSegments
    decreases items, 0
  {
    if items != [] {
      var init := items[..|items| - 1];
      assert NoInheritedHintsIn(init) by {
        forall i | 0 <= i < |init| ensures NoInheritedHints(init[i]) {
          assert init[i] == items[i];
        }
      }
      CollectAllAgrees(init, w, v);
      assert NoInheritedHints(items[|items| - 1]);
      CollectAgrees(items[|items| - 1], CollectAllAsWritten(init, w), CollectAllSpec(init, v));
    }
  }

  /**
   * Away from the inherited names the code as written and the own-property
   * model extract the same blocks; inherited names in fence tokens never
   * change the result.
   */
  lemma AsWrittenAgreesWithoutInheritedHints(children: Node)
    requires NoInheritedHints(children)
    ensures ParseAsWritten(children) == Parse(children)
  {
    var w := CollectAsWritten(children, WalkAsWritten(map[], []));
    var v := CollectSpec(children, Walk(NoBlocks, []));
    assert EditorsAgree(map[], NoBlocks);
    CollectAgrees(children, WalkAsWritten(map[], []), Walk(NoBlocks, []));
    var raw := Join(v.rawSegments);
    FencedAgrees(raw, 0, map[], NoBlocks);
    var fm := FencedFromAsWritten(raw, 0, map[]);
    var fb := FencedBlocks(raw);
    forall k ensures Slot(w.result + fm, k) == Spread(v.result, fb).Get(k) {
      assert Slot(fm, k) == fb.Get(k);
      assert Slot(w.result, k) == v.result.Get(k);
    }
    assert Slot(w.result, Html) == v.result.html;
    assert Slot(w.result, Css) == v.result.css;
    assert Slot(w.result, Js) == v.result.js;
  }
}
