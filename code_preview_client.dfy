/**
 * The client component's source step: extract blocks from the children
 * when some initial value is missing, then hand each initial value on as
 * the prop if it is defined, else the parsed block.
 */
module CodePreviewClient {
  import opened Wrappers
  import opened Types
  import opened CodeBlockParser

  /** The props that reach the hook unchanged (`...rest`). */
  datatype OtherProps = OtherProps(
    sourceId: Option<string>,
    share: Option<bool>,
    images: Option<ImageMap>,
    htmlPath: Option<string>)

  /** The component's props; `title` is taken out of the rest and goes to the layout only. */
  datatype CodePreviewProps = CodePreviewProps(
    children: Option<Node>,
    title: Option<string>,
    initialHTML: Option<string>,
    initialCSS: Option<string>,
    initialJS: Option<string>,
    cssPath: Option<string>,
    jsPath: Option<string>,
    rest: OtherProps)
  {
    function Initial(k: EditorKey): Option<string> {
      match k
      case Html => initialHTML
      case Css => initialCSS
      case Js => initialJS
    }
  }

  /** What the component passes to its hook: there is no `title` here. */
  datatype HookProps = HookProps(
    rest: OtherProps,
    cssPath: Option<string>,
    jsPath: Option<string>,
    initialHTML: Option<string>,
    initialCSS: Option<string>,
    initialJS: Option<string>)
  {
    function Initial(k: EditorKey): Option<string> {
      match k
      case Html => initialHTML
      case Css => initialCSS
      case Js => initialJS
    }
  }

  /** `parsedSource`: the extractor's result behind the gate, else nothing. */
  function ParsedSource(p: CodePreviewProps): (r: ParsedCodeBlocks)
    ensures p.children.None? ==> r == NothingParsed
    ensures p.initialHTML.Some? && p.initialCSS.Some? && p.initialJS.Some? ==> r == NothingParsed
    ensures ShouldParseCodeBlocksFromChildren(p.children, p.initialHTML, p.initialCSS, p.initialJS) ==> r == Parse(p.children.value)
  {
    if !ShouldParseCodeBlocksFromChildren(p.children, p.initialHTML, p.initialCSS, p.initialJS) then NothingParsed
    else Parse(p.children.value)
  }

  /**
   * `initialX ?? parsedSource.initialX` for all three, and the paths and the
   * rest forwarded; the title is not part of what the hook receives.
   */
  function ClientHookProps(p: CodePreviewProps): (r: HookProps)
    ensures forall k :: p.Initial(k).Some? ==> r.Initial(k) == p.Initial(k)
    ensures forall k :: p.Initial(k).None? ==> r.Initial(k) == ParsedSource(p).Get(k)
    ensures r.cssPath == p.cssPath && r.jsPath == p.jsPath && r.rest == p.rest
  {
    var parsed := ParsedSource(p);
    HookProps(p.rest, p.cssPath, p.jsPath,
              p.initialHTML.OrElse(parsed.initialHTML),
              p.initialCSS.OrElse(parsed.initialCSS),
              p.initialJS.OrElse(parsed.initialJS))
  }

  /** The layout gets the title prop itself; the hook's input is the same whatever the title. */
  lemma TitleGoesToLayoutOnly(p: CodePreviewProps, t: Option<string>)
    ensures ClientLayoutTitle(p) == p.title
    ensures ClientHookProps(p.(title := t)) == ClientHookProps(p)
  {
  }

  /** The `title` the client hands to `CodePreviewLayout`. */
  function ClientLayoutTitle(p: CodePreviewProps): Option<string> {
    p.title
  }

  /** Without children, or with all three values given, the props pass straight through. */
  lemma NothingToParsePassesThrough(p: CodePreviewProps)
    requires p.children.None? || (p.initialHTML.Some? && p.initialCSS.Some? && p.initialJS.Some?)
    ensures forall k :: ClientHookProps(p).Initial(k) == p.Initial(k)
  {
  }

  /** An explicit value, even the empty string, beats whatever the children hold. */
  lemma PropBeatsChildren(p: CodePreviewProps, k: EditorKey)
    requires p.Initial(k).Some?
    ensures ClientHookProps(p).Initial(k) == p.Initial(k)
    ensures ClientHookProps(p.(children := None)).Initial(k) == p.Initial(k)
  {
  }

  /** A raw fenced block as the only child becomes the hook's initial value; the other values stay undefined. */
  lemma RawFenceReachesHook(pre: string, token: string, content: string, k: EditorKey, rest: OtherProps)
    requires '`' !in pre && '`' !in content
    requires |token| > 0 && forall i :: 0 <= i < |token| ==> IsTokenChar(token[i])
    requires TokenLanguage(token) == Some(k)
    ensures var p := CodePreviewProps(Some(Text(pre + "```" + token + "\n" + content + "```")), None, None, None, None, None, None, rest);
      && ClientHookProps(p).Initial(k) == Some(content)
      && forall k' :: k' != k ==> ClientHookProps(p).Initial(k').None?
  {
    RawFenceIsRecovered(pre, token, content, k);
  }
}
