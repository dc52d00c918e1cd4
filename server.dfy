/**
 * The server component: it runs the extractor itself, behind its own copy
 * of the gate, merges with `??` and renders the client component without
 * the children.
 */
module Server {
  import opened Wrappers
  import opened Types
  import opened CodeBlockParser
  import opened CodePreviewClient

  /** The server's gate, written out in place. */
  predicate ServerShouldParse(p: CodePreviewProps) {
    p.children.Some? && (p.initialHTML.None? || p.initialCSS.None? || p.initialJS.None?)
  }

  function ServerParsedSource(p: CodePreviewProps): ParsedCodeBlocks {
    if ServerShouldParse(p) then Parse(p.children.value) else NothingParsed
  }

  /** The props the server renders the client with: children left out, the merged values in their place. */
  function ServerForward(p: CodePreviewProps): (r: CodePreviewProps)
    ensures r.children.None?
    ensures forall k :: p.Initial(k).Some? ==> r.Initial(k) == p.Initial(k)
    ensures forall k :: p.Initial(k).None? ==> r.Initial(k) == ServerParsedSource(p).Get(k)
    ensures r.title == p.title && r.cssPath == p.cssPath && r.jsPath == p.jsPath && r.rest == p.rest
  {
    var parsed := ServerParsedSource(p);
    p.(children := None,
       initialHTML := p.initialHTML.OrElse(parsed.initialHTML),
       initialCSS := p.initialCSS.OrElse(parsed.initialCSS),
       initialJS := p.initialJS.OrElse(parsed.initialJS))
  }

  /** The server's gate is the extractor's own. */
  lemma ServerGateIsShouldParse(p: CodePreviewProps)
    ensures ServerShouldParse(p) <==> ShouldParseCodeBlocksFromChildren(p.children, p.initialHTML, p.initialCSS, p.initialJS)
    ensures ServerParsedSource(p) == ParsedSource(p)
  {
  }

  /**
   * Rendering on the server and then on the client hands the hook the
   * server's merged values, with no second parse, and these are the values
   * the client alone would have computed from the same props.
   */
  lemma ServerThenClientAgrees(p: CodePreviewProps)
    ensures ParsedSource(ServerForward(p)) == NothingParsed
    ensures forall k :: ClientHookProps(ServerForward(p)).Initial(k) == ServerForward(p).Initial(k)
    ensures forall k :: ClientHookProps(ServerForward(p)).Initial(k) == ClientHookProps(p).Initial(k)
    ensures ClientHookProps(ServerForward(p)).cssPath == p.cssPath && ClientHookProps(ServerForward(p)).jsPath == p.jsPath
    ensures ClientLayoutTitle(ServerForward(p)) == ClientLayoutTitle(p)
  {
    ServerGateIsShouldParse(p);
  }

  /** With all three values given the parser is not called and the props pass through, only the children dropped. */
  lemma AllGivenPassThrough(p: CodePreviewProps)
    requires p.initialHTML.Some? && p.initialCSS.Some? && p.initialJS.Some?
    ensures ServerParsedSource(p) == NothingParsed
    ensures ServerForward(p) == p.(children := None)
  {
  }
}
