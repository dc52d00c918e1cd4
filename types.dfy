/** The value types shared by the CodePreview hooks and utilities. */
module Types {
  import opened Wrappers

  /** The three editors of one preview instance. */
  datatype EditorKey = Html | Css | Js

  /** Virtual image path to real URL. */
  type ImageMap = map<string, string>

  /** The record kept in the shared store for one scoped key. */
  datatype SourceCodeState = SourceCodeState(
    html: string,
    css: string,
    js: string,
    images: Option<ImageMap>,
    htmlPath: Option<string>,
    cssPath: Option<string>,
    jsPath: Option<string>)
  {
    /** One editor's code. */
    function Code(k: EditorKey): string {
      match k
      case Html => html
      case Css => css
      case Js => js
    }
  }

  /** JavaScript truthiness of an optional string: defined and non-empty. */
  predicate Truthy(s: Option<string>) {
    s.Some? && s.value != ""
  }
}
