/**
 * The fixed configuration of the i18n script (`SUPPORTED` and `DEFAULT` in
 * assets/js/main.js) and the JavaScript notions shared by the other modules.
 */
module Languages {
  import opened Wrappers

  /** `SUPPORTED = ['en','de']`, in this order. */
  const Supported: seq<string> := ["en", "de"]

  /** `DEFAULT = 'en'`, the fallback language. */
  const Default: string := "en"

  predicate IsSupported(code: string) {
    code in Supported
  }

  /** A translation dictionary: the JSON object of `/assets/lang/<code>.json`. */
  type Dict = map<string, string>

  /**
   * JavaScript truthiness of a value that is either a string or absent
   * (`null`/`undefined`): present and not the empty string.
   */
  predicate Truthy(v: Option<string>) {
    v.Some? && v.value != ""
  }
}
