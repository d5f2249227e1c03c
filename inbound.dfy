/**
 * The inbound WeChat message after XML parsing (webot.js:69-70), and the two
 * JavaScript coercions the handler applies to its fields.
 */
module Inbound {
  import opened Wrappers

  /**
   * The fields of the parsed `<xml>` element that the handler reads. Each of
   * them is `undefined` (None) when the element is missing.
   */
  datatype Message = Message(
    msgType: Option<string>,
    content: Option<string>,
    picUrl: Option<string>,
    fromUser: Option<string>,
    toUser: Option<string>)

  /** A template-literal interpolation `${v}`: `undefined` renders as the text "undefined". */
  function Interp(v: Option<string>): string {
    match v
    case Some(s) => s
    case None => "undefined"
  }

  /** JavaScript truthiness of a string field: neither `undefined` nor the empty string. */
  predicate Truthy(v: Option<string>) {
    v.Some? && v.value != ""
  }
}
