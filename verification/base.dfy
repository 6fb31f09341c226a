/** Small vocabulary shared by every module: optional values, bytes, and the
    JavaScript truthiness tests the routes apply to their request fields. */
module Base {

  /** A field that a form, a JSON body or a provider answer may leave out. */
  datatype Option<+T> = None | Some(value: T)

  newtype byte = x: int | 0 <= x < 256

  /** Raw audio as it arrives in a multipart form. */
  type Audio = seq<byte>

  /** JavaScript truthiness of an optional string: absent and "" are falsy. */
  predicate Truthy(o: Option<string>)
  {
    o.Some? && o.value != ""
  }

  /** The JavaScript idiom `o || fallback` on an optional string. */
  function OrElse(o: Option<string>, fallback: string): (r: string)
    ensures fallback != "" ==> r != ""
  {
    if Truthy(o) then o.value else fallback
  }
}
