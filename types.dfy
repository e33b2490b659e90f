/** The records shared by the library browser: the media kinds, library items and
    the optional values JavaScript writes as `undefined`. */
module Types {

  /** A value that may be absent (`undefined` in the browser code). */
  datatype Option<T> = None | Some(value: T) {

    function GetOr(default: T): T {
      match this
      case Some(v) => v
      case None => default
    }
  }

  /** JavaScript truthiness of an optional string: present and non-empty. */
  predicate Truthy(o: Option<string>) {
    o.Some? && o.value != ""
  }

  /** `o || fallback` on an optional string: an absent or empty string yields the fallback. */
  function OrElse(o: Option<string>, fallback: string): string {
    if Truthy(o) then o.value else fallback
  }

  /** A template literal `${o}`: an absent value is spelled "undefined". */
  function Interpolate(o: Option<string>): string {
    match o
    case Some(v) => v
    case None => "undefined"
  }

  /** `MediaType`: the kinds of media a library item can hold. */
  datatype MediaType = Image | Video | Audio | Document | Other

  /** Where a library item comes from. */
  datatype Source = Drive | Local

  /** `LibraryItem`. The `url` is optional because the item mapping of the file
      listing can leave it `undefined` even though the declared type is a string. */
  datatype LibraryItem = LibraryItem(
    id: string,
    mediaType: MediaType,
    title: string,
    description: string,
    tags: seq<string>,
    url: Option<string>,
    content: Option<string>,
    source: Source,
    webViewLink: Option<string>,
    iconLink: Option<string>)
}
