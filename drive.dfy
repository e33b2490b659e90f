/** The pure parts of the Drive service: the MIME-type classifier, the mapping of
    listed files to library items, the listing request and the choice made by the
    token callback of the authorization flow. */
module DriveService {
  import opened Types
  import opened Text

  /** A file record as the Drive listing returns it (only the requested fields). */
  datatype DriveFile = DriveFile(
    id: string,
    name: string,
    mimeType: string,
    description: Option<string>,
    webViewLink: Option<string>,
    iconLink: Option<string>,
    thumbnailLink: Option<string>)

  // ---------------------------------------------------------------------------
  // getMediaType

  /** `getMediaType`: classifies a MIME type. The three media prefixes exclude one
      another, so each of them alone decides the kind; a type without one of them is a
      document when it mentions a document, a PDF or text, and "other" otherwise. */
  function GetMediaType(mimeType: string): (t: MediaType)
    ensures t == Image <==> "image/" <= mimeType
    ensures t == Video <==> "video/" <= mimeType
    ensures t == Audio <==> "audio/" <= mimeType
    ensures t == Document <==>
      && !("image/" <= mimeType) && !("video/" <= mimeType) && !("audio/" <= mimeType)
      && (Contains(mimeType, "document") || Contains(mimeType, "pdf") || Contains(mimeType, "text"))
  {
    if "image/" <= mimeType then assert mimeType[0] == 'i'; Image
    else if "video/" <= mimeType then assert mimeType[0] == 'v'; Video
    else if "audio/" <= mimeType then Audio
    else if Contains(mimeType, "document") || Contains(mimeType, "pdf") || Contains(mimeType, "text") then Document
    else Other
  }

  /** A media prefix wins over a mention of text, PDF or document further on. */
  lemma MediaPrefixWins(rest: string)
    ensures GetMediaType("image/" + rest) == Image
    ensures GetMediaType("video/" + rest) == Video
    ensures GetMediaType("audio/" + rest) == Audio
  {
    assert "image/" <= "image/" + rest;
    assert "video/" <= "video/" + rest;
    assert "audio/" <= "audio/" + rest;
  }

  /** A MIME type starting with `ap` has none of the media prefixes. */
  lemma NotMediaPrefix(mimeType: string)
    requires |mimeType| >= 2 && mimeType[0] == 'a' && mimeType[1] == 'p'
    ensures !("image/" <= mimeType) && !("video/" <= mimeType) && !("audio/" <= mimeType)
  {
    NotPrefixAt("image/", mimeType, 0);
    NotPrefixAt("video/", mimeType, 0);
    NotPrefixAt("audio/", mimeType, 1);
  }

  /** Typical Drive MIME types, and the case sensitivity of the substring tests. */
  lemma PlainTextIsDocument()
    ensures GetMediaType("text/plain") == Document
  {
  }

  lemma PdfIsDocument()
    ensures GetMediaType("application/pdf") == Document
  {
    NotMediaPrefix("application/pdf");
    assert OccursAt("application/pdf", "pdf", 12);
    ContainsIffOccurs("application/pdf", "pdf");
  }

  lemma GoogleDocIsDocument()
    ensures GetMediaType("application/vnd.google-apps.document") == Document
  {
    NotMediaPrefix("application/vnd.google-apps.document");
    assert OccursAt("application/vnd.google-apps.document", "document", 28);
    ContainsIffOccurs("application/vnd.google-apps.document", "document");
  }

  /** `includes` is case-sensitive: an upper-case PDF type is not recognised. */
  lemma UpperCasePdfIsOther()
    ensures GetMediaType("application/PDF") == Other
  {
    NotMediaPrefix("application/PDF");
    assert 'd' !in "application/PDF" && 'x' !in "application/PDF";
    MissingCharNotContained("application/PDF", "document", 'd');
    MissingCharNotContained("application/PDF", "pdf", 'd');
    MissingCharNotContained("application/PDF", "text", 'x');
  }

  // ---------------------------------------------------------------------------
  // listDriveFiles

  /** The page size of the listing request. */
  const PageSize: nat := 200

  /** The fields the listing request asks for. */
  const ListFields: string := "files(id, name, mimeType, webViewLink, iconLink, thumbnailLink, description)"

  const QueryHead: string := "'"
  const QueryTail: string := "' in parents and trashed=false"

  /** The `files.list` request of `listDriveFiles`. */
  datatype ListRequest = ListRequest(q: string, fields: string, pageSize: nat)

  /** The listing query: the non-trashed children of the folder. */
  function ListQuery(folderId: string): (q: string)
    ensures QueryHead <= q && |q| == |folderId| + |QueryHead| + |QueryTail|
  {
    QueryHead + folderId + QueryTail
  }

  function ListRequestFor(folderId: string): (req: ListRequest)
    ensures req.pageSize == PageSize && req.fields == ListFields
    ensures ParseListQuery(req.q) == Some(folderId)
  {
    ParseListQueryOfListQuery(folderId);
    ListRequest(ListQuery(folderId), ListFields, PageSize)
  }

  /** Reads the folder id back out of a listing query, if it has that shape. */
  function ParseListQuery(q: string): Option<string> {
    if |q| >= |QueryHead| + |QueryTail| && QueryHead <= q && q[|q| - |QueryTail|..] == QueryTail
    then Some(q[|QueryHead|..|q| - |QueryTail|])
    else None
  }

  /** The folder id can be read back from the query built for it. */
  lemma ParseListQueryOfListQuery(folderId: string)
    ensures ParseListQuery(ListQuery(folderId)) == Some(folderId)
  {
    var q := ListQuery(folderId);
    assert q[|q| - |QueryTail|..] == QueryTail;
    assert q[|QueryHead|..|q| - |QueryTail|] == folderId;
  }

  /** Every query with that shape is the query built for the folder id read from it. */
  lemma ListQueryOfParseListQuery(q: string)
    requires ParseListQuery(q).Some?
    ensures ListQuery(ParseListQuery(q).value) == q
  {
    var id := ParseListQuery(q).value;
    assert q == q[..|QueryHead|] + id + q[|q| - |QueryTail|..];
  }

  /** One element of the `.map` in `listDriveFiles`. */
  function ToLibraryItem(file: DriveFile): LibraryItem {
    LibraryItem(
      id := file.id,
      mediaType := GetMediaType(file.mimeType),
      title := file.name,
      description := OrElse(file.description, ""),
      tags := [],
      url := if Truthy(file.thumbnailLink) then file.thumbnailLink else file.iconLink,
      content := None,
      source := Drive,
      webViewLink := file.webViewLink,
      iconLink := file.iconLink)
  }

  /** The library items `listDriveFiles` returns for the listed files: one per file, in
      the same order, with the id and name carried over, the kind classified from the
      MIME type, no tags, no content, a Drive source, an empty description when the file
      has none, and the thumbnail as the url when there is one, else the icon link. */
  function MapFiles(files: seq<DriveFile>): (items: seq<LibraryItem>)
    ensures |items| == |files|
    ensures forall i :: 0 <= i < |files| ==>
      && items[i].id == files[i].id
      && items[i].title == files[i].name
      && items[i].mediaType == GetMediaType(files[i].mimeType)
      && items[i].source == Drive
      && items[i].tags == []
      && items[i].content == None
      && (Truthy(files[i].description) ==> items[i].description == files[i].description.value)
      && (!Truthy(files[i].description) ==> items[i].description == "")
      && (Truthy(files[i].thumbnailLink) ==> items[i].url == files[i].thumbnailLink)
      && (!Truthy(files[i].thumbnailLink) ==> items[i].url == files[i].iconLink)
      && items[i].webViewLink == files[i].webViewLink
      && items[i].iconLink == files[i].iconLink
  {
    seq(|files|, i requires 0 <= i < |files| => ToLibraryItem(files[i]))
  }

  /** The mapping of a listing split in two is the two mappings put together. */
  lemma MapFilesAppend(a: seq<DriveFile>, b: seq<DriveFile>)
    ensures MapFiles(a + b) == MapFiles(a) + MapFiles(b)
  {
    assert forall i :: 0 <= i < |a + b| ==> MapFiles(a + b)[i] == (MapFiles(a) + MapFiles(b))[i];
  }

  // ---------------------------------------------------------------------------
  // getAccessTokenAndShowPicker: the token callback

  /** The response handed to the token client's callback. */
  datatype TokenResponse = TokenResponse(error: Option<string>, errorDescription: Option<string>)

  /** What the token callback does: show the folder picker, or report a message to the
      error callback. */
  datatype TokenOutcome = ShowPicker | ReportError(message: string)

  const UnknownAuthorizationError: string := "Unknown authorization error."

  /** The token callback of `getAccessTokenAndShowPicker`: a response carrying an error
      is reported, with the provider's description or the fixed fallback, and the picker
      is not shown; otherwise the picker is shown. The reported message is never empty. */
  function OnTokenResponse(response: TokenResponse): (o: TokenOutcome)
    ensures o.ReportError? <==> Truthy(response.error)
    ensures o.ReportError? ==> o.message != ""
    ensures o.ReportError? && Truthy(response.errorDescription) ==> o.message == response.errorDescription.value
    ensures o.ReportError? && !Truthy(response.errorDescription) ==> o.message == UnknownAuthorizationError
  {
    if Truthy(response.error) then ReportError(OrElse(response.errorDescription, UnknownAuthorizationError))
    else ShowPicker
  }
}
