/**
 * The single catch-all route `GET /{file_path:path}`: ask the client
 * whether the path is a folder, then answer with a not-found object, a
 * rendered listing, or a temporary redirect to the download link. The
 * client's three operations are inputs: the handler only uses the result
 * of an operation it actually calls, and it records which ones it called.
 */
module Api {
  import opened Outcomes
  import opened Storage

  const NotFound := 404
  const TemporaryRedirect := 307
  const ListingTemplate := "index.html"

  /** A value of a dictionary made by `FileInfo._asdict()`. */
  datatype Field = Str(s: string) | Int(i: int)

  /** What the handler hands back to the web framework. */
  datatype Page =
    | NotFoundObject(status: int, detail: string)                          // an HTTPException, returned, not raised
    | ListingPage(template: string, fileInfoList: seq<map<string, Field>>)  // the template's context
    | Redirect(location: Option<string>, status: int)                       // a RedirectResponse

  /** The client operations the handler can call. */
  datatype ClientCall = IsFolderCall | LsFolderCall | GetDownloadLinkCall

  /** The handler's outcome together with the client calls it made, in order. */
  datatype Handled = Handled(response: Outcome<Page>, calls: seq<ClientCall>)

  /** `FileInfo._asdict()`: one key per field, named as the fields are. */
  function AsDict(f: FileInfo): (d: map<string, Field>)
    ensures d.Keys == {"name", "size", "last_update_date"}
    ensures d["name"] == Str(f.name) && d["size"] == Int(f.size) && d["last_update_date"] == Str(f.lastUpdateDate)
  {
    map["name" := Str(f.name), "size" := Int(f.size), "last_update_date" := Str(f.lastUpdateDate)]
  }

  /** Reads a listing entry back; the inverse of `AsDict`. */
  function FromDict(d: map<string, Field>): Option<FileInfo>
  {
    if "name" in d && "size" in d && "last_update_date" in d
       && d["name"].Str? && d["size"].Int? && d["last_update_date"].Str?
    then Some(FileInfo(d["name"].s, d["size"].i, d["last_update_date"].s))
    else None
  }

  /** No listing entry loses information in the conversion to a dictionary. */
  lemma AsDictRoundTrip(f: FileInfo)
    ensures FromDict(AsDict(f)) == Some(f)
  {
  }

  /** `[i._asdict() for i in file_info_list]`. */
  function AsDicts(fs: seq<FileInfo>): (r: seq<map<string, Field>>)
    ensures |r| == |fs| && forall i :: 0 <= i < |fs| ==> r[i] == AsDict(fs[i])
    ensures forall i :: 0 <= i < |r| ==> r[i].Keys == {"name", "size", "last_update_date"} && FromDict(r[i]) == Some(fs[i])
  {
    var r := seq(|fs|, i requires 0 <= i < |fs| => AsDict(fs[i]));
    assert forall i :: 0 <= i < |fs| ==> FromDict(r[i]) == Some(fs[i]) by {
      forall i | 0 <= i < |fs| ensures FromDict(r[i]) == Some(fs[i]) {
        AsDictRoundTrip(fs[i]);
      }
    }
    r
  }

  /**
   * `list_or_get_file`, given what `is_folder`, `ls_folder` and
   * `get_download_link` would each give for `filePath` if called.
   */
  function ListOrGetFile(filePath: string, kind: Outcome<Option<bool>>,
                         listing: Outcome<Option<seq<FileInfo>>>, link: Outcome<Option<string>>): (h: Handled)
    ensures 1 <= |h.calls| <= 2 && h.calls[0] == IsFolderCall
    ensures kind.Raised? ==> h == Handled(Raised(kind.error), [IsFolderCall])
    ensures kind == Returned(None) ==>
              h == Handled(Returned(NotFoundObject(NotFound, filePath + " is not exist.")), [IsFolderCall])
    ensures kind == Returned(Some(true)) ==> h.calls == [IsFolderCall, LsFolderCall]
    ensures kind == Returned(Some(false)) ==> h.calls == [IsFolderCall, GetDownloadLinkCall]
    // what the response is, in both directions
    ensures h.response.Returned? && h.response.value.NotFoundObject? <==> kind == Returned(None)
    ensures h.response.Returned? && h.response.value.ListingPage? <==>
              kind == Returned(Some(true)) && listing.Returned? && listing.value.Some?
    ensures h.response.Returned? && h.response.value.Redirect? <==> kind == Returned(Some(false)) && link.Returned?
    // a listing keeps the order and number of entries, each entry a dictionary of the FileInfo
    ensures h.response.Returned? && h.response.value.ListingPage? ==>
              var entries := h.response.value.fileInfoList;
              && h.response.value.template == ListingTemplate
              && |entries| == |listing.value.value|
              && forall i :: 0 <= i < |entries| ==> entries[i] == AsDict(listing.value.value[i])
    // a redirect goes, with status 307, to exactly the link returned, even when that link is None
    ensures h.response.Returned? && h.response.value.Redirect? ==> h.response.value == Redirect(link.value, TemporaryRedirect)
    // errors of the called operation propagate; a None listing fails to iterate
    ensures kind == Returned(Some(true)) && listing.Raised? ==> h.response == Raised(listing.error)
    ensures kind == Returned(Some(true)) && listing == Returned(None) ==> h.response == Raised(NotIterable)
    ensures kind == Returned(Some(false)) && link.Raised? ==> h.response == Raised(link.error)
  {
    match kind
    case Raised(e) => Handled(Raised(e), [IsFolderCall])
    case Returned(None) => Handled(Returned(NotFoundObject(NotFound, filePath + " is not exist.")), [IsFolderCall])
    case Returned(Some(isFolder)) =>
      if isFolder then
        var calls := [IsFolderCall, LsFolderCall];
        match listing
        case Raised(e) => Handled(Raised(e), calls)
        case Returned(None) => Handled(Raised(NotIterable), calls)
        case Returned(Some(fs)) =>
          Handled(Returned(ListingPage(ListingTemplate, AsDicts(fs))), calls)
      else
        var calls := [IsFolderCall, GetDownloadLinkCall];
        match link
        case Raised(e) => Handled(Raised(e), calls)
        case Returned(l) => Handled(Returned(Redirect(l, TemporaryRedirect)), calls)
  }

  // ---------------------------------------------------------------------------
  // End-to-end scenarios: a request, the provider's replies, the response

  /** `GET /docs`, where docs is a folder holding one file a.txt of 2048 bytes. */
  lemma ExampleFolderListing()
    ensures var meta := Remote.Reply(200, Some(Remote.Body(false, true, None, None, None)));
            var child := Remote.Child(Some("a.txt"), Some(2048), Some("2023-05-01T10:00:00Z"));
            var children := Remote.Reply(200, Some(Remote.Body(false, false, Some([child]), None, None)));
            var h := ListOrGetFile("docs", ClassifyKind(meta), ClassifyListing(children), Returned(None));
            h.calls == [IsFolderCall, LsFolderCall]
            && h.response == Returned(ListingPage(ListingTemplate, [AsDict(FileInfo("a.txt", 2, "2023-05-01"))]))
  {
    var child := Remote.Child(Some("a.txt"), Some(2048), Some("2023-05-01T10:00:00Z"));
    assert DatePrefix("2023-05-01T10:00:00Z") == "2023-05-01";
    assert KiB(2048) == 2;
    assert FileInfoOf(child) == Returned(FileInfo("a.txt", 2, "2023-05-01"));
    var listing := ListingOf([child]);
    assert [child][0] == child;
    assert listing.Returned? by { assert forall i :: 0 <= i < 1 ==> [child][i] == child; }
    assert |listing.value| == 1 && listing.value[0] == FileInfo("a.txt", 2, "2023-05-01");
    assert listing.value == [FileInfo("a.txt", 2, "2023-05-01")];
    assert ListingOf([child]) == Returned([FileInfo("a.txt", 2, "2023-05-01")]);
    assert AsDicts([FileInfo("a.txt", 2, "2023-05-01")]) == [AsDict(FileInfo("a.txt", 2, "2023-05-01"))];
  }

  /** `GET /docs/a.txt`, where the provider gives a download URL: a 307 to exactly that URL. */
  lemma ExampleFileRedirect(url: string)
    ensures var meta := Remote.Reply(200, Some(Remote.Body(false, false, None, Some(url), None)));
            var h := ListOrGetFile("docs/a.txt", ClassifyKind(meta), Returned(None), ClassifyLink(meta));
            h.calls == [IsFolderCall, GetDownloadLinkCall]
            && h.response == Returned(Redirect(Some(url), TemporaryRedirect))
  {
  }

  /** `GET /missing`, where the metadata lookup is a 404: the not-found object, and no further call. */
  lemma ExampleMissing(body: Option<Remote.Body>)
    ensures var h := ListOrGetFile("missing", ClassifyKind(Remote.Reply(404, body)), Returned(None), Returned(None));
            h == Handled(Returned(NotFoundObject(NotFound, "missing is not exist.")), [IsFolderCall])
  {
    assert "missing" + " is not exist." == "missing is not exist.";
  }
}
