/**
 * The browser client: the module-level collection `qrCodes` and the
 * operations that change it and push the whole collection to the API.
 * The network, `confirm`, the clock, the id generator and the file reader are
 * outside the model; their outcomes arrive as parameters.
 */
module QrApp {
  import opened Wrappers
  import opened QrEntries

  /** The code the edit form must be given; also sent with every save. */
  const SECURITY_CODE := "admin123"

  /** The marker stored in `documentType` when the document is an external link. */
  const URL_MARKER := "url"

  /** One POST the client issued: the collection as it was at that moment, and the code. */
  datatype SaveRequest = SaveRequest(qrCodes: seq<Entry>, securityCode: string)

  /** What `fetch` produced: it threw, or a response with an HTTP status. */
  datatype FetchResult = NetworkError | Responded(status: int)

  /** `response.ok`: a response with a 2xx status. */
  predicate IsOk(f: FetchResult): (ok: bool)
    ensures ok ==> f.Responded?
    ensures f.Responded? ==> (ok <==> 200 <= f.status < 300)
  {
    f.Responded? && 200 <= f.status <= 299
  }

  /** A file picked in the edit form: its MIME type and the data URI the reader produces. */
  datatype FileUpload = FileUpload(mimeType: string, dataUrl: string)

  /** What an edit does to the document fields of the entry. */
  datatype DocumentChange = KeepDocument | LinkUrl(url: string) | AttachFile(mimeType: string, dataUrl: string)

  /** How an edit submission ended, as the user sees it. */
  datatype EditOutcome =
    | InvalidCode    // the "Invalid security code!" alert
    | UnknownId      // no entry has the id: silently nothing
    | AwaitingFile   // the file reader never delivered its result: nothing saved
    | Saved          // the save succeeded: success alert
    | SaveFailed     // the save failed: failure alert, the local edit stays

  /** The entry `addQRCode` creates: empty title, no document. */
  function NewEntry(id: string, createdAt: string): (e: Entry)
    ensures e.id == id && e.createdAt == createdAt
    ensures e.title == "" && e.documentUrl.None? && e.documentType.None?
  {
    Entry(id, "", None, None, createdAt)
  }

  /** The document change an edit form requests: a file, else a non-empty URL, else none. */
  function ChosenDocument(file: Option<FileUpload>, url: string): (c: DocumentChange)
    ensures c.AttachFile? <==> file.Some?
    ensures c.AttachFile? ==> file == Some(FileUpload(c.mimeType, c.dataUrl))
    ensures c.LinkUrl? ==> file.None? && c.url == url && url != ""
    ensures c.KeepDocument? <==> file.None? && url == ""
  {
    if file.Some? then AttachFile(file.value.mimeType, file.value.dataUrl)
    else if url != "" then LinkUrl(url)
    else KeepDocument
  }

  /** The entry after an edit: new title, documents per `change`, id and creation time kept. */
  function EditEntry(e: Entry, title: string, change: DocumentChange): (r: Entry)
    ensures r.id == e.id && r.createdAt == e.createdAt && r.title == title
    ensures change.KeepDocument? ==> r.documentUrl == e.documentUrl && r.documentType == e.documentType
    ensures change.LinkUrl? ==> r.documentUrl == Some(change.url) && r.documentType == Some(URL_MARKER)
    ensures change.AttachFile? ==> r.documentUrl == Some(change.dataUrl) && r.documentType == Some(change.mimeType)
  {
    match change
    case KeepDocument => e.(title := title)
    case LinkUrl(url) => e.(title := title, documentUrl := Some(url), documentType := Some(URL_MARKER))
    case AttachFile(mime, data) => e.(title := title, documentUrl := Some(data), documentType := Some(mime))
  }

  /** The collection after editing the entry `find` locates for `id`; unchanged when there is none. */
  function EditedList(s: seq<Entry>, id: string, title: string, change: DocumentChange): (r: seq<Entry>)
    ensures |r| == |s|
    ensures forall j :: 0 <= j < |s| ==> r[j].id == s[j].id && r[j].createdAt == s[j].createdAt
    ensures FindIndex(s, id).None? ==> r == s
    ensures FindIndex(s, id).Some? ==>
      var i := FindIndex(s, id).value;
      r[i] == EditEntry(s[i], title, change) && forall j :: 0 <= j < |s| && j != i ==> r[j] == s[j]
  {
    match FindIndex(s, id)
    case None => s
    case Some(i) => s[i := EditEntry(s[i], title, change)]
  }

  /** Only the first entry with the id is edited: a later duplicate keeps all its fields. */
  lemma OnlyFirstMatchEdited(s: seq<Entry>, id: string, title: string, change: DocumentChange, j: nat)
    requires j < |s| && s[j].id == id
    requires exists k :: 0 <= k < j && s[k].id == id
    ensures EditedList(s, id, title, change)[j] == s[j]
  {
  }

  /** Repeating an edit changes nothing further. */
  lemma EditIdempotent(s: seq<Entry>, id: string, title: string, change: DocumentChange)
    ensures EditedList(EditedList(s, id, title, change), id, title, change) == EditedList(s, id, title, change)
  {
    var r := EditedList(s, id, title, change);
    FindIndexSameIds(s, r, id);
  }

  /** A picked file wins over the URL field whatever it holds; its MIME type becomes the type. */
  lemma FileTakesPrecedence(s: seq<Entry>, id: string, title: string, file: FileUpload, url: string)
    requires FindIndex(s, id).Some?
    ensures var i := FindIndex(s, id).value;
      EditedList(s, id, title, ChosenDocument(Some(file), url))[i].documentUrl == Some(file.dataUrl) &&
      EditedList(s, id, title, ChosenDocument(Some(file), url))[i].documentType == Some(file.mimeType)
  {
  }

  /** With no file and a non-empty URL the entry links the URL with type "url"; no other entry changes. */
  lemma UrlEdit(s: seq<Entry>, id: string, title: string, url: string)
    requires FindIndex(s, id).Some? && url != ""
    ensures var i := FindIndex(s, id).value;
      var r := EditedList(s, id, title, ChosenDocument(None, url));
      r[i] == s[i].(title := title, documentUrl := Some(url), documentType := Some(URL_MARKER)) &&
      forall j :: 0 <= j < |s| && j != i ==> r[j] == s[j]
  {
  }

  /** With neither file nor URL only the title changes; the document fields are kept. */
  lemma TitleOnlyEdit(s: seq<Entry>, id: string, title: string)
    requires FindIndex(s, id).Some?
    ensures var i := FindIndex(s, id).value;
      EditedList(s, id, title, ChosenDocument(None, ""))[i] == s[i].(title := title)
  {
  }

  /** The client's in-memory state: the collection, and the log of every save it issued. */
  class Manager {
    var qrCodes: seq<Entry>
    /** Every save `saveQRCodes` attempted, oldest first. */
    var attempts: seq<SaveRequest>

    constructor ()
      ensures qrCodes == [] && attempts == []
    {
      qrCodes := [];
      attempts := [];
    }

    /** `loadQRCodes`: `response` is the parsed collection of an OK answer,
        `None` when the request failed or was not OK (the list is then kept). */
    method LoadQRCodes(response: Option<seq<Entry>>)
      modifies this
      ensures qrCodes == response.GetOr(old(qrCodes))
      ensures attempts == old(attempts)
    {
      if response.Some? {
        qrCodes := response.value;
      }
    }

    /** `saveQRCodes`: posts the whole current collection; true exactly when the response is OK.
        The collection itself is never touched, so a failure rolls nothing back. */
    method SaveQRCodes(securityCode: string, fetched: FetchResult) returns (success: bool)
      modifies this
      ensures success <==> IsOk(fetched)
      ensures qrCodes == old(qrCodes)
      ensures attempts == old(attempts) + [SaveRequest(old(qrCodes), securityCode)]
    {
      attempts := attempts + [SaveRequest(qrCodes, securityCode)];
      if fetched.NetworkError? || !(200 <= fetched.status <= 299) {
        return false;
      }
      return true;
    }

    /** `addQRCode`: appends a fresh entry and saves; `saved` is false when the failure alert showed. */
    method AddQRCode(id: string, createdAt: string, fetched: FetchResult) returns (saved: bool)
      modifies this
      ensures qrCodes == old(qrCodes) + [NewEntry(id, createdAt)]
      ensures attempts == old(attempts) + [SaveRequest(qrCodes, SECURITY_CODE)]
      ensures saved <==> IsOk(fetched)
    {
      qrCodes := qrCodes + [NewEntry(id, createdAt)];
      saved := SaveQRCodes(SECURITY_CODE, fetched);
    }

    /** `removeQRCode`: when the user confirms, drops every entry with the id and saves. */
    method RemoveQRCode(id: string, confirmed: bool, fetched: FetchResult) returns (saved: bool)
      modifies this
      ensures confirmed ==> qrCodes == WithoutId(old(qrCodes), id)
      ensures confirmed ==> attempts == old(attempts) + [SaveRequest(qrCodes, SECURITY_CODE)]
      ensures !confirmed ==> qrCodes == old(qrCodes) && attempts == old(attempts)
      ensures saved <==> confirmed && IsOk(fetched)
    {
      saved := false;
      if confirmed {
        qrCodes := WithoutId(qrCodes, id);
        saved := SaveQRCodes(SECURITY_CODE, fetched);
      }
    }

    /** `handleEditSubmit`. `fileLoaded` says whether the file reader's `onload` ran. */
    method HandleEditSubmit(qrId: string, qrTitle: string, documentUrl: string,
                            documentFile: Option<FileUpload>, fileLoaded: bool,
                            securityCode: string, fetched: FetchResult)
      returns (outcome: EditOutcome)
      modifies this
      ensures securityCode != SECURITY_CODE ==>
        outcome == InvalidCode && qrCodes == old(qrCodes) && attempts == old(attempts)
      ensures securityCode == SECURITY_CODE && FindIndex(old(qrCodes), qrId).None? ==>
        outcome == UnknownId && qrCodes == old(qrCodes) && attempts == old(attempts)
      ensures securityCode == SECURITY_CODE && FindIndex(old(qrCodes), qrId).Some? &&
              documentFile.Some? && !fileLoaded ==>
        outcome == AwaitingFile && attempts == old(attempts) &&
        qrCodes == EditedList(old(qrCodes), qrId, qrTitle, KeepDocument)
      ensures securityCode == SECURITY_CODE && FindIndex(old(qrCodes), qrId).Some? &&
              (documentFile.None? || fileLoaded) ==>
        qrCodes == EditedList(old(qrCodes), qrId, qrTitle, ChosenDocument(documentFile, documentUrl)) &&
        attempts == old(attempts) + [SaveRequest(qrCodes, securityCode)] &&
        outcome == (if IsOk(fetched) then Saved else SaveFailed)
    {
      if securityCode != SECURITY_CODE {
        return InvalidCode;
      }
      var found := FindIndex(qrCodes, qrId);
      if found.None? {
        return UnknownId;
      }
      var i := found.value;
      qrCodes := qrCodes[i := qrCodes[i].(title := qrTitle)];
      if documentFile.Some? {
        if !fileLoaded {
          return AwaitingFile;
        }
        qrCodes := qrCodes[i := qrCodes[i].(documentUrl := Some(documentFile.value.dataUrl),
                                            documentType := Some(documentFile.value.mimeType))];
      } else if documentUrl != "" {
        qrCodes := qrCodes[i := qrCodes[i].(documentUrl := Some(documentUrl), documentType := Some(URL_MARKER))];
      }
      var success := SaveQRCodes(securityCode, fetched);
      outcome := if success then Saved else SaveFailed;
    }
  }
}
