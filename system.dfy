/**
 * The browser client and the API together: what the request the client posts
 * does on the server, and two end-to-end runs.
 */
module QrSystem {
  import opened Wrappers
  import opened QrEntries
  import opened QrApp
  import opened QrApi

  /** The HTTP request `saveQRCodes` sends for one save. */
  function AsRequest(save: SaveRequest): (r: Request)
    ensures r.verb == "POST" && r.body.Some?
    ensures r.body.value.qrCodes == save.qrCodes && r.body.value.securityCode == Some(save.securityCode)
  {
    Request("POST", Some(PostBody(save.qrCodes, Some(save.securityCode))))
  }

  /** The client's code is the server's fallback code, so a client save is never
      answered 401: it is stored (200) or fails in the store (500). */
  lemma ClientSaveNeverUnauthorized(s: Server, configured: Option<string>, save: SaveRequest,
                                    connectFails: bool, commandFails: bool)
    requires save.securityCode == SECURITY_CODE
    ensures var r := Handle(s, configured, AsRequest(save), connectFails, commandFails);
      (r.response.status == 200 && r.server.store == Some(save.qrCodes)) ||
      (r.response.status == 500 && r.server.store == s.store)
  {
  }

  /** Adding an entry against an empty store: the client holds exactly the new entry and
      logs one save of it; the server stores that list, the save is reported as saved,
      and a later GET lists it. */
  method AddThenList(id: string, createdAt: string)
    returns (local: seq<Entry>, log: seq<SaveRequest>, saved: bool, stored: Option<seq<Entry>>, listed: Response)
    ensures local == [NewEntry(id, createdAt)]
    ensures log == [SaveRequest(local, SECURITY_CODE)]
    ensures saved
    ensures stored == Some(local)
    ensures listed == Response(200, EntryList(local))
  {
    var app := new Manager();
    var api := new QrCodesHandler(None, None);
    var posted := api.Handler(AsRequest(SaveRequest([NewEntry(id, createdAt)], SECURITY_CODE)), false, false);
    saved := app.AddQRCode(id, createdAt, Responded(posted.status));
    assert app.attempts == [] + [SaveRequest(app.qrCodes, SECURITY_CODE)];
    local, log, stored := app.qrCodes, app.attempts, api.store;
    listed := api.Handler(Request("GET", None), false, false);
  }

  /** A URL edit whose save fails in the store: the client logs one save of the edited list
      and reports the failure, but keeps the edited entry, while the store still holds
      the entry as it was. */
  method EditKeptOnStoreFailure(e: Entry, title: string, url: string)
    returns (local: seq<Entry>, log: seq<SaveRequest>, outcome: EditOutcome, stored: Option<seq<Entry>>)
    requires url != ""
    ensures log == [SaveRequest(local, SECURITY_CODE)]
    ensures outcome == SaveFailed
    ensures local == [e.(title := title, documentUrl := Some(url), documentType := Some(URL_MARKER))]
    ensures stored == Some([e])
  {
    var app := new Manager();
    app.LoadQRCodes(Some([e]));
    var api := new QrCodesHandler(None, Some([e]));
    var edited := [e.(title := title, documentUrl := Some(url), documentType := Some(URL_MARKER))];
    var posted := api.Handler(AsRequest(SaveRequest(edited, SECURITY_CODE)), false, true);
    outcome := app.HandleEditSubmit(e.id, title, url, None, false, SECURITY_CODE, Responded(posted.status));
    assert app.attempts == [] + [SaveRequest(app.qrCodes, SECURITY_CODE)];
    local, log, stored := app.qrCodes, app.attempts, api.store;
  }
}
