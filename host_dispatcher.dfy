/**
 * The host application's side of the bridge (App.js): the state the
 * component starts with, `onWebViewLoaded`, the message handler
 * `onWebViewMessage` and the reply sender `sendWebviewPostMessage`.
 * Replies go out as the JSON text the web view receives; `replies` is the
 * log of those texts.
 */
module HostDispatcher {
  import opened Wrappers
  import opened Json
  import opened StorageAdapter
  import opened PeerBridge

  /** An incoming message after `JSON.parse`: unreadable, or a request read by `Classify`. */
  datatype Inbound = Malformed | Parsed(env: Envelope)

  const ActivityMessage := "Webview storage request received!"
  const GetReplyId := "storageGet"

  /** The text `sendWebviewPostMessage(id, data)` posts: `{id, data}` as JSON. */
  function ReplyWire(id: string, data: string): string
  {
    Render(Obj([Member("id", Str(id)), Member("data", Str(data))]))
  }

  /** A `getItem` result as a JSON value: the stored text, or `null`. */
  function ResultValue(res: Option<string>): (v: Value)
    ensures v.Null? <==> res.None?
    ensures res.Some? ==> v == Str(res.value)
  {
    match res
    case None => Null
    case Some(t) => Str(t)
  }

  /** The `data` of a get reply: the JSON text of `{key, value}`. */
  function GetReplyData(key: string, res: Option<string>): string
  {
    Render(Obj([Member("key", Str(key)), Member("value", ResultValue(res))]))
  }

  /**
   * The request `onWebViewMessage` reads out of a parsed message: its
   * `targetFunc` picks the case of the switch, and `data.key` and
   * `data.value` (`Undefined` when absent) fill it in. Any other tag falls
   * through the switch.
   */
  function Classify(targetFunc: string, key: string, value: Value): (e: Envelope)
    ensures e == StoragePut(key, value) <==> targetFunc == "storagePut"
    ensures e == StorageGet(key) <==> targetFunc == "storageGet"
    ensures e.Unknown? <==> targetFunc != "storagePut" && targetFunc != "storageGet"
  {
    if targetFunc == "storagePut" then StoragePut(key, value)
    else if targetFunc == "storageGet" then StorageGet(key)
    else Unknown(targetFunc)
  }

  /** The component's observable state, with the native store's contents. */
  datatype HostState = HostState(
    store: map<string, string>,
    replies: seq<string>,
    isWebViewReady: bool,
    webviewActivityMessage: string,
    key: string,
    value: Value)

  /** The constructor's state, over whatever the native store already holds. */
  function InitialHost(store: map<string, string>): HostState
  {
    HostState(store, [], false, "", "", Str(""))
  }

  /**
   * One message, handled to completion. A put whose write the store refuses
   * never reaches its `.then`, so the display is left as it was.
   */
  function Dispatch(s: HostState, msg: Inbound): HostState
  {
    match msg
    case Malformed => s
    case Parsed(StoragePut(k, v)) =>
      if StoredForm(v).None? then s
      else s.(store := AfterSet(s.store, k, v),
              webviewActivityMessage := ActivityMessage, key := k, value := v)
    case Parsed(StorageGet(k)) =>
      s.(replies := s.replies + [ReplyWire(GetReplyId, GetReplyData(k, Lookup(s.store, k)))])
    case Parsed(Unknown(_)) => s
  }

  class Host {
    var storage: Storage
    var replies: seq<string>
    var isWebViewReady: bool
    var webviewActivityMessage: string
    var key: string
    var value: Value

    function State(): HostState
      reads this, storage
    {
      HostState(storage.items, replies, isWebViewReady, webviewActivityMessage, key, value)
    }

    constructor(store: map<string, string>)
      ensures fresh(storage)
      ensures State() == InitialHost(store)
    {
      storage := new Storage(store);
      replies := [];
      isWebViewReady := false;
      webviewActivityMessage := "";
      key := "";
      value := Str("");
    }

    method OnWebViewLoaded()
      modifies this`isWebViewReady
      ensures State() == old(State()).(isWebViewReady := true)
    {
      isWebViewReady := true;
    }

    method SendWebviewPostMessage(id: string, data: string)
      modifies this`replies
      ensures replies == old(replies) + [ReplyWire(id, data)]
    {
      replies := replies + [ReplyWire(id, data)];
    }

    method OnWebViewMessage(msg: Inbound)
      modifies this`replies, this`webviewActivityMessage, this`key, this`value, storage
      ensures State() == Dispatch(old(State()), msg)
    {
      match msg {
        case Malformed =>
          return;
        case Parsed(env) =>
          match env {
            case StoragePut(k, v) =>
              var ok := storage.SetItem(k, v);
              if ok {
                webviewActivityMessage, key, value := ActivityMessage, k, v;
              }
            case StorageGet(k) =>
              var res := storage.GetItem(k, Undefined);
              SendWebviewPostMessage(GetReplyId, GetReplyData(k, res));
            case Unknown(_) =>
          }
      }
    }
  }

  // ---------------------------------------------------------------------------
  // Properties of the dispatcher
  // ---------------------------------------------------------------------------

  /** An unreadable message changes nothing and is not answered. */
  lemma MalformedIsDropped(s: HostState)
    ensures Dispatch(s, Malformed) == s
  {
  }

  /** A message whose `targetFunc` is neither request tag changes nothing and is not answered. */
  lemma UnknownIsIgnored(s: HostState, tag: string, k: string, v: Value)
    requires tag != "storagePut" && tag != "storageGet"
    ensures Dispatch(s, Parsed(Classify(tag, k, v))) == s
  {
  }

  /**
   * A put writes the value's stored form under its key, shows the key and
   * value with the activity message, and sends nothing back.
   */
  lemma PutWritesWithoutReply(s: HostState, k: string, v: Value)
    requires !v.Undefined?
    ensures Lookup(Dispatch(s, Parsed(StoragePut(k, v))).store, k) == StoredForm(v)
    ensures forall other :: other != k ==>
      Lookup(Dispatch(s, Parsed(StoragePut(k, v))).store, other) == Lookup(s.store, other)
    ensures Dispatch(s, Parsed(StoragePut(k, v))).replies == s.replies
    ensures Dispatch(s, Parsed(StoragePut(k, v))).key == k
    ensures Dispatch(s, Parsed(StoragePut(k, v))).value == v
    ensures Dispatch(s, Parsed(StoragePut(k, v))).webviewActivityMessage == ActivityMessage
    ensures Dispatch(s, Parsed(StoragePut(k, v))).isWebViewReady == s.isWebViewReady
  {
  }

  /** A put of a missing value is refused by the store and leaves everything as it was. */
  lemma PutOfUndefinedChangesNothing(s: HostState, k: string)
    ensures Dispatch(s, Parsed(StoragePut(k, Undefined))) == s
  {
  }

  /**
   * A get leaves the store and the display alone and sends exactly one reply,
   * tagged "storageGet", carrying the key and the stored text (or null).
   */
  lemma GetRepliesOnce(s: HostState, k: string)
    ensures Dispatch(s, Parsed(StorageGet(k))).store == s.store
    ensures Dispatch(s, Parsed(StorageGet(k))).replies
      == s.replies + [ReplyWire("storageGet", GetReplyData(k, Lookup(s.store, k)))]
    ensures Dispatch(s, Parsed(StorageGet(k))).(replies := s.replies) == s
  {
  }

  // ---------------------------------------------------------------------------
  // The reply text
  //
  // The lemmas marked "Proof step" in this section are helpers: each
  // joins literal pieces of text over variables, which keeps the solver from
  // unfolding `Quote` and `Escape` on long literals.
  // ---------------------------------------------------------------------------

  /** Proof step: joins the pieces of a reply text. */
  lemma ReplyShape(qid: string, qtag: string, qdata: string, qd: string, id: string, ed: string)
    requires qid == "\"id\"" && qdata == "\"data\""
    requires qtag == "\"" + id + "\"" && qd == "\"" + ed + "\""
    ensures "{" + qid + ":" + qtag + "," + qdata + ":" + qd + "}"
      == "{\"id\":\"" + id + "\",\"data\":\"" + ed + "\"}"
  {
  }

  /** Proof step: a reply is the text of its two members. */
  lemma ReplyParts(id: string, data: string)
    ensures ReplyWire(id, data)
      == "{" + Quote("id") + ":" + Quote(id) + "," + Quote("data") + ":" + Quote(data) + "}"
  {
    RenderTwoMembers(Member("id", Str(id)), Member("data", Str(data)));
  }

  /** Proof step: the member names of a reply need no escaping. */
  lemma ReplyNames()
    ensures Quote("id") == "\"id\"" && Quote("data") == "\"data\""
  {
    assert AllPlain("id") && AllPlain("data");
    PlainQuote("id");
    PlainQuote("data");
  }

  /**
   * A reply is `{"id":"<id>","data":"<data escaped>"}`: the data text travels
   * as a string literal (which reads back exactly, by QuoteRoundTrip).
   */
  lemma ReplyWireText(id: string, data: string)
    requires AllPlain(id)
    ensures ReplyWire(id, data) == "{\"id\":\"" + id + "\",\"data\":\"" + Escape(data) + "\"}"
  {
    ReplyParts(id, data);
    ReplyNames();
    PlainQuote(id);
    ReplyShape(Quote("id"), Quote(id), Quote("data"), Quote(data), id, Escape(data));
  }

  /**
   * How a `getItem` result appears inside the escaped reply data: `null`, or
   * the stored text quoted once for the inner object and escaped again for
   * the outer one.
   */
  function EscapedResultText(res: Option<string>): string
  {
    match res
    case None => "null"
    case Some(t) => Escape(Quote(t))
  }

  /** Proof step: the escaped reply data, part by part. */
  lemma EscapedDataParts(k: string, res: Option<string>)
    ensures Escape(GetReplyData(k, res))
      == "{" + Escape(Quote("key")) + ":" + Escape(Quote(k)) + "," + Escape(Quote("value")) + ":"
         + Escape(Render(ResultValue(res))) + "}"
  {
    RenderTwoMembers(Member("key", Str(k)), Member("value", ResultValue(res)));
    EscapeObjectText(Quote("key"), Quote(k), Quote("value"), Render(ResultValue(res)));
  }

  /** Proof step: the escaped names and plain key. */
  lemma EscapedKeyQuotes(k: string)
    requires AllPlain(k)
    ensures Escape(Quote("key")) == ['\\', '"'] + "key" + ['\\', '"']
    ensures Escape(Quote("value")) == ['\\', '"'] + "value" + ['\\', '"']
    ensures Escape(Quote(k)) == ['\\', '"'] + k + ['\\', '"']
  {
    assert AllPlain("key") && AllPlain("value");
    EscapeQuotedPlain("key");
    EscapeQuotedPlain("value");
    EscapeQuotedPlain(k);
  }

  /** Proof step: the escaped text of a `getItem` result. */
  lemma EscapedResult(res: Option<string>)
    ensures Escape(Render(ResultValue(res))) == EscapedResultText(res)
  {
    match res {
      case None =>
        assert AllPlain("null");
        EscapePlain("null");
      case Some(t) =>
    }
  }

  /** Proof step: joins the pieces of the escaped reply data. */
  lemma EscapedDataAssembly(ek: string, ekey: string, ev: string, evalue: string, k: string)
    requires ek == ['\\', '"'] + "key" + ['\\', '"'] && ev == ['\\', '"'] + "value" + ['\\', '"']
    requires ekey == ['\\', '"'] + k + ['\\', '"']
    ensures "{" + ek + ":" + ekey + "," + ev + ":" + evalue + "}"
      == "{\\\"key\\\":\\\"" + k + "\\\",\\\"value\\\":" + evalue + "}"
  {
  }

  /**
   * For a plain key, escaping the reply data puts a backslash before each
   * quote around the names and the key, and escapes the quoted value again.
   */
  lemma EscapedPlainGetReplyData(k: string, res: Option<string>)
    requires AllPlain(k)
    ensures Escape(GetReplyData(k, res))
      == "{\\\"key\\\":\\\"" + k + "\\\",\\\"value\\\":" + EscapedResultText(res) + "}"
  {
    EscapedDataParts(k, res);
    EscapedKeyQuotes(k);
    EscapedResult(res);
    EscapedDataAssembly(Escape(Quote("key")), Escape(Quote(k)), Escape(Quote("value")),
      Escape(Render(ResultValue(res))), k);
  }

  /** Proof step: joins the reply around the escaped data. */
  lemma PlainReplyAssembly(ed: string, k: string, vt: string)
    requires ed == "{\\\"key\\\":\\\"" + k + "\\\",\\\"value\\\":" + vt + "}"
    ensures "{\"id\":\"" + GetReplyId + "\",\"data\":\"" + ed + "\"}"
      == "{\"id\":\"storageGet\",\"data\":\"{\\\"key\\\":\\\"" + k + "\\\",\\\"value\\\":" + vt + "}\"}"
  {
  }

  /**
   * A get for a key without quotes, backslashes or control characters is
   * answered with exactly
   * `{"id":"storageGet","data":"{\"key\":\"<key>\",\"value\":<value>}"}`,
   * where <value> is `null` for a missing key and otherwise the stored text
   * quoted and escaped again (`\"<text>\"` when the text is plain).
   */
  lemma PlainGetReply(s: HostState, k: string)
    requires AllPlain(k)
    ensures Dispatch(s, Parsed(StorageGet(k))).replies
      == s.replies + ["{\"id\":\"storageGet\",\"data\":\"{\\\"key\\\":\\\"" + k + "\\\",\\\"value\\\":"
                      + EscapedResultText(Lookup(s.store, k)) + "}\"}"]
  {
    var res := Lookup(s.store, k);
    var d := GetReplyData(k, res);
    EscapedPlainGetReplyData(k, res);
    assert AllPlain(GetReplyId);
    ReplyWireText(GetReplyId, d);
    PlainReplyAssembly(Escape(d), k, EscapedResultText(res));
  }

  /** Proof step: the literal texts of the "color" and "missing" replies. */
  lemma ScenarioTexts()
    ensures AllPlain("color") && AllPlain("blue") && AllPlain("missing")
    ensures "{\"id\":\"storageGet\",\"data\":\"{\\\"key\\\":\\\"" + "color" + "\\\",\\\"value\\\":"
            + ("\\\"" + "blue" + "\\\"") + "}\"}"
      == "{\"id\":\"storageGet\",\"data\":\"{\\\"key\\\":\\\"color\\\",\\\"value\\\":\\\"blue\\\"}\"}"
    ensures "{\"id\":\"storageGet\",\"data\":\"{\\\"key\\\":\\\"" + "missing" + "\\\",\\\"value\\\":" + "null" + "}\"}"
      == "{\"id\":\"storageGet\",\"data\":\"{\\\"key\\\":\\\"missing\\\",\\\"value\\\":null}\"}"
  {
  }

  /** Whatever else the store holds, a stored "color" -> "blue" is answered with exactly this text. */
  lemma ColorReply(s: HostState)
    requires Lookup(s.store, "color") == Some("blue")
    ensures Dispatch(s, Parsed(StorageGet("color"))).replies
      == s.replies + ["{\"id\":\"storageGet\",\"data\":\"{\\\"key\\\":\\\"color\\\",\\\"value\\\":\\\"blue\\\"}\"}"]
  {
    ScenarioTexts();
    EscapeQuotedPlain("blue");
    PlainGetReply(s, "color");
  }

  /** A missing key is answered with a null value, not with an error. */
  lemma MissingReply(s: HostState)
    requires "missing" !in s.store
    ensures Dispatch(s, Parsed(StorageGet("missing"))).replies
      == s.replies + ["{\"id\":\"storageGet\",\"data\":\"{\\\"key\\\":\\\"missing\\\",\\\"value\\\":null}\"}"]
  {
    ScenarioTexts();
    PlainGetReply(s, "missing");
  }
}
