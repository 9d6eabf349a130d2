/**
 * The two sides put together. The channel is taken to deliver each posted
 * request to the host as the envelope it was built from, and the web view's
 * page to hand `handleGet` the key and value of each reply's data, that is
 * the pair the host rendered into it (`ReplyPayload`).
 */
module EndToEnd {
  import opened Wrappers
  import opened Json
  import opened StorageAdapter
  import opened PeerBridge
  import opened HostDispatcher

  /** The key and value a get reply's data is the JSON text of. */
  function ReplyPayload(k: string, res: Option<string>): (p: (string, Value))
    ensures GetReplyData(p.0, res) == Render(Obj([Member("key", Str(p.0)), Member("value", p.1)]))
  {
    (k, ResultValue(res))
  }

  function LastRequest(s: PeerState): Envelope
    requires s.outbox != []
  {
    s.outbox[|s.outbox| - 1]
  }

  /**
   * `remoteGet(k)`, answered by the host and the answer handed back: the new
   * call is resolved with the stored text (or null), the registry forgets
   * it, and the host's store is untouched.
   */
  lemma GetEndToEnd(ps: PeerState, hs: HostState, k: string)
    ensures LastRequest(AfterGet(ps, k)) == StorageGet(k)
    ensures Dispatch(hs, Parsed(StorageGet(k))).store == hs.store
    ensures var p := ReplyPayload(k, Lookup(hs.store, k));
      && p.0 == k
      && AfterReply(AfterGet(ps, k), p.0, p.1).resolved == ps.resolved + [(ps.nextCall, ResultValue(Lookup(hs.store, k)))]
      && k !in AfterReply(AfterGet(ps, k), p.0, p.1).pending
  {
  }

  /**
   * `remotePut(k, v)` then `remoteGet(k)`: the get resolves with the text the
   * host stored, which is `v` itself only when `v` is a string; any other
   * value comes back as the string of its JSON text.
   */
  lemma PutThenGetEndToEnd(ps: PeerState, hs: HostState, k: string, v: Value)
    requires !v.Undefined?
    ensures LastRequest(AfterPut(ps, k, v)) == StoragePut(k, v)
    ensures var hs1 := Dispatch(hs, Parsed(StoragePut(k, v)));
      var p := ReplyPayload(k, Lookup(hs1.store, k));
      var ps2 := AfterReply(AfterGet(AfterPut(ps, k, v), k), p.0, p.1);
      && ps2.resolved == ps.resolved + [(ps.nextCall, if v.Str? then v else Str(Render(v)))]
      && (p.1 == v <==> v.Str?)
  {
  }

  /**
   * The "color" exchange composed from the class methods: a fresh peer asks for "color",
   * the host holding "color" -> "blue" answers with the exact reply text, and
   * the caller is resolved with "blue".
   */
  method ColorScenario() returns (reply: string, answer: Value)
    ensures reply == "{\"id\":\"storageGet\",\"data\":\"{\\\"key\\\":\\\"color\\\",\\\"value\\\":\\\"blue\\\"}\"}"
    ensures answer == Str("blue")
  {
    var peer := new Peer();
    var host := new Host(map["color" := "blue"]);
    var call := peer.RemoteGet("color");
    var request := peer.outbox[|peer.outbox| - 1];
    host.OnWebViewMessage(Parsed(request));
    ColorReply(InitialHost(map["color" := "blue"]));
    reply := host.replies[|host.replies| - 1];
    var payload := ReplyPayload("color", Lookup(host.storage.items, "color"));
    peer.HandleGet(payload.0, payload.1);
    assert peer.resolved == [(call, Str("blue"))];
    answer := peer.resolved[0].1;
  }
}
