/**
 * The sandboxed peer's side of the bridge (webassets/storage.js):
 * `remotePut` and `remoteGet` post request envelopes to the host, and
 * `remoteGet` parks its caller in the registry `fetchPromiseSwitchboard`,
 * keyed by the storage key, until `handleGet` delivers the host's answer.
 *
 * A caller is identified by a `CallId`, the model's name for the promise
 * that `remoteGet` returns; resolving that promise is recorded as a pair
 * (call, value) in `resolved`.
 */
module PeerBridge {
  import opened Wrappers
  import opened Json

  type CallId = nat

  /** A request as the peer posts it, before its JSON text is taken. */
  datatype Envelope =
    | StoragePut(key: string, value: Value)
    | StorageGet(key: string)
    | Unknown(targetFunc: string)

  /** The object whose JSON text goes over the channel. */
  function RequestObject(e: Envelope): Value
  {
    match e
    case StoragePut(key, value) =>
      Obj([Member("targetFunc", Str("storagePut")),
           Member("data", Obj([Member("key", Str(key)), Member("value", value)]))])
    case StorageGet(key) =>
      Obj([Member("targetFunc", Str("storageGet")),
           Member("data", Obj([Member("key", Str(key))]))])
    case Unknown(tag) =>
      Obj([Member("targetFunc", Str(tag))])
  }

  /** What `remotePut` reports to its caller. */
  datatype PutStatus = Posted | Threw(message: string)

  const UndefinedMessage := "Tried to store undefined"

  /** The peer's state: the registry, the posted requests, the resolutions so far. */
  datatype PeerState = PeerState(
    pending: map<string, CallId>,
    outbox: seq<Envelope>,
    resolved: seq<(CallId, Value)>,
    nextCall: CallId)

  /** `window.fetchPromiseSwitchboard = {}`: nothing pending, nothing sent. */
  const Initial := PeerState(map[], [], [], 0)

  function AfterPut(s: PeerState, key: string, value: Value): PeerState
  {
    if value.Undefined? then s else s.(outbox := s.outbox + [StoragePut(key, value)])
  }

  function AfterGet(s: PeerState, key: string): PeerState
  {
    s.(outbox := s.outbox + [StorageGet(key)],
       pending := s.pending[key := s.nextCall],
       nextCall := s.nextCall + 1)
  }

  function AfterReply(s: PeerState, key: string, value: Value): PeerState
  {
    if key in s.pending then
      s.(resolved := s.resolved + [(s.pending[key], value)], pending := s.pending - {key})
    else s
  }

  class Peer {
    var pending: map<string, CallId>
    var outbox: seq<Envelope>
    var resolved: seq<(CallId, Value)>
    var nextCall: CallId

    function State(): PeerState
      reads this
    {
      PeerState(pending, outbox, resolved, nextCall)
    }

    constructor()
      ensures State() == Initial
    {
      pending, outbox, resolved, nextCall := map[], [], [], 0;
    }

    /** `remotePut(key, value)`: refuses `undefined`, otherwise posts a put request. */
    method RemotePut(key: string, value: Value) returns (status: PutStatus)
      modifies this
      ensures status == if value.Undefined? then Threw(UndefinedMessage) else Posted
      ensures State() == AfterPut(old(State()), key, value)
    {
      if value.Undefined? {
        return Threw(UndefinedMessage);
      }
      outbox := outbox + [StoragePut(key, value)];
      status := Posted;
    }

    /** `remoteGet(key)`: posts a get request and registers a fresh caller under `key`. */
    method RemoteGet(key: string) returns (call: CallId)
      modifies this
      ensures call == old(nextCall)
      ensures State() == AfterGet(old(State()), key)
    {
      outbox := outbox + [StorageGet(key)];
      call := nextCall;
      nextCall := nextCall + 1;
      pending := pending[key := call];
    }

    /** `handleGet(key, value)`: resolves and forgets the caller waiting on `key`, if any. */
    method HandleGet(key: string, value: Value)
      modifies this
      ensures State() == AfterReply(old(State()), key, value)
    {
      if key in pending {
        resolved := resolved + [(pending[key], value)];
        pending := pending - {key};
      }
    }
  }

  // ---------------------------------------------------------------------------
  // One call at a time
  // ---------------------------------------------------------------------------

  /** Refusing `undefined` posts nothing and leaves the registry alone. */
  lemma PutUndefinedChangesNothing(s: PeerState, key: string)
    ensures AfterPut(s, key, Undefined) == s
  {
  }

  /** A defined value posts exactly one put request and never touches the registry. */
  lemma PutPostsOneRequest(s: PeerState, key: string, value: Value)
    requires !value.Undefined?
    ensures AfterPut(s, key, value).outbox == s.outbox + [StoragePut(key, value)]
    ensures AfterPut(s, key, value).pending == s.pending
    ensures AfterPut(s, key, value).resolved == s.resolved
  {
  }

  /**
   * A get posts one request carrying only the key, and registers the new call
   * under the key, replacing whatever call was there; other keys keep theirs.
   */
  lemma GetRegistersCall(s: PeerState, key: string)
    ensures AfterGet(s, key).outbox == s.outbox + [StorageGet(key)]
    ensures AfterGet(s, key).pending[key] == s.nextCall
    ensures forall k :: k != key ==> (k in AfterGet(s, key).pending <==> k in s.pending)
    ensures forall k :: k != key && k in s.pending ==> AfterGet(s, key).pending[k] == s.pending[k]
    ensures AfterGet(s, key).resolved == s.resolved
  {
  }

  /** A reply for a waiting key resolves that caller once and removes only that entry. */
  lemma ReplyResolvesWaiter(s: PeerState, key: string, value: Value)
    requires key in s.pending
    ensures AfterReply(s, key, value).resolved == s.resolved + [(s.pending[key], value)]
    ensures AfterReply(s, key, value).pending == s.pending - {key}
    ensures AfterReply(s, key, value).outbox == s.outbox
  {
  }

  /** A reply for a key nobody waits on changes nothing. */
  lemma ReplyWithoutWaiterIsNoOp(s: PeerState, key: string, value: Value)
    requires key !in s.pending
    ensures AfterReply(s, key, value) == s
  {
  }

  /** A second reply for the same key, after the first, changes nothing. */
  lemma DuplicateReplyIsNoOp(s: PeerState, key: string, v: Value, w: Value)
    ensures AfterReply(AfterReply(s, key, v), key, w) == AfterReply(s, key, v)
  {
  }

  // ---------------------------------------------------------------------------
  // The request texts
  //
  // The lemmas marked "Proof step" in this section are helpers: each
  // joins literal pieces of text over variables, which keeps the solver from
  // unfolding `Quote` and `Escape` on long literals.
  // ---------------------------------------------------------------------------

  /** Proof step: joins the pieces of the get request text. */
  lemma GetTextAssembly(qt: string, qg: string, qd: string, qk: string, qkey: string,
                        t: string, g: string, d: string, kn: string, k: string)
    requires qt == "\"" + t + "\"" && qg == "\"" + g + "\"" && qd == "\"" + d + "\""
    requires qk == "\"" + kn + "\"" && qkey == "\"" + k + "\""
    ensures "{" + qt + ":" + qg + "," + qd + ":" + ("{" + qk + ":" + qkey + "}") + "}"
      == "{\"" + t + "\":\"" + g + "\",\"" + d + "\":{\"" + kn + "\":\"" + k + "\"}}"
  {
  }

  /** Proof step: joins the pieces of the put request text. */
  lemma PutTextAssembly(qt: string, qp: string, qd: string, qk: string, qkey: string, qv: string, vt: string,
                        t: string, p: string, d: string, kn: string, k: string, vn: string)
    requires qt == "\"" + t + "\"" && qp == "\"" + p + "\"" && qd == "\"" + d + "\""
    requires qk == "\"" + kn + "\"" && qkey == "\"" + k + "\"" && qv == "\"" + vn + "\""
    ensures "{" + qt + ":" + qp + "," + qd + ":" + ("{" + qk + ":" + qkey + "," + qv + ":" + vt + "}") + "}"
      == "{\"" + t + "\":\"" + p + "\",\"" + d + "\":{\"" + kn + "\":\"" + k + "\",\"" + vn + "\":" + vt + "}}"
  {
    var inner := "{" + qk + ":" + qkey + "," + qv + ":" + vt + "}";
    assert inner == "{\"" + kn + "\":\"" + k + "\",\"" + vn + "\":" + vt + "}";
  }

  /** The text of `{t: g, d: {kn: k}}` when all the names and strings are plain. */
  lemma GetShapedText(t: string, g: string, d: string, kn: string, k: string)
    requires AllPlain(t) && AllPlain(g) && AllPlain(d) && AllPlain(kn) && AllPlain(k)
    ensures Render(Obj([Member(t, Str(g)), Member(d, Obj([Member(kn, Str(k))]))]))
      == "{\"" + t + "\":\"" + g + "\",\"" + d + "\":{\"" + kn + "\":\"" + k + "\"}}"
  {
    RenderOneMember(Member(kn, Str(k)));
    RenderTwoMembers(Member(t, Str(g)), Member(d, Obj([Member(kn, Str(k))])));
    PlainQuote(t); PlainQuote(g); PlainQuote(d); PlainQuote(kn); PlainQuote(k);
    GetTextAssembly(Quote(t), Quote(g), Quote(d), Quote(kn), Quote(k), t, g, d, kn, k);
  }

  /** The text of `{t: p, d: {kn: k, vn: v}}` when all the names and strings are plain. */
  lemma PutShapedText(t: string, p: string, d: string, kn: string, k: string, vn: string, v: Value)
    requires AllPlain(t) && AllPlain(p) && AllPlain(d) && AllPlain(kn) && AllPlain(k) && AllPlain(vn)
    requires !v.Undefined?
    ensures Render(Obj([Member(t, Str(p)), Member(d, Obj([Member(kn, Str(k)), Member(vn, v)]))]))
      == "{\"" + t + "\":\"" + p + "\",\"" + d + "\":{\"" + kn + "\":\"" + k + "\",\"" + vn + "\":" + Render(v) + "}}"
  {
    RenderTwoMembers(Member(kn, Str(k)), Member(vn, v));
    RenderTwoMembers(Member(t, Str(p)), Member(d, Obj([Member(kn, Str(k)), Member(vn, v)])));
    PlainQuote(t); PlainQuote(p); PlainQuote(d); PlainQuote(kn); PlainQuote(k); PlainQuote(vn);
    PutTextAssembly(Quote(t), Quote(p), Quote(d), Quote(kn), Quote(k), Quote(vn), Render(v), t, p, d, kn, k, vn);
  }

  /** Proof step: the fixed names of a request need no escaping. */
  lemma RequestNamesArePlain()
    ensures AllPlain("targetFunc") && AllPlain("storagePut") && AllPlain("storageGet")
    ensures AllPlain("data") && AllPlain("key") && AllPlain("value")
  {
  }

  /** Proof step: the get request object text, from `GetShapedText`. */
  lemma GetRequestObject(k: string)
    ensures Stringify(RequestObject(StorageGet(k)))
      == Some(Render(Obj([Member("targetFunc", Str("storageGet")), Member("data", Obj([Member("key", Str(k))]))])))
  {
  }

  /** Proof step: the get request text written as one literal around the key. */
  lemma GetRequestLiteral(k: string)
    ensures "{\"" + "targetFunc" + "\":\"" + "storageGet" + "\",\"" + "data" + "\":{\"" + "key" + "\":\"" + k + "\"}}"
      == "{\"targetFunc\":\"storageGet\",\"data\":{\"key\":\"" + k + "\"}}"
  {
  }

  /** Proof step: the put request object text, from `PutShapedText`. */
  lemma PutRequestObject(k: string, v: Value)
    requires !v.Undefined?
    ensures Stringify(RequestObject(StoragePut(k, v)))
      == Some(Render(Obj([Member("targetFunc", Str("storagePut")),
                          Member("data", Obj([Member("key", Str(k)), Member("value", v)]))])))
  {
  }

  /** Proof step: the put request text written as one literal around the key and value. */
  lemma PutRequestLiteral(k: string, vt: string)
    ensures "{\"" + "targetFunc" + "\":\"" + "storagePut" + "\",\"" + "data" + "\":{\"" + "key" + "\":\"" + k
            + "\",\"" + "value" + "\":" + vt + "}}"
      == "{\"targetFunc\":\"storagePut\",\"data\":{\"key\":\"" + k + "\",\"value\":" + vt + "}}"
  {
    var x := "{\"" + "targetFunc" + "\":\"" + "storagePut" + "\",\"" + "data" + "\":{\"" + "key" + "\":\"" + k;
    assert x == "{\"targetFunc\":\"storagePut\",\"data\":{\"key\":\"" + k;
    assert x + "\",\"" + "value" + "\":" == x + "\",\"value\":";
  }

  /** For a plain key, `remoteGet` posts exactly `{"targetFunc":"storageGet","data":{"key":"<key>"}}`. */
  lemma GetRequestText(k: string)
    requires AllPlain(k)
    ensures Stringify(RequestObject(StorageGet(k)))
      == Some("{\"targetFunc\":\"storageGet\",\"data\":{\"key\":\"" + k + "\"}}")
  {
    RequestNamesArePlain();
    GetRequestObject(k);
    GetShapedText("targetFunc", "storageGet", "data", "key", k);
    GetRequestLiteral(k);
  }

  /**
   * For a plain key, `remotePut` posts exactly
   * `{"targetFunc":"storagePut","data":{"key":"<key>","value":<value as JSON>}}`.
   */
  lemma PutRequestText(k: string, v: Value)
    requires AllPlain(k) && !v.Undefined?
    ensures Stringify(RequestObject(StoragePut(k, v)))
      == Some("{\"targetFunc\":\"storagePut\",\"data\":{\"key\":\"" + k + "\",\"value\":" + Render(v) + "}}")
  {
    RequestNamesArePlain();
    PutRequestObject(k, v);
    PutShapedText("targetFunc", "storagePut", "data", "key", k, "value", v);
    PutRequestLiteral(k, Render(v));
  }

  // ---------------------------------------------------------------------------
  // Whole runs of the peer
  // ---------------------------------------------------------------------------

  /** One call into the bridge. */
  datatype PeerEvent =
    | Put(key: string, value: Value)
    | Get(key: string)
    | Reply(key: string, value: Value)

  function Step(s: PeerState, e: PeerEvent): PeerState
  {
    match e
    case Put(key, value) => AfterPut(s, key, value)
    case Get(key) => AfterGet(s, key)
    case Reply(key, value) => AfterReply(s, key, value)
  }

  function Run(s: PeerState, es: seq<PeerEvent>): PeerState
    decreases |es|
  {
    if es == [] then s else Run(Step(s, es[0]), es[1..])
  }

  /** No call appears twice among the resolutions. */
  ghost predicate ResolvedOnce(s: PeerState)
  {
    forall i, j :: 0 <= i < j < |s.resolved| ==> s.resolved[i].0 != s.resolved[j].0
  }

  ghost predicate Waiting(s: PeerState, c: CallId)
  {
    exists k :: k in s.pending && s.pending[k] == c
  }

  ghost predicate WasResolved(s: PeerState, c: CallId)
  {
    exists i :: 0 <= i < |s.resolved| && s.resolved[i].0 == c
  }

  /**
   * The registry's bookkeeping: every call it knows was issued, no call waits
   * under two keys, no waiting call has been resolved, none resolved twice.
   */
  ghost predicate Consistent(s: PeerState)
  {
    && (forall k :: k in s.pending ==> s.pending[k] < s.nextCall)
    && (forall i :: 0 <= i < |s.resolved| ==> s.resolved[i].0 < s.nextCall)
    && (forall k1, k2 :: k1 in s.pending && k2 in s.pending && k1 != k2 ==> s.pending[k1] != s.pending[k2])
    && (forall k, i :: k in s.pending && 0 <= i < |s.resolved| ==> s.resolved[i].0 != s.pending[k])
    && ResolvedOnce(s)
  }

  lemma StepKeepsConsistent(s: PeerState, e: PeerEvent)
    requires Consistent(s)
    ensures Consistent(Step(s, e))
  {
    var t := Step(s, e);
    if e.Reply? && e.key in s.pending {
      var c := s.pending[e.key];
      assert t.resolved == s.resolved + [(c, e.value)];
      forall i, j | 0 <= i < j < |t.resolved|
        ensures t.resolved[i].0 != t.resolved[j].0
      {
        if j == |s.resolved| {
          assert t.resolved[i] == s.resolved[i];
        }
      }
    }
  }

  lemma {:induction false} RunKeepsConsistent(s: PeerState, es: seq<PeerEvent>)
    requires Consistent(s)
    ensures Consistent(Run(s, es))
    decreases |es|
  {
    if es != [] {
      StepKeepsConsistent(s, es[0]);
      RunKeepsConsistent(Step(s, es[0]), es[1..]);
    }
  }

  /**
   * Late or duplicate replies never resolve a caller twice: from a fresh
   * peer, whatever the calls and replies, each call is resolved at most once.
   */
  lemma NoCallerResolvedTwice(es: seq<PeerEvent>)
    ensures ResolvedOnce(Run(Initial, es))
  {
    RunKeepsConsistent(Initial, es);
  }

  /** An issued call that is neither waiting nor resolved is never resolved later. */
  lemma {:induction false} ForgottenCallStaysUnresolved(s: PeerState, c: CallId, es: seq<PeerEvent>)
    requires c < s.nextCall && !Waiting(s, c) && !WasResolved(s, c)
    ensures !Waiting(Run(s, es), c) && !WasResolved(Run(s, es), c)
    decreases |es|
  {
    if es != [] {
      var t := Step(s, es[0]);
      forall k | k in t.pending
        ensures t.pending[k] != c
      {
        assert k in s.pending || t.pending[k] == s.nextCall;
      }
      forall i | 0 <= i < |t.resolved|
        ensures t.resolved[i].0 != c
      {
        assert i < |s.resolved| ==> t.resolved[i] == s.resolved[i];
      }
      ForgottenCallStaysUnresolved(t, c, es[1..]);
    }
  }

  /**
   * The registry is keyed by storage key, not by call: when a second
   * `remoteGet` for the same key comes before the reply, the first caller's
   * entry is overwritten and that caller is never resolved, whatever happens
   * afterwards.
   */
  lemma SameKeyGetOrphansFirstCaller(s: PeerState, key: string, es: seq<PeerEvent>)
    requires Consistent(s)
    ensures !WasResolved(Run(AfterGet(AfterGet(s, key), key), es), s.nextCall)
  {
    var t := AfterGet(AfterGet(s, key), key);
    var c := s.nextCall;
    forall k | k in t.pending
      ensures t.pending[k] != c
    {
      if k != key {
        assert t.pending[k] == s.pending[k];
      }
    }
    assert t.resolved == s.resolved;
    ForgottenCallStaysUnresolved(t, c, es);
  }
}

