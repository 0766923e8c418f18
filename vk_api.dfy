/**
 * The VK long-poll accessor: building request URLs, the long-poll
 * handshake, one poll step (cursor update and update decoding) and the
 * parameters of an outgoing message. The HTTP exchange itself is not
 * modelled: each operation returns the URL it would GET and takes the
 * decoded response body as an argument.
 */
module VkApi {
  import opened Wrappers
  import opened PyValues
  import opened UrlParse

  const API_VERSION: string := "5.131"
  const API_PATH: string := "https://api.vk.com/method/"
  const MESSAGE_NEW: string := "message_new"
  /** Seconds the long-poll server holds a request open. */
  const LONG_POLL_WAIT: int := 25

  // ---------------------------------------------------------------------
  // The records built from a response (their declaring file is not part of
  // this model; their fields are taken from the constructor calls)

  datatype UpdateMessage = UpdateMessage(fromId: Json, text: Json, id: Json)
  datatype UpdateObject = UpdateObject(message: UpdateMessage)
  /** `kind` is the record's `type` field and `obj` its `object` field. */
  datatype Update = Update(kind: Json, obj: UpdateObject)
  /** An outgoing message: recipient and text. */
  datatype Message = Message(userId: Json, text: Json)

  /** The accessor's long-poll session: `key`, `server` and the cursor `ts`. */
  datatype SessionState = SessionState(key: Json, server: Json, ts: Json)

  // ---------------------------------------------------------------------
  // Request URLs

  /** The query string `_build_query` produces from the caller's dict. */
  function QueryString(params: Entries, c: Codec): string {
    UrlEncode(WithDefault(params, "v", JStr(API_VERSION)), c)
  }

  /** The URL `_build_query(host, method, params)` returns. */
  function Query(host: Json, apiMethod: string, params: Entries, c: Codec): string
    requires Joinable(host, apiMethod)
  {
    Render(UrlJoin(host, apiMethod), c) + "?" + QueryString(params, c)
  }

  /**
   * The query lists the caller's parameters in the dict's order, followed
   * by `v=5.131` exactly when the caller gave no `v`; a caller's `v` is
   * kept as given.
   */
  lemma QueryFields(params: Entries, c: Codec)
    requires SeparatorFree(c)
    ensures ParseQuery(QueryString(params, c))
         == EncodedPairs(params, c)
          + (if Lookup(params, "v").Some? then [] else [(c.quote("v"), c.quote(API_VERSION))])
  {
    var full := WithDefault(params, "v", JStr(API_VERSION));
    ParseUrlEncode(full, c);
    if Lookup(params, "v").None? {
      EncodedPairsAppend(params, ("v", JStr(API_VERSION)), c);
    }
  }

  /** With an empty method the URL is the host itself, whatever it holds, then '?' and the query. */
  lemma QueryOnHost(host: Json, params: Entries, c: Codec)
    ensures Query(host, "", params, c)
         == (if Falsy(host) then "" else Render(host, c)) + "?" + QueryString(params, c)
  {
  }

  /** A plain method name is appended to a directory-shaped host. */
  lemma QueryOnDirectory(host: string, apiMethod: string, params: Entries, c: Codec)
    requires DirectoryBase(host) && PlainSegment(apiMethod)
    ensures Query(JStr(host), apiMethod, params, c) == host + apiMethod + "?" + QueryString(params, c)
  {
  }

  lemma ApiPathIsDirectory()
    ensures DirectoryBase(API_PATH)
  {
    var rest := "api.vk.com/method/";
    assert API_PATH[..8] == "https://" && API_PATH[8..] == rest;
    assert forall k :: 0 <= k < |rest| ==> UrlChar(rest[k]) && rest[k] !in "?#[]";
    assert forall k :: 0 <= k < |rest| - 1 ==> rest[k] == '/' ==> rest[k + 1] != '/' && rest[k + 1] != '.';
  }

  lemma ApiMethodsArePlain()
    ensures PlainSegment("groups.getLongPollServer") && PlainSegment("messages.send")
  {
    var m1, m2 := "groups.getLongPollServer", "messages.send";
    assert forall k :: 0 <= k < |m1| ==> UrlChar(m1[k]) && m1[k] !in "/?#:;";
    assert forall k :: 0 <= k < |m2| ==> UrlChar(m2[k]) && m2[k] !in "/?#:;";
  }

  lemma ApiPathJoinable()
    ensures Joinable(JStr(API_PATH), "groups.getLongPollServer")
    ensures Joinable(JStr(API_PATH), "messages.send")
  {
    ApiPathIsDirectory();
    ApiMethodsArePlain();
  }

  function HandshakeParams(token: string, groupId: int): Entries {
    [("access_token", JStr(token)), ("group_id", JInt(groupId))]
  }

  function HandshakeUrl(token: string, groupId: int, c: Codec): string {
    ApiPathJoinable();
    Query(JStr(API_PATH), "groups.getLongPollServer", HandshakeParams(token, groupId), c)
  }

  function PollParams(s: SessionState): Entries {
    [("act", JStr("a_check")), ("key", s.key), ("ts", s.ts), ("wait", JInt(LONG_POLL_WAIT))]
  }

  /** The long-poll request, built from the session as it stands. */
  function PollUrl(s: SessionState, c: Codec): string {
    Query(s.server, "", PollParams(s), c)
  }

  function SendParams(message: Message, token: string, groupId: int, randomId: int): Entries {
    [ ("user_id", message.userId),
      ("random_id", JInt(randomId)),
      ("peer_id", JStr("-" + Decimal(groupId))),
      ("message", message.text),
      ("access_token", JStr(token)) ]
  }

  function SendUrl(message: Message, token: string, groupId: int, randomId: int, c: Codec): string {
    ApiPathJoinable();
    Query(JStr(API_PATH), "messages.send", SendParams(message, token, groupId, randomId), c)
  }

  /** The handshake GETs groups.getLongPollServer with the token, the group and the version. */
  lemma HandshakeRequest(token: string, groupId: int, c: Codec)
    ensures HandshakeUrl(token, groupId, c)
         == API_PATH + "groups.getLongPollServer" + "?"
          + UrlEncode(HandshakeParams(token, groupId) + [("v", JStr(API_VERSION))], c)
  {
    LookupMissing(HandshakeParams(token, groupId), "v");
  }

  /**
   * The poll request targets the current `server` with `act=a_check`,
   * the current `key`, the current cursor `ts`, `wait=25` and `v=5.131`,
   * in that order.
   */
  lemma PollRequest(s: SessionState, c: Codec)
    ensures PollUrl(s, c)
         == (if Falsy(s.server) then "" else Render(s.server, c)) + "?"
          + UrlEncode(PollParams(s) + [("v", JStr(API_VERSION))], c)
    ensures SeparatorFree(c) ==>
      ParseQuery(UrlEncode(PollParams(s) + [("v", JStr(API_VERSION))], c))
      == [ (c.quote("act"), c.quote("a_check")),
           (c.quote("key"), c.quote(Render(s.key, c))),
           (c.quote("ts"), c.quote(Render(s.ts, c))),
           (c.quote("wait"), c.quote("25")),
           (c.quote("v"), c.quote(API_VERSION)) ]
  {
    LookupMissing(PollParams(s), "v");
    if SeparatorFree(c) {
      ParseUrlEncode(PollParams(s) + [("v", JStr(API_VERSION))], c);
      EncodedPairsAt(PollParams(s) + [("v", JStr(API_VERSION))], c);
      assert NatDigits(2) == "2";
      assert Render(JInt(LONG_POLL_WAIT), c) == "25";
    }
  }

  /**
   * An outgoing message carries `peer_id` = '-' followed by the decimal
   * group id, the random id in decimal, then the version last.
   */
  lemma SendRequest(message: Message, token: string, groupId: int, randomId: int, c: Codec)
    requires 1 <= randomId <= 0x1_0000_0000
    ensures SendUrl(message, token, groupId, randomId, c)
         == API_PATH + "messages.send" + "?"
          + UrlEncode(SendParams(message, token, groupId, randomId) + [("v", JStr(API_VERSION))], c)
    ensures SeparatorFree(c) ==>
      ParseQuery(UrlEncode(SendParams(message, token, groupId, randomId) + [("v", JStr(API_VERSION))], c))
      == [ (c.quote("user_id"), c.quote(Render(message.userId, c))),
           (c.quote("random_id"), c.quote(Decimal(randomId))),
           (c.quote("peer_id"), c.quote("-" + Decimal(groupId))),
           (c.quote("message"), c.quote(Render(message.text, c))),
           (c.quote("access_token"), c.quote(token)),
           (c.quote("v"), c.quote(API_VERSION)) ]
  {
    LookupMissing(SendParams(message, token, groupId, randomId), "v");
    if SeparatorFree(c) {
      ParseUrlEncode(SendParams(message, token, groupId, randomId) + [("v", JStr(API_VERSION))], c);
      EncodedPairsAt(SendParams(message, token, groupId, randomId) + [("v", JStr(API_VERSION))], c);
    }
  }

  // ---------------------------------------------------------------------
  // Decoding the updates of a poll response

  predicate IsMessageNew(x: Json) {
    Index(x, "type") == Ok(JStr(MESSAGE_NEW))
  }

  /**
   * The record built for one accepted update. Python evaluates
   * `update["object"]["message"]` afresh for each field; the lookups are
   * pure, so evaluating it once gives the same value and the same first
   * exception.
   */
  function Project(x: Json): (r: Result<Update, PyError>)
    ensures r.Ok? <==> && Path(x, ["type"]).Ok?
                       && Path(x, ["object", "message", "from_id"]).Ok?
                       && Path(x, ["object", "message", "text"]).Ok?
                       && Path(x, ["object", "message", "id"]).Ok?
    ensures r.Ok? ==> r.value == Update(Path(x, ["type"]).value, UpdateObject(UpdateMessage(
                                   Path(x, ["object", "message", "from_id"]).value,
                                   Path(x, ["object", "message", "text"]).value,
                                   Path(x, ["object", "message", "id"]).value)))
  {
    var kind :- Index(x, "type");
    var obj :- Index(x, "object");
    var msg :- Index(obj, "message");
    var fromId :- Index(msg, "from_id");
    var text :- Index(msg, "text");
    var id :- Index(msg, "id");
    Ok(Update(kind, UpdateObject(UpdateMessage(fromId, text, id))))
  }

  /**
   * The list comprehension over a list of updates: each item's `type` is
   * read first; only a "message_new" item is projected; the first
   * exception aborts the whole batch.
   */
  function DecodeList(xs: seq<Json>): (r: Result<seq<Update>, PyError>)
    ensures r.Ok? ==> |r.value| <= |xs|
    decreases |xs|
  {
    if xs == [] then Ok([])
    else
      var kind :- Index(xs[0], "type");
      if kind == JStr(MESSAGE_NEW) then
        var u :- Project(xs[0]);
        var rest :- DecodeList(xs[1..]);
        Ok([u] + rest)
      else
        DecodeList(xs[1..])
  }

  /**
   * Iterating `response_body["updates"]`: a list yields its items; an
   * empty str or dict yields nothing; a non-empty str or dict yields strs,
   * and subscripting a str by "type" raises TypeError; anything else is
   * not iterable.
   */
  function DecodeUpdates(updates: Json): Result<seq<Update>, PyError> {
    match updates
    case JArr(items) => DecodeList(items)
    case JStr(s) => if s == "" then Ok([]) else Err(TypeError)
    case JObj(fields) => if |fields| == 0 then Ok([]) else Err(TypeError)
    case _ => Err(TypeError)
  }

  /**
   * Decoding `response_body["updates"]`: it succeeds exactly for a list of
   * decodable items (yielding one record per accepted item, in order) and
   * for an empty str or dict (yielding nothing); every other value raises
   * TypeError.
   */
  lemma DecodeUpdatesSpec(updates: Json)
    ensures DecodeUpdates(updates).Ok? <==>
      || (updates.JArr? && Decodable(updates.items))
      || updates == JStr("")
      || updates == JObj(map[])
    ensures updates.JArr? && DecodeUpdates(updates).Ok? ==>
      && |DecodeUpdates(updates).value| == |Accepted(updates.items)|
      && forall j :: 0 <= j < |Accepted(updates.items)| ==>
           Project(Accepted(updates.items)[j]) == Ok(DecodeUpdates(updates).value[j])
    ensures !updates.JArr? ==>
      DecodeUpdates(updates) == (if updates == JStr("") || updates == JObj(map[]) then Ok([]) else Err(TypeError))
  {
    match updates
    case JArr(items) => DecodeListSpec(items);
    case JObj(fields) =>
      if |fields| == 0 {
        assert fields == map[];
      }
    case _ =>
  }

  /** The reference filter: the items whose `type` is "message_new", in order. */
  function Accepted(xs: seq<Json>): seq<Json>
    decreases |xs|
  {
    if xs == [] then []
    else (if IsMessageNew(xs[0]) then [xs[0]] else []) + Accepted(xs[1..])
  }

  lemma {:induction false} AcceptedSpec(xs: seq<Json>)
    ensures |Accepted(xs)| <= |xs|
    ensures forall y :: y in Accepted(xs) <==> y in xs && IsMessageNew(y)
    decreases |xs|
  {
    if xs != [] {
      AcceptedSpec(xs[1..]);
      assert xs == [xs[0]] + xs[1..];
    }
  }

  /** What one item needs in order to decode: a readable `type`, and all fields when it is accepted. */
  predicate ItemDecodable(x: Json) {
    Index(x, "type").Ok? && (IsMessageNew(x) ==> Project(x).Ok?)
  }

  /** The items a batch needs in order to decode: every item decodable on its own. */
  predicate Decodable(xs: seq<Json>) {
    forall i :: 0 <= i < |xs| ==> ItemDecodable(xs[i])
  }

  lemma DecodableCons(xs: seq<Json>)
    requires xs != []
    ensures Decodable(xs) <==> ItemDecodable(xs[0]) && Decodable(xs[1..])
  {
    if ItemDecodable(xs[0]) && Decodable(xs[1..]) {
      forall i | 0 <= i < |xs|
        ensures ItemDecodable(xs[i])
      {
        if i > 0 {
          assert xs[i] == xs[1..][i - 1];
        }
      }
    }
  }

  /**
   * Decoding succeeds exactly when every item has a `type` and every
   * "message_new" item has `object.message.{from_id,text,id}`; it then
   * yields, in order, one record per "message_new" item, the fields
   * copied unchanged.
   */
  lemma {:induction false} DecodeListSpec(xs: seq<Json>)
    ensures DecodeList(xs).Ok? <==> Decodable(xs)
    ensures DecodeList(xs).Ok? ==>
      && |DecodeList(xs).value| == |Accepted(xs)|
      && forall j :: 0 <= j < |Accepted(xs)| ==> Project(Accepted(xs)[j]) == Ok(DecodeList(xs).value[j])
    decreases |xs|
  {
    if xs != [] {
      var x, rest := xs[0], xs[1..];
      DecodeListSpec(rest);
      DecodableCons(xs);
      if IsMessageNew(x) {
        assert Accepted(xs) == [x] + Accepted(rest);
      } else {
        assert Accepted(xs) == Accepted(rest);
      }
    }
  }

  /** A "message_new" item that lacks one of its fields fails the whole batch. */
  lemma MalformedFailsBatch(xs: seq<Json>, i: nat)
    requires i < |xs| && IsMessageNew(xs[i]) && Project(xs[i]).Err?
    ensures DecodeList(xs).Err?
  {
    DecodeListSpec(xs);
  }

  /**
   * An item whose `type` is not "message_new" is read no further: any
   * other item with the same `type` lookup outcome decodes the batch the
   * same way.
   */
  lemma {:induction false} OthersNotInspected(a: seq<Json>, x: Json, y: Json, b: seq<Json>)
    requires Index(x, "type") == Index(y, "type") && !IsMessageNew(x)
    ensures DecodeList(a + [x] + b) == DecodeList(a + [y] + b)
    decreases |a|
  {
    if a == [] {
      assert (a + [x] + b)[1..] == b && (a + [y] + b)[1..] == b;
    } else {
      assert (a + [x] + b)[0] == a[0] && (a + [y] + b)[0] == a[0];
      assert (a + [x] + b)[1..] == a[1..] + [x] + b;
      assert (a + [y] + b)[1..] == a[1..] + [y] + b;
      OthersNotInspected(a[1..], x, y, b);
    }
  }

  // ---------------------------------------------------------------------
  // The session updates

  /**
   * The session after `_get_long_poll_service` receives `body`, and whether
   * it raised. The fields are assigned one by one, so a `response` lacking
   * `server` or `ts` leaves a new `key` (and `server`) behind.
   */
  function AfterHandshake(s: SessionState, body: Json): (SessionState, Result<(), PyError>) {
    match Index(body, "response")
    case Err(e) => (s, Err(e))
    case Ok(data) =>
      match Index(data, "key")
      case Err(e) => (s, Err(e))
      case Ok(key) =>
        match Index(data, "server")
        case Err(e) => (s.(key := key), Err(e))
        case Ok(server) =>
          match Index(data, "ts")
          case Err(e) => (s.(key := key, server := server), Err(e))
          case Ok(ts) => (SessionState(key, server, ts), Ok(()))
  }

  /**
   * The session after `poll` receives `body`, and the decoded updates. The
   * cursor is replaced before `updates` is read or decoded.
   */
  function AfterPoll(s: SessionState, body: Json): (SessionState, Result<seq<Update>, PyError>) {
    match Index(body, "ts")
    case Err(e) => (s, Err(e))
    case Ok(ts) =>
      (s.(ts := ts), match Index(body, "updates")
                     case Err(e) => Err(e)
                     case Ok(updates) => DecodeUpdates(updates))
  }

  /** The handshake succeeds exactly when `response` holds `key`, `server` and `ts`, and then installs those three. */
  lemma HandshakeSucceeds(s: SessionState, body: Json)
    ensures AfterHandshake(s, body).1.Ok? <==>
      && Path(body, ["response", "key"]).Ok?
      && Path(body, ["response", "server"]).Ok?
      && Path(body, ["response", "ts"]).Ok?
    ensures AfterHandshake(s, body).1.Ok? ==>
      AfterHandshake(s, body).0 == SessionState(Path(body, ["response", "key"]).value,
                                                Path(body, ["response", "server"]).value,
                                                Path(body, ["response", "ts"]).value)
  {
  }

  /** Without a readable `response` the handshake raises and changes nothing. */
  lemma HandshakeWithoutResponse(s: SessionState, body: Json)
    requires Index(body, "response").Err?
    ensures AfterHandshake(s, body) == (s, Err(Index(body, "response").error))
  {
  }

  /**
   * A `response` with `key` but no `server` raises after the new key is
   * stored: the session then pairs the new key with the old server and cursor.
   */
  lemma HandshakeKeyOnly(s: SessionState, body: Json)
    requires Path(body, ["response", "key"]).Ok? && Path(body, ["response", "server"]).Err?
    ensures AfterHandshake(s, body)
         == (s.(key := Path(body, ["response", "key"]).value), Err(Path(body, ["response", "server"]).error))
  {
  }

  /** The first poll after a successful handshake uses exactly the negotiated server, key and cursor. */
  lemma HandshakeThenPoll(s: SessionState, body: Json, c: Codec)
    requires AfterHandshake(s, body).1.Ok?
    ensures PollUrl(AfterHandshake(s, body).0, c)
         == PollUrl(SessionState(Path(body, ["response", "key"]).value,
                                 Path(body, ["response", "server"]).value,
                                 Path(body, ["response", "ts"]).value), c)
  {
    HandshakeSucceeds(s, body);
  }

  /**
   * A poll response with a `ts` installs it whether `updates` is empty,
   * missing or undecodable; key and server stay; the next request carries the new cursor.
   */
  lemma PollAdvancesCursor(s: SessionState, body: Json, c: Codec)
    requires Index(body, "ts").Ok?
    ensures AfterPoll(s, body).0 == s.(ts := Index(body, "ts").value)
    ensures PollUrl(AfterPoll(s, body).0, c) == PollUrl(SessionState(s.key, s.server, Index(body, "ts").value), c)
    ensures AfterPoll(s, body).1.Ok? <==> Index(body, "updates").Ok? && DecodeUpdates(Index(body, "updates").value).Ok?
  {
  }

  /** Without a readable `ts` the poll raises and the session is unchanged. */
  lemma PollWithoutTs(s: SessionState, body: Json)
    requires Index(body, "ts").Err?
    ensures AfterPoll(s, body) == (s, Err(Index(body, "ts").error))
  {
  }

  // ---------------------------------------------------------------------
  // The accessor

  class VkApiAccessor {
    var key: Json
    var server: Json
    var ts: Json

    /** A fresh accessor: no session yet (all three are None). */
    constructor ()
      ensures State() == SessionState(JNull, JNull, JNull)
    {
      key, server, ts := JNull, JNull, JNull;
    }

    function State(): SessionState
      reads this
    {
      SessionState(key, server, ts)
    }

    /**
     * `_build_query`: sets `v` in the caller's dict if absent (the dict is
     * changed in place), then joins host and method and appends the query.
     */
    static method BuildQuery(host: Json, apiMethod: string, params: Dict, c: Codec) returns (url: string)
      requires params.Valid() && Joinable(host, apiMethod)
      modifies params
      ensures params.Valid()
      ensures params.entries == WithDefault(old(params.entries), "v", JStr(API_VERSION))
      ensures url == Query(host, apiMethod, old(params.entries), c)
    {
      var _ := params.SetDefault("v", JStr(API_VERSION));
      url := Render(UrlJoin(host, apiMethod), c) + "?" + UrlEncode(params.entries, c);
    }

    /**
     * `_get_long_poll_service`: returns the URL requested and, given the
     * decoded body of its response, copies `key`, `server`, `ts` in that order.
     */
    method GetLongPollService(token: string, groupId: int, body: Json, c: Codec)
      returns (url: string, r: Result<(), PyError>)
      modifies this
      ensures url == HandshakeUrl(token, groupId, c)
      ensures (State(), r) == AfterHandshake(old(State()), body)
    {
      ApiPathJoinable();
      var params := new Dict(HandshakeParams(token, groupId));
      url := BuildQuery(JStr(API_PATH), "groups.getLongPollServer", params, c);
      var data := Index(body, "response");
      if data.Err? {
        return url, Err(data.error);
      }
      var newKey := Index(data.value, "key");
      if newKey.Err? {
        return url, Err(newKey.error);
      }
      key := newKey.value;
      var newServer := Index(data.value, "server");
      if newServer.Err? {
        return url, Err(newServer.error);
      }
      server := newServer.value;
      var newTs := Index(data.value, "ts");
      if newTs.Err? {
        return url, Err(newTs.error);
      }
      ts := newTs.value;
      r := Ok(());
    }

    /**
     * `poll`: returns the URL requested from the current session and, given
     * the decoded body of its response, the new cursor and the decoded updates.
     */
    method Poll(body: Json, c: Codec) returns (url: string, r: Result<seq<Update>, PyError>)
      modifies this
      ensures url == PollUrl(old(State()), c)
      ensures (State(), r) == AfterPoll(old(State()), body)
    {
      var params := new Dict(PollParams(State()));
      url := BuildQuery(server, "", params, c);
      var newTs := Index(body, "ts");
      if newTs.Err? {
        return url, Err(newTs.error);
      }
      ts := newTs.value;
      var updates := Index(body, "updates");
      if updates.Err? {
        return url, Err(updates.error);
      }
      r := DecodeUpdates(updates.value);
    }

    /**
     * `send_message`: the URL requested. `randomId` is the value
     * `random.randint(1, 2**32)` drew; `token` and `groupId` come from the
     * bot configuration.
     */
    method SendMessage(message: Message, token: string, groupId: int, randomId: int, c: Codec)
      returns (url: string)
      requires 1 <= randomId <= 0x1_0000_0000
      ensures url == SendUrl(message, token, groupId, randomId, c)
    {
      ApiPathJoinable();
      var params := new Dict(SendParams(message, token, groupId, randomId));
      url := BuildQuery(JStr(API_PATH), "messages.send", params, c);
    }
  }

  // ---------------------------------------------------------------------
  // A handshake followed by two polls

  /** The characters `quote_plus` never escapes. */
  predicate Unreserved(s: string) {
    forall k :: 0 <= k < |s| ==> ('a' <= s[k] <= 'z') || ('A' <= s[k] <= 'Z') || IsDigit(s[k]) || s[k] in "_.-~"
  }

  ghost predicate KeepsUnreserved(c: Codec) {
    forall s {:trigger Unreserved(s)} :: Unreserved(s) ==> c.quote(s) == s
  }

  lemma UrlEncodeCons(p: (string, Json), e: Entries, c: Codec)
    requires |e| >= 1
    ensures UrlEncode([p] + e, c) == EncodePair(p, c) + "&" + UrlEncode(e, c)
  {
    assert ([p] + e)[1..] == e;
  }

  lemma UrlEncode3(p0: (string, Json), p1: (string, Json), p2: (string, Json), c: Codec)
    ensures UrlEncode([p0, p1, p2], c) == EncodePair(p0, c) + "&" + EncodePair(p1, c) + "&" + EncodePair(p2, c)
  {
    UrlEncodeCons(p1, [p2], c);
    assert [p1, p2] == [p1] + [p2];
    UrlEncodeCons(p0, [p1, p2], c);
    assert [p0, p1, p2] == [p0] + [p1, p2];
  }

  lemma UrlEncode5(p0: (string, Json), p1: (string, Json), p2: (string, Json), p3: (string, Json), p4: (string, Json), c: Codec)
    ensures UrlEncode([p0, p1, p2, p3, p4], c)
         == EncodePair(p0, c) + "&" + EncodePair(p1, c) + "&" + EncodePair(p2, c) + "&" + EncodePair(p3, c) + "&" + EncodePair(p4, c)
  {
    UrlEncodeCons(p2, [p3, p4], c);
    assert [p2, p3, p4] == [p2] + [p3, p4];
    UrlEncodeCons(p1, [p2, p3, p4], c);
    assert [p1, p2, p3, p4] == [p1] + [p2, p3, p4];
    UrlEncodeCons(p0, [p1, p2, p3, p4], c);
    assert [p0, p1, p2, p3, p4] == [p0] + [p1, p2, p3, p4];
    UrlEncode3(p2, p3, p4, c);
  }

  /** How `quote_plus` and `str()` render the words of the handshake below. */
  lemma HandshakeWords(c: Codec)
    requires KeepsUnreserved(c)
    ensures c.quote("access_token") == "access_token" && c.quote("T") == "T"
    ensures c.quote("group_id") == "group_id" && c.quote("7") == "7"
    ensures c.quote("v") == "v" && c.quote("5.131") == "5.131"
    ensures Decimal(7) == "7"
  {
    assert Unreserved("access_token") && Unreserved("T");
    assert Unreserved("group_id") && Unreserved("7");
    assert Unreserved("v") && Unreserved("5.131");
  }

  /** How `quote_plus` and `str()` render the words of the polls below. */
  lemma PollWords(c: Codec)
    requires KeepsUnreserved(c)
    ensures c.quote("act") == "act" && c.quote("a_check") == "a_check"
    ensures c.quote("key") == "key" && c.quote("K") == "K" && c.quote("ts") == "ts"
    ensures c.quote("wait") == "wait" && c.quote("25") == "25"
    ensures c.quote("v") == "v" && c.quote("5.131") == "5.131"
    ensures Decimal(25) == "25"
  {
    assert Unreserved("act") && Unreserved("a_check");
    assert Unreserved("key") && Unreserved("K") && Unreserved("ts");
    assert Unreserved("wait") && Unreserved("25");
    assert Unreserved("v") && Unreserved("5.131");
    assert NatDigits(2) == "2";
  }

  lemma ScenarioHandshakeQuery(c: Codec)
    requires KeepsUnreserved(c)
    ensures UrlEncode(HandshakeParams("T", 7) + [("v", JStr(API_VERSION))], c) == "access_token=T&group_id=7&v=5.131"
  {
    var p0, p1, p2 := ("access_token", JStr("T")), ("group_id", JInt(7)), ("v", JStr("5.131"));
    assert HandshakeParams("T", 7) + [("v", JStr(API_VERSION))] == [p0, p1, p2];
    UrlEncode3(p0, p1, p2, c);
    HandshakeWords(c);
  }

  lemma ScenarioHandshakeUrl(c: Codec)
    requires KeepsUnreserved(c)
    ensures HandshakeUrl("T", 7, c)
         == API_PATH + "groups.getLongPollServer" + "?" + "access_token=T&group_id=7&v=5.131"
  {
    HandshakeRequest("T", 7, c);
    ScenarioHandshakeQuery(c);

  }

  lemma PollEntries(s: SessionState)
    ensures PollParams(s) + [("v", JStr(API_VERSION))]
         == [("act", JStr("a_check")), ("key", s.key), ("ts", s.ts), ("wait", JInt(25)), ("v", JStr("5.131"))]
  {
  }

  lemma ScenarioPollPairs(t: string, c: Codec)
    requires KeepsUnreserved(c) && Unreserved(t)
    ensures EncodePair(("act", JStr("a_check")), c) == "act=a_check"
    ensures EncodePair(("key", JStr("K")), c) == "key=K"
    ensures EncodePair(("ts", JStr(t)), c) == "ts=" + t
    ensures EncodePair(("wait", JInt(25)), c) == "wait=25"
    ensures EncodePair(("v", JStr("5.131")), c) == "v=5.131"
  {
    PollWords(c);
  }

  lemma ScenarioPollQuery(t: string, c: Codec)
    requires KeepsUnreserved(c) && Unreserved(t)
    ensures UrlEncode(PollParams(SessionState(JStr("K"), JStr("https://example/poll"), JStr(t))) + [("v", JStr(API_VERSION))], c)
         == "act=a_check&key=K&ts=" + t + "&wait=25&v=5.131"
  {
    PollEntries(SessionState(JStr("K"), JStr("https://example/poll"), JStr(t)));
    UrlEncode5(("act", JStr("a_check")), ("key", JStr("K")), ("ts", JStr(t)), ("wait", JInt(25)), ("v", JStr("5.131")), c);
    ScenarioPollPairs(t, c);
  }

  lemma ScenarioPollUrl(t: string, c: Codec)
    requires KeepsUnreserved(c) && Unreserved(t)
    ensures PollUrl(SessionState(JStr("K"), JStr("https://example/poll"), JStr(t)), c)
         == "https://example/poll?act=a_check&key=K&ts=" + t + "&wait=25&v=5.131"
  {
    PollRequest(SessionState(JStr("K"), JStr("https://example/poll"), JStr(t)), c);
    ScenarioPollQuery(t, c);
  }

  lemma ScenarioDecode(message: Json, obj: Json, update: Json)
    requires message == JObj(map["from_id" := JInt(1), "text" := JStr("hi"), "id" := JInt(9)])
    requires obj == JObj(map["message" := message])
    requires update == JObj(map["type" := JStr("message_new"), "object" := obj])
    ensures DecodeUpdates(JArr([update]))
         == Ok([Update(JStr("message_new"), UpdateObject(UpdateMessage(JInt(1), JStr("hi"), JInt(9))))])
  {
    assert Index(update, "type") == Ok(JStr("message_new"));
    assert Index(update, "object") == Ok(obj);
    assert Index(obj, "message") == Ok(message);
    assert Index(message, "from_id") == Ok(JInt(1));
    assert Index(message, "text") == Ok(JStr("hi"));
    assert Index(message, "id") == Ok(JInt(9));
    var u := Update(JStr("message_new"), UpdateObject(UpdateMessage(JInt(1), JStr("hi"), JInt(9))));
    assert Project(update) == Ok(u);
    assert [update][1..] == [];
    assert DecodeList([update]) == Ok([u] + []);
    assert [u] + [] == [u];
  }

  lemma ScenarioNegotiation(data: Json, negotiation: Json)
    requires data == JObj(map["key" := JStr("K"), "server" := JStr("https://example/poll"), "ts" := JStr("5")])
    requires negotiation == JObj(map["response" := data])
    ensures AfterHandshake(SessionState(JNull, JNull, JNull), negotiation)
         == (SessionState(JStr("K"), JStr("https://example/poll"), JStr("5")), Ok(()))
  {
    assert Index(negotiation, "response") == Ok(data);
    assert Index(data, "key") == Ok(JStr("K")) && Index(data, "server") == Ok(JStr("https://example/poll"));
    assert Index(data, "ts") == Ok(JStr("5"));
  }

  lemma ScenarioPollBody(s: SessionState, body: Json, ts: Json, updates: Json)
    requires body == JObj(map["ts" := ts, "updates" := updates])
    ensures AfterPoll(s, body) == (s.(ts := ts), DecodeUpdates(updates))
  {
    assert Index(body, "ts") == Ok(ts) && Index(body, "updates") == Ok(updates);
  }

  /**
   * The negotiated server, key and cursor drive the first poll; the cursor
   * of each poll response drives the next one; the one "message_new"
   * update of the first response is decoded with its fields. With an
   * escaper that leaves unreserved characters alone, ScenarioHandshakeUrl
   * and ScenarioPollUrl give these URLs as literal strings.
   */
  method Scenario(c: Codec) returns (handshake: string, first: string, events: Result<seq<Update>, PyError>, second: string)
    ensures handshake == HandshakeUrl("T", 7, c)
    ensures first == PollUrl(SessionState(JStr("K"), JStr("https://example/poll"), JStr("5")), c)
    ensures events == Ok([Update(JStr("message_new"), UpdateObject(UpdateMessage(JInt(1), JStr("hi"), JInt(9))))])
    ensures second == PollUrl(SessionState(JStr("K"), JStr("https://example/poll"), JStr("6")), c)
  {
    var acc := new VkApiAccessor();
    var data := JObj(map["key" := JStr("K"), "server" := JStr("https://example/poll"), "ts" := JStr("5")]);
    var negotiation := JObj(map["response" := data]);
    ScenarioNegotiation(data, negotiation);
    var ok;
    handshake, ok := acc.GetLongPollService("T", 7, negotiation, c);

    var message := JObj(map["from_id" := JInt(1), "text" := JStr("hi"), "id" := JInt(9)]);
    var obj := JObj(map["message" := message]);
    var update := JObj(map["type" := JStr("message_new"), "object" := obj]);
    ScenarioDecode(message, obj, update);
    var response := JObj(map["ts" := JStr("6"), "updates" := JArr([update])]);
    ScenarioPollBody(SessionState(JStr("K"), JStr("https://example/poll"), JStr("5")), response, JStr("6"), JArr([update]));
    first, events := acc.Poll(response, c);

    var empty := JObj(map["ts" := JStr("7"), "updates" := JArr([])]);
    ScenarioPollBody(SessionState(JStr("K"), JStr("https://example/poll"), JStr("6")), empty, JStr("7"), JArr([]));
    var none;
    second, none := acc.Poll(empty, c);
  }
}
