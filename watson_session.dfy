/** The session cache and what watsonUtils.ts does to it: `watsonMessage`,
    `watsonReset`, `watsonNewTopic`, `watsonStopConvo`, with the backend
    calls abstracted: each call's reply (or rejection) and each newly created
    session id (or the rejection of `createSession`) is a parameter, and the
    request a call sends is an output. */
module WatsonSession {
  import opened Wrappers
  import opened Dicts
  import opened Json
  import opened Assistant
  import opened Mishearing
  import opened CardUtils

  /** An opaque reference to the assistant client or the socket of a connection. */
  datatype Handle = Handle(ref: nat)

  /** The fields of one cache entry. A `sessionId` of None is `null`; a
      `userId` or `userDefined` of None is `undefined`. */
  datatype Entry = Entry(
    sessionId: Option<string>,
    userId: Option<Json>,
    userDefined: Option<Json>,
    assistant: Handle,
    ws: Handle,
    createdAt: int)

  /** `sessionCache[id]`: one connection's record, updated in place. */
  class Session {
    var sessionId: Option<string>
    var userId: Option<Json>
    var userDefined: Option<Json>
    var assistant: Handle
    var ws: Handle
    var createdAt: int

    function State(): Entry
      reads this
    {
      Entry(sessionId, userId, userDefined, assistant, ws, createdAt)
    }

    /** `sessionCache[id] = {}` followed by the four assignments of a new
        connection; `userId` and `user_defined` stay undefined. */
    constructor (id: string, assistant: Handle, ws: Handle, now: int)
      ensures State() == Entry(Some(id), None, None, assistant, ws, now)
    {
      this.sessionId := Some(id);
      this.userId := None;
      this.userDefined := None;
      this.assistant := assistant;
      this.ws := ws;
      this.createdAt := now;
    }
  }

  /** The module-level `sessionCache` object of server.ts. */
  class SessionCache {
    var entries: map<string, Session>

    /** Every connection has its own record. */
    ghost predicate Valid()
      reads this
    {
      forall a, b :: a in entries && b in entries && a != b ==> entries[a] != entries[b]
    }

    constructor ()
      ensures entries == map[] && Valid()
    {
      entries := map[];
    }

    /** The connection handler's cache-entry creation. */
    method Connect(id: string, assistant: Handle, ws: Handle, now: int) returns (s: Session)
      requires Valid()
      modifies this
      ensures Valid() && fresh(s)
      ensures entries == old(entries)[id := s]
      ensures s.State() == Entry(Some(id), None, None, assistant, ws, now)
    {
      s := new Session(id, assistant, ws, now);
      entries := entries[id := s];
    }
  }

  // ----- fnGetSpeechResponse -----

  /** The `conversationResponse` message; JSON.stringify of it is injective, so
      the value stands for the string sent. */
  datatype SpeechResponse = SpeechResponse(
    category: string,
    kind: string,
    name: string,
    transaction: Json,
    personaId: int,
    text: string,
    variables: Dict<Serialized>)

  /** `fnGetSpeechResponse(speakThis, variables, personaId)`. */
  function FnGetSpeechResponse(speakThis: string, variables: Dict<Serialized>, personaId: Option<Json>): (r: SpeechResponse)
    ensures r.personaId == 1
    ensures r.text == speakThis && r.variables == variables
    ensures r.category == "scene" && r.kind == "request" && r.name == "conversationResponse"
  {
    SpeechResponse("scene", "request", "conversationResponse", JNull, 1, speakThis, variables)
  }

  /** The persona argument makes no difference to the message. */
  lemma PersonaIgnored(speakThis: string, variables: Dict<Serialized>, a: Option<Json>, b: Option<Json>)
    ensures FnGetSpeechResponse(speakThis, variables, a) == FnGetSpeechResponse(speakThis, variables, b)
  {
  }

  /** What goes over the socket: a plain string or a serialized response. */
  datatype Payload = Text(s: string) | Speech(response: SpeechResponse)

  datatype HttpReply = HttpReply(status: nat, body: string)

  /** What an HTTP route does: the HTTP reply (None when the request is left
      unanswered), the socket sends in order, and the backend requests made. */
  datatype RouteOutcome = RouteOutcome(http: Option<HttpReply>, sends: seq<Payload>, calls: seq<Outbound>)

  const NoResponse := RouteOutcome(None, [], [])

  // ----- _resetContextVariables -----

  const ContextVariables: seq<string> := ["user-id"]

  function ResetFrom(acc: Dict<Json>, names: seq<string>): Dict<Json>
    decreases names
  {
    if names == [] then acc else ResetFrom(Put(acc, names[0], JNull), names[1..])
  }

  /** `_resetContextVariables(names)`: an object with every name set to null. */
  function ResetContextVariables(names: seq<string>): Dict<Json>
  {
    ResetFrom([], names)
  }

  lemma {:induction false} ResetFromGet(acc: Dict<Json>, names: seq<string>, k: string)
    ensures Get(ResetFrom(acc, names), k) == if k in names then Some(JNull) else Get(acc, k)
    decreases names
  {
    if names != [] {
      ResetFromGet(Put(acc, names[0], JNull), names[1..], k);
      assert k in names <==> k == names[0] || k in names[1..];
    }
  }

  /** Exactly the listed names are set, each to null. */
  lemma ResetContextVariablesGet(names: seq<string>, k: string)
    ensures Get(ResetContextVariables(names), k) == if k in names then Some(JNull) else None
  {
    ResetFromGet([], names, k);
  }

  lemma ResetContextVariablesValue()
    ensures ResetContextVariables(ContextVariables) == [("user-id", JNull)]
  {
    assert ContextVariables[1..] == [];
  }

  // ----- _sessionId and watsonMessage -----

  /** `_sessionId(cached)`: the cached id, or, when it is null, what
      `createSession` settles with: the new session's id, or its rejection,
      which `_sessionId` passes on. The new id is not written back to the cache. */
  function SessionIdFor(e: Entry, created: Result<string>): Result<string>
  {
    if e.sessionId.Some? then Ok(e.sessionId.value) else created
  }

  /** The request `watsonMessage` sends for the text `text` on the session `sid`. */
  function MessageCall(e: Entry, text: string, sid: string): (call: Outbound)
  {
    var langId := MemberOpt(e.userDefined, "lang_id");
    Outbound(sid, if TruthyOpt(e.userId) then e.userId.value else JStr(sid), Some(JStr(ReplaceMisheardWords(text))),
      Some(JObj(if langId.Some? then [("lang_id", langId.value)] else [])))
  }

  /** The request sent (None when the call never happened), the entry after
      the call, and the reply or the reason the call failed. */
  datatype MessageOutcome = MessageOutcome(call: Option<Outbound>, entry: Entry, reply: Result<Reply>)

  /** `watsonMessage(textQuery, entry)` when the backend answers `reply`.
      A text that is not a string has no `replace`, and a reply without a
      `main skill` has no `user_defined`: both throw a TypeError. */
  function MessageSpec(e: Entry, textQuery: Option<Json>, created: Result<string>, reply: Result<Reply>): MessageOutcome
  {
    match SessionIdFor(e, created)
    case Err(why) => MessageOutcome(None, e, Err(why))
    case Ok(sid) =>
      if !(textQuery.Some? && textQuery.value.JStr?) then MessageOutcome(None, e, Err("TypeError"))
      else
        var call := MessageCall(e, textQuery.value.s, sid);
        match reply
        case Err(why) => MessageOutcome(Some(call), e, reply)
        case Ok(r) =>
          if r.mainSkill.None? then MessageOutcome(Some(call), e, Err("TypeError"))
          else MessageOutcome(Some(call), e.(userDefined := r.mainSkill.value.userDefined), reply)
  }

  /** `watsonMessage`: the session id, the misheard-word pass, then the call,
      then the cached `user_defined` is overwritten with the reply's. */
  method WatsonMessage(s: Session, textQuery: Option<Json>, created: Result<string>, reply: Result<Reply>)
    returns (call: Option<Outbound>, res: Result<Reply>)
    modifies s
    ensures MessageOutcome(call, s.State(), res) == MessageSpec(old(s.State()), textQuery, created, reply)
  {
    var sessionId: string;
    if s.sessionId.Some? {
      sessionId := s.sessionId.value;
    } else if created.Err? {
      return None, Err(created.reason);
    } else {
      sessionId := created.value;
    }
    if !(textQuery.Some? && textQuery.value.JStr?) {
      return None, Err("TypeError");
    }
    var text := ReplaceMisheardWords(textQuery.value.s);
    var userId := if TruthyOpt(s.userId) then s.userId.value else JStr(sessionId);
    var langId := MemberOpt(s.userDefined, "lang_id");
    call := Some(Outbound(sessionId, userId, Some(JStr(text)),
      Some(JObj(if langId.Some? then [("lang_id", langId.value)] else []))));
    res := reply;
    if reply.Ok? {
      if reply.value.mainSkill.None? {
        res := Err("TypeError");
      } else {
        s.userDefined := reply.value.mainSkill.value.userDefined;
      }
    }
  }

  /** The call carries the cached user id when truthy, else the session id,
      and the cached `lang_id`; a successful reply replaces `user_defined` and
      nothing else. */
  lemma MessageEffects(e: Entry, text: string, created: Result<string>, reply: Result<Reply>)
    requires e.sessionId.Some? || created.Ok?
    ensures var o := MessageSpec(e, Some(JStr(text)), created, reply);
      o.call.Some?
      && o.call.value.sessionId == (if e.sessionId.Some? then e.sessionId.value else created.value)
      && o.call.value.userId == (if TruthyOpt(e.userId) then e.userId.value else JStr(o.call.value.sessionId))
      && o.call.value.text == Some(JStr(ReplaceMisheardWords(text)))
      && Member(o.call.value.userDefined.value, "lang_id") == MemberOpt(e.userDefined, "lang_id")
      && o.entry == (if o.reply.Ok? then e.(userDefined := reply.value.mainSkill.value.userDefined) else e)
      && (o.reply.Ok? <==> reply.Ok? && reply.value.mainSkill.Some?)
  {
  }

  /** A text query that is not a string ends the turn before any call. */
  lemma MessageNeedsString(e: Entry, textQuery: Option<Json>, created: Result<string>, reply: Result<Reply>)
    requires e.sessionId.Some? || created.Ok?
    requires !(textQuery.Some? && textQuery.value.JStr?)
    ensures MessageSpec(e, textQuery, created, reply) == MessageOutcome(None, e, Err("TypeError"))
  {
  }

  /** With no cached session id, a rejected `createSession` ends the turn
      before the text is looked at and before any call, whatever the reply. */
  lemma MessageCreationRejected(e: Entry, textQuery: Option<Json>, created: Result<string>, reply: Result<Reply>)
    requires e.sessionId.None? && created.Err?
    ensures MessageSpec(e, textQuery, created, reply) == MessageOutcome(None, e, Err(created.reason))
  {
  }

  // ----- watsonReset -----

  /** The request of `_watsonResetContextVariables(newId, text)`. */
  function ResetCall(newId: string, text: string): Outbound
  {
    Outbound(newId, JStr(newId), Some(JStr(text)), Some(JObj(ResetContextVariables(ContextVariables))))
  }

  datatype ResetOutcome = ResetOutcome(entry: Entry, out: RouteOutcome)

  /** `watsonReset(fn, ...)` on one entry. `newId` is what `createSession`
      settles with, `reply` answers the reset call and `deleted` says whether
      deleting the old session succeeded. */
  function ResetSpec(e: Entry, fn: Option<Json>, newId: Result<string>, reply: Result<Reply>, deleted: bool, id: string): ResetOutcome
  {
    if fn == Some(JStr("ResetID")) then
      if newId.Err? then ResetOutcome(e, NoResponse)
      else
        var call := ResetCall(newId.value, "");
        if reply.Err? || !deleted then ResetOutcome(e, RouteOutcome(None, [], [call]))
        else ResetOutcome(e.(sessionId := Some(newId.value), userId := Some(JNull)),
          RouteOutcome(Some(HttpReply(200, "Session ID set to null")), [Text("Session ID set to null")], [call]))
    else if fn == Some(JStr("ResetConvo")) then
      if newId.Err? then ResetOutcome(e, NoResponse)
      else
        var call := ResetCall(newId.value, "start over");
        if reply.Err? || !deleted then ResetOutcome(e, RouteOutcome(None, [], [call]))
        else
          var e' := e.(sessionId := Some(newId.value), userId := Some(JNull), userDefined := Some(JNull));
          var r := reply.value;
          var h := ContextSkills(r, [], id);
          if h.failed then ResetOutcome(e', RouteOutcome(None, [], [call]))
          else ResetOutcome(e', RouteOutcome(Some(HttpReply(200, "Restarting the conversation")),
            [Speech(FnGetSpeechResponse(Spoken(r.generic, ""), h.vars, None))], [call]))
    else
      ResetOutcome(e.(sessionId := None, userId := Some(JNull), userDefined := Some(JNull)),
        RouteOutcome(Some(HttpReply(200, "Session ID set to null")), [Text("Reset successful")], []))
  }

  /** `watsonReset` on the cache. A missing entry throws on its first line. */
  method WatsonReset(cache: SessionCache, fn: Option<Json>, id: string, newId: Result<string>, reply: Result<Reply>, deleted: bool)
    returns (out: RouteOutcome)
    requires cache.Valid()
    modifies if id in cache.entries then {cache.entries[id]} else {}
    ensures id !in cache.entries ==> out == NoResponse
    ensures id in cache.entries ==>
      var o := ResetSpec(old(cache.entries[id].State()), fn, newId, reply, deleted, id);
      cache.entries[id].State() == o.entry && out == o.out
    ensures forall k :: k in cache.entries && k != id ==> cache.entries[k].State() == old(cache.entries[k].State())
  {
    if id !in cache.entries {
      return NoResponse;
    }
    var s := cache.entries[id];
    if fn == Some(JStr("ResetID")) {
      if newId.Err? {
        return NoResponse;
      }
      var call := ResetCall(newId.value, "");
      if reply.Err? || !deleted {
        return RouteOutcome(None, [], [call]);
      }
      s.sessionId := Some(newId.value);
      s.userId := Some(JNull);
      out := RouteOutcome(Some(HttpReply(200, "Session ID set to null")), [Text("Session ID set to null")], [call]);
    } else if fn == Some(JStr("ResetConvo")) {
      if newId.Err? {
        return NoResponse;
      }
      var call := ResetCall(newId.value, "start over");
      if reply.Err? || !deleted {
        return RouteOutcome(None, [], [call]);
      }
      s.sessionId := Some(newId.value);
      s.userId := Some(JNull);
      s.userDefined := Some(JNull);
      var spoken := HandleSpokenReturn(reply.value, "");
      var variables := new Variables();
      var context, failed := HandleContextSkills(reply.value, variables, id);
      if failed {
        return RouteOutcome(None, [], [call]);
      }
      out := RouteOutcome(Some(HttpReply(200, "Restarting the conversation")),
        [Speech(FnGetSpeechResponse(spoken, variables.entries, None))], [call]);
    } else {
      s.sessionId := None;
      s.userId := Some(JNull);
      s.userDefined := Some(JNull);
      out := RouteOutcome(Some(HttpReply(200, "Session ID set to null")), [Text("Reset successful")], []);
    }
  }

  /** No branch touches the assistant, the socket or the creation time. */
  lemma ResetKeepsConnection(e: Entry, fn: Option<Json>, newId: Result<string>, reply: Result<Reply>, deleted: bool, id: string)
    ensures var e' := ResetSpec(e, fn, newId, reply, deleted, id).entry;
      e'.assistant == e.assistant && e'.ws == e.ws && e'.createdAt == e.createdAt
  {
  }

  /** `ResetID`: the new session id, a null user id, `user_defined` kept. */
  lemma ResetIdEffect(e: Entry, newId: string, r: Reply, id: string)
    ensures ResetSpec(e, Some(JStr("ResetID")), Ok(newId), Ok(r), true, id).entry ==
      Entry(Some(newId), Some(JNull), e.userDefined, e.assistant, e.ws, e.createdAt)
  {
  }

  /** `ResetConvo`: as `ResetID`, and `user_defined` nulled too, even when
      handling the reply then throws. */
  lemma ResetConvoEffect(e: Entry, newId: string, r: Reply, id: string)
    ensures ResetSpec(e, Some(JStr("ResetConvo")), Ok(newId), Ok(r), true, id).entry ==
      Entry(Some(newId), Some(JNull), Some(JNull), e.assistant, e.ws, e.createdAt)
  {
  }

  /** Any other `fn`: all three nulled, with no backend call. */
  lemma ResetOtherEffect(e: Entry, fn: Option<Json>, newId: Result<string>, reply: Result<Reply>, deleted: bool, id: string)
    requires fn != Some(JStr("ResetID")) && fn != Some(JStr("ResetConvo"))
    ensures ResetSpec(e, fn, newId, reply, deleted, id) ==
      ResetOutcome(Entry(None, Some(JNull), Some(JNull), e.assistant, e.ws, e.createdAt),
        RouteOutcome(Some(HttpReply(200, "Session ID set to null")), [Text("Reset successful")], []))
  {
  }

  /** A failed backend step leaves the entry as it was and answers nothing;
      the reset call is made exactly when `createSession` succeeded. */
  lemma ResetBackendFailure(e: Entry, fn: Option<Json>, newId: Result<string>, reply: Result<Reply>, deleted: bool, id: string)
    requires fn == Some(JStr("ResetID")) || fn == Some(JStr("ResetConvo"))
    requires newId.Err? || reply.Err? || !deleted
    ensures ResetSpec(e, fn, newId, reply, deleted, id).entry == e
    ensures ResetSpec(e, fn, newId, reply, deleted, id).out.http.None?
    ensures ResetSpec(e, fn, newId, reply, deleted, id).out.sends == []
    ensures ResetSpec(e, fn, newId, reply, deleted, id).out.calls ==
      if newId.Err? then [] else [ResetCall(newId.value, if fn == Some(JStr("ResetID")) then "" else "start over")]
  {
  }

  // ----- watsonNewTopic and watsonStopConvo -----

  /** `watsonNewTopic` on one entry, which it does not change. */
  function NewTopicSpec(e: Entry, created: Result<string>, reply: Result<Reply>, id: string): RouteOutcome
  {
    match SessionIdFor(e, created)
    case Err(_) => NoResponse
    case Ok(sid) =>
      var call := Outbound(sid, JStr(sid), Some(JBool(false)), None);
      if reply.Err? then RouteOutcome(None, [], [call])
      else
        var r := reply.value;
        var h := ContextSkills(r, [], id);
        if h.failed then RouteOutcome(None, [], [call])
        else RouteOutcome(Some(HttpReply(200, "New topic")),
          [Speech(FnGetSpeechResponse(Spoken(r.generic, ""), h.vars, None))], [call])
  }

  /** `watsonNewTopic`. */
  method WatsonNewTopic(s: Session, created: Result<string>, reply: Result<Reply>, id: string) returns (out: RouteOutcome)
    ensures out == NewTopicSpec(s.State(), created, reply, id)
  {
    var sessionId: string;
    if s.sessionId.Some? {
      sessionId := s.sessionId.value;
    } else if created.Err? {
      return NoResponse;
    } else {
      sessionId := created.value;
    }
    // `GREETER_TOPICS` is empty, so `GREETER_TOPICS.length > 0 && ...` is `false`.
    var textQuery := JBool(false);
    var call := Outbound(sessionId, JStr(sessionId), Some(textQuery), None);
    if reply.Err? {
      return RouteOutcome(None, [], [call]);
    }
    var spoken := HandleSpokenReturn(reply.value, "");
    var variables := new Variables();
    var context, failed := HandleContextSkills(reply.value, variables, id);
    if failed {
      return RouteOutcome(None, [], [call]);
    }
    out := RouteOutcome(Some(HttpReply(200, "New topic")),
      [Speech(FnGetSpeechResponse(spoken, variables.entries, None))], [call]);
  }

  /** `watsonNewTopic` answers "New topic" over HTTP exactly when it sends one
      socket message: the reply's spoken text with its cards, after the one
      call with the text `false`. A rejected `createSession` makes no call. */
  lemma NewTopicAnswers(e: Entry, created: Result<string>, reply: Result<Reply>, id: string)
    ensures var o := NewTopicSpec(e, created, reply, id);
      (o.http.Some? <==> |o.sends| == 1)
      && (o.http.Some? <==>
            SessionIdFor(e, created).Ok? && reply.Ok? && !ContextSkills(reply.value, [], id).failed)
      && (o.http.Some? ==>
            o.http.value == HttpReply(200, "New topic")
            && o.sends[0] == Speech(FnGetSpeechResponse(Spoken(reply.value.generic, ""), ContextSkills(reply.value, [], id).vars, None)))
      && |o.calls| == (if SessionIdFor(e, created).Ok? then 1 else 0)
      && (o.calls != [] ==>
            var sid := SessionIdFor(e, created).value;
            o.calls[0] == Outbound(sid, JStr(sid), Some(JBool(false)), None))
  {
  }

  /** The query `watsonStopConvo` sends. */
  function StopQuery(fn: Option<Json>): string
  {
    if fn == Some(JStr("StopConvo")) then "stop_convo_low_speed" else "What can you do?"
  }

  /** `watsonStopConvo` on one entry, which it does not change: a context-only
      call, then the query. */
  function StopConvoSpec(e: Entry, fn: Option<Json>, created: Result<string>, first: Result<Reply>, second: Result<Reply>, id: string): RouteOutcome
  {
    match SessionIdFor(e, created)
    case Err(_) => NoResponse
    case Ok(sid) =>
      var call1 := Outbound(sid, JStr(sid), None, None);
      var call2 := Outbound(sid, JStr(sid), Some(JStr(StopQuery(fn))), None);
      if first.Err? then RouteOutcome(None, [], [call1])
      else if second.Err? then RouteOutcome(None, [], [call1, call2])
      else
        var r := second.value;
        var h := ContextSkills(r, [], id);
        if h.failed then RouteOutcome(None, [], [call1, call2])
        else RouteOutcome(Some(HttpReply(200, "Stop Convo")),
          [Speech(FnGetSpeechResponse(Spoken(r.generic, ""), h.vars, None))], [call1, call2])
  }

  /** `watsonStopConvo`. */
  method WatsonStopConvo(s: Session, fn: Option<Json>, created: Result<string>, first: Result<Reply>, second: Result<Reply>, id: string)
    returns (out: RouteOutcome)
    ensures out == StopConvoSpec(s.State(), fn, created, first, second, id)
  {
    var sessionId: string;
    if s.sessionId.Some? {
      sessionId := s.sessionId.value;
    } else if created.Err? {
      return NoResponse;
    } else {
      sessionId := created.value;
    }
    var query := if fn == Some(JStr("StopConvo")) then "stop_convo_low_speed" else "What can you do?";
    var call1 := Outbound(sessionId, JStr(sessionId), None, None);
    if first.Err? {
      return RouteOutcome(None, [], [call1]);
    }
    var call2 := Outbound(sessionId, JStr(sessionId), Some(JStr(query)), None);
    if second.Err? {
      return RouteOutcome(None, [], [call1, call2]);
    }
    var spoken := HandleSpokenReturn(second.value, "");
    var variables := new Variables();
    var context, failed := HandleContextSkills(second.value, variables, id);
    if failed {
      return RouteOutcome(None, [], [call1, call2]);
    }
    out := RouteOutcome(Some(HttpReply(200, "Stop Convo")),
      [Speech(FnGetSpeechResponse(spoken, variables.entries, None))], [call1, call2]);
  }

  /** `watsonStopConvo` answers over HTTP exactly when it sends one socket
      message, and that message is the second reply's spoken text with its
      cards. A rejected `createSession` makes no call; otherwise the
      context-only call comes first and the query second. */
  lemma StopConvoAnswers(e: Entry, fn: Option<Json>, created: Result<string>, first: Result<Reply>, second: Result<Reply>, id: string)
    ensures var o := StopConvoSpec(e, fn, created, first, second, id);
      (o.http.Some? <==> |o.sends| == 1)
      && (o.http.Some? ==> SessionIdFor(e, created).Ok? && first.Ok? && second.Ok?)
      && (o.http.Some? ==>
            o.sends[0] == Speech(FnGetSpeechResponse(Spoken(second.value.generic, ""), ContextSkills(second.value, [], id).vars, None)))
      && |o.calls| == (if SessionIdFor(e, created).Err? then 0 else if first.Err? then 1 else 2)
      && (o.calls != [] ==> o.calls[0].text == None && o.calls[0].sessionId == SessionIdFor(e, created).value)
      && (|o.calls| == 2 ==> o.calls[1].text == Some(JStr(StopQuery(fn))))
  {
  }
}
