/** server.ts: the per-turn `conversationRequest` handler of a connection and
    the missing-id guards of the HTTP routes. The connection's cache entry is
    created by `SessionCache.Connect`. */
module Server {
  import opened Wrappers
  import opened Dicts
  import opened Json
  import opened JsStrings
  import opened Assistant
  import opened Pronunciation
  import opened Pacing
  import opened CardUtils
  import opened WatsonSession

  /** `ADD_DELAY_TO_NS_RESPONSE` and `WORDS_PER_MINUTE_DELAY`. */
  datatype Settings = Settings(addDelay: bool, wordsPerMinute: real)

  /** What a turn gets from outside: what `createSession` settles with each
      time `_sessionId` finds the cached id null (once per `watsonMessage`: a
      new id, or a rejection), the replies to the primary and the follow-up
      call, and the milliseconds from `apiStartTime`, taken on the
      custom-extension branch before the intermediate message is built and
      sent, to `now`, taken after the final message is built. */
  datatype TurnInputs = TurnInputs(
    created: Result<string>,
    createdAgain: Result<string>,
    primary: Result<Reply>,
    followUp: Result<Reply>,
    elapsedMs: int)

  /** The backend requests made, the socket messages in send order, the
      timeout after which the last one is sent when it is delayed, and
      whether the turn reached its final send. */
  datatype TurnOutput = TurnOutput(
    calls: seq<Outbound>,
    sends: seq<SpeechResponse>,
    timeout: Option<real>,
    completed: bool)

  datatype TurnResult = TurnResult(out: TurnOutput, entry: Entry)

  /** `messageObject?.kind === 'event' && messageObject?.name === 'conversationRequest'`. */
  predicate IsConversationRequest(m: Json)
  {
    Member(m, "kind") == Some(JStr("event")) && Member(m, "name") == Some(JStr("conversationRequest"))
  }

  /** `messageObject?.body?.input?.text`. */
  function TextQuery(m: Json): Option<Json>
  {
    MemberOpt(MemberOpt(Member(m, "body"), "input"), "text")
  }

  const Href: string := "href=\""

  /** `s.match(/href="([^"]*)/)`: the capture at the first match, if any. */
  function LinkIn(s: string): Option<string>
  {
    match IndexOfFrom(s, Href, 0)
    case None => None
    case Some(p) => Some(TakeUntil(s, p + |Href|, '"'))
  }

  /** The link is read at the first `href="` and runs to the next `"`. */
  lemma LinkAt(s: string, p: nat)
    requires OccursAt(s, Href, p)
    requires forall q :: 0 <= q < p ==> !OccursAt(s, Href, q)
    ensures p + |Href| <= |s|
    ensures LinkIn(s) == Some(TakeUntil(s, p + |Href|, '"'))
  {
  }

  lemma LinkAbsent(s: string)
    requires forall q :: 0 <= q ==> !OccursAt(s, Href, q)
    ensures LinkIn(s) == None
  {
  }

  /** The variables the final message starts from: the link card when the
      capture is non-empty. */
  function LinkVars(link: Option<string>, id: string): Dict<Serialized>
  {
    if link.Some? && link.value != "" then Put([], "public-neuralSeekLink", NeuralSeekLinkCard(link.value, id)) else []
  }

  const CustomExtensionPrefix: string := "@hideCards() @showCards(customExtensionCard) "

  /** `spokenReturn.split(' ').length`. */
  function WordCount(spoken: string): nat
  {
    |Split(spoken, ' ')|
  }

  /** The intermediate message of the custom-extension branch. */
  function Intermediate(spoken: string, id: string): SpeechResponse
  {
    FnGetSpeechResponse(Pronounce(CustomExtensionPrefix + spoken),
      Put([], "public-customExtensionCard", CustomExtensionCard("Generative AI", id)), None)
  }

  /** The part of a turn after the last backend reply `r`: spoken text, link
      card, context skills, then the final send, delayed or not. `ce` is the
      primary reply's `skip_user_input`; `len` the intermediate word count. */
  function FinalStep(r: Reply, ce: Option<Json>, len: Option<nat>, sent: seq<SpeechResponse>, calls: seq<Outbound>,
                     entry: Entry, id: string, elapsedMs: int, settings: Settings): TurnResult
    requires settings.addDelay ==> settings.wordsPerMinute != 0.0
  {
    var spoken := Spoken(r.generic, "");
    var h := ContextSkills(r, LinkVars(LinkIn(spoken), id), id);
    if h.failed then TurnResult(TurnOutput(calls, sent, None, false), entry)
    else
      var final := FnGetSpeechResponse(Pronounce(spoken), h.vars, Some(JNum(1.0)));
      var timeout :=
        if settings.addDelay && TruthyOpt(ce) && len.Some? then
          Some(PausePerWord(len.value, settings.wordsPerMinute) - elapsedMs as real)
        else None;
      TurnResult(TurnOutput(calls, sent + [final], timeout, true), entry)
  }

  /** The custom-extension branch after the primary reply `r`: the
      intermediate send, the follow-up call with the empty text, then the
      final step on the follow-up reply. */
  function CustomExtensionStep(r: Reply, calls: seq<Outbound>, entry: Entry, id: string, inp: TurnInputs,
                               settings: Settings): TurnResult
    requires settings.addDelay ==> settings.wordsPerMinute != 0.0
  {
    var spoken := Spoken(r.generic, "");
    var m2 := MessageSpec(entry, Some(JStr("")), inp.createdAgain, inp.followUp);
    var calls2 := calls + OptionToSeq(m2.call);
    if m2.reply.Err? then TurnResult(TurnOutput(calls2, [Intermediate(spoken, id)], None, false), m2.entry)
    else FinalStep(m2.reply.value, Some(JBool(true)), Some(WordCount(spoken)), [Intermediate(spoken, id)], calls2,
                   m2.entry, id, inp.elapsedMs, settings)
  }

  /** The follow-up request of the custom-extension branch: none when
      `_sessionId` rejects. */
  function FollowUpCalls(entry: Entry, inp: TurnInputs): seq<Outbound>
  {
    match SessionIdFor(entry, inp.createdAgain)
    case Ok(sid) => [MessageCall(entry, "", sid)]
    case Err(_) => []
  }

  /** One turn of the `ws.on('message')` handler on the connection's entry `e`. */
  function Turn(e: Entry, m: Json, id: string, inp: TurnInputs, settings: Settings): TurnResult
    requires settings.addDelay ==> settings.wordsPerMinute != 0.0
  {
    if !IsConversationRequest(m) then TurnResult(TurnOutput([], [], None, false), e)
    else
      var m1 := MessageSpec(e, TextQuery(m), inp.created, inp.primary);
      var calls := OptionToSeq(m1.call);
      if m1.reply.Err? then TurnResult(TurnOutput(calls, [], None, false), m1.entry)
      else
        var r := m1.reply.value;
        var ce := r.skipUserInput;
        if ce == Some(JBool(true)) then CustomExtensionStep(r, calls, m1.entry, id, inp, settings)
        else FinalStep(r, ce, None, [], calls, m1.entry, id, inp.elapsedMs, settings)
  }

  /** The custom-extension branch up to its send: the spoken text of the
      primary reply, its word count, and the intermediate message. */
  method IntermediateSend(r: Reply, id: string) returns (message: SpeechResponse, intermediateMessageLength: nat)
    ensures message == Intermediate(Spoken(r.generic, ""), id)
    ensures intermediateMessageLength == WordCount(Spoken(r.generic, ""))
  {
    var variables := new Variables();
    var spokenReturn := HandleSpokenReturn(r, "");
    intermediateMessageLength := |Split(spokenReturn, ' ')|;
    AddCustomExtensionCard("Generative AI", variables, id);
    spokenReturn := CustomExtensionPrefix + spokenReturn;
    var result := ReplaceForPronounce(spokenReturn);
    message := FnGetSpeechResponse(result, variables.entries, None);
  }

  /** The handler from the last reply on: link card, context skills, final send. */
  method FinalSend(r: Reply, customExtension: Option<Json>, intermediateMessageLength: Option<nat>,
                   sends: seq<SpeechResponse>, calls: seq<Outbound>, ghost entry: Entry, id: string,
                   elapsedMs: int, settings: Settings)
    returns (out: TurnOutput)
    requires settings.addDelay ==> settings.wordsPerMinute != 0.0
    ensures out == FinalStep(r, customExtension, intermediateMessageLength, sends, calls, entry, id, elapsedMs, settings).out
  {
    var variables := new Variables();
    var spokenReturn := HandleSpokenReturn(r, "");
    var linkInResponse := LinkIn(spokenReturn);
    if linkInResponse.Some? && linkInResponse.value != "" {
      AddNeuralSeekLinkCard(linkInResponse.value, variables, id);
    }
    var context, failed := HandleContextSkills(r, variables, id);
    if failed {
      return TurnOutput(calls, sends, None, false);
    }
    var result := ReplaceForPronounce(spokenReturn);
    var dataToSend := FnGetSpeechResponse(result, variables.entries, Some(JNum(1.0)));
    if settings.addDelay && TruthyOpt(customExtension) && intermediateMessageLength.Some? {
      var timeout := PausePerWord(intermediateMessageLength.value, settings.wordsPerMinute) - elapsedMs as real;
      out := TurnOutput(calls, sends + [dataToSend], Some(timeout), true);
    } else {
      out := TurnOutput(calls, sends + [dataToSend], None, true);
    }
  }

  /** The custom-extension branch of the handler, from the primary reply on. */
  method CustomExtensionTurn(s: Session, r: Reply, calls: seq<Outbound>, id: string, inp: TurnInputs, settings: Settings)
    returns (out: TurnOutput)
    requires settings.addDelay ==> settings.wordsPerMinute != 0.0
    modifies s
    ensures TurnResult(out, s.State()) == CustomExtensionStep(r, calls, old(s.State()), id, inp, settings)
  {
    var message, intermediateMessageLength := IntermediateSend(r, id);
    var call, messageRes := WatsonMessage(s, Some(JStr("")), inp.createdAgain, inp.followUp);
    var allCalls := calls + OptionToSeq(call);
    if messageRes.Err? {
      return TurnOutput(allCalls, [message], None, false);
    }
    out := FinalSend(messageRes.value, Some(JBool(true)), Some(intermediateMessageLength), [message], allCalls,
                     s.State(), id, inp.elapsedMs, settings);
  }

  /** The `ws.on('message')` handler: the backend is asked once, or twice on
      the custom-extension branch, and the sends are appended in order. */
  method ConversationRequest(s: Session, m: Json, id: string, inp: TurnInputs, settings: Settings)
    returns (out: TurnOutput)
    requires settings.addDelay ==> settings.wordsPerMinute != 0.0
    modifies s
    ensures TurnResult(out, s.State()) == Turn(old(s.State()), m, id, inp, settings)
  {
    if !IsConversationRequest(m) {
      return TurnOutput([], [], None, false);
    }
    var call, messageRes := WatsonMessage(s, TextQuery(m), inp.created, inp.primary);
    var calls := OptionToSeq(call);
    if messageRes.Err? {
      return TurnOutput(calls, [], None, false);
    }
    var customExtension := messageRes.value.skipUserInput;
    if customExtension == Some(JBool(true)) {
      out := CustomExtensionTurn(s, messageRes.value, calls, id, inp, settings);
    } else {
      out := FinalSend(messageRes.value, customExtension, None, [], calls, s.State(), id, inp.elapsedMs, settings);
    }
  }

  // ----- properties of a turn -----

  /** Only a `conversationRequest` event starts a turn: anything else sends
      nothing, calls nothing and leaves the entry alone. */
  lemma TurnTrigger(e: Entry, m: Json, id: string, inp: TurnInputs, settings: Settings)
    requires settings.addDelay ==> settings.wordsPerMinute != 0.0
    requires !IsConversationRequest(m)
    ensures Turn(e, m, id, inp, settings) == TurnResult(TurnOutput([], [], None, false), e)
  {
  }

  /** The primary call is made: the session id resolves and the text is a string. */
  predicate PrimaryAsked(e: Entry, m: Json, inp: TurnInputs)
  {
    SessionIdFor(e, inp.created).Ok? && TextQuery(m).Some? && TextQuery(m).value.JStr?
  }

  /** The primary call succeeds: it is made and the reply carries a `main skill`
      context. */
  predicate PrimaryAnswered(e: Entry, m: Json, inp: TurnInputs)
  {
    PrimaryAsked(e, m, inp) && inp.primary.Ok? && inp.primary.value.mainSkill.Some?
  }

  /** The primary reply's `skip_user_input`, when the primary call succeeds. */
  function PrimarySkip(e: Entry, m: Json, inp: TurnInputs): Option<Json>
  {
    if PrimaryAnswered(e, m, inp) then inp.primary.value.skipUserInput else None
  }

  /** A turn whose primary call fails sends nothing and stops; the call is
      made exactly when the session id resolves and the text is a string. */
  lemma TurnStopsEarly(e: Entry, m: Json, id: string, inp: TurnInputs, settings: Settings)
    requires settings.addDelay ==> settings.wordsPerMinute != 0.0
    requires IsConversationRequest(m) && !PrimaryAnswered(e, m, inp)
    ensures var o := Turn(e, m, id, inp, settings).out;
      o.sends == [] && !o.completed && o.timeout == None
      && |o.calls| == (if PrimaryAsked(e, m, inp) then 1 else 0)
  {
  }

  /** A turn whose primary reply `r` does not ask to skip user input: one call
      with the text `t` on the session `sid`, then the final step on `r`. */
  lemma TurnPlain(e: Entry, m: Json, id: string, inp: TurnInputs, settings: Settings, t: string, r: Reply, sid: string)
    requires settings.addDelay ==> settings.wordsPerMinute != 0.0
    requires SessionIdFor(e, inp.created) == Ok(sid)
    requires IsConversationRequest(m) && TextQuery(m) == Some(JStr(t)) && inp.primary == Ok(r) && r.mainSkill.Some?
    requires r.skipUserInput != Some(JBool(true))
    ensures Turn(e, m, id, inp, settings) ==
      FinalStep(r, r.skipUserInput, None, [], [MessageCall(e, t, sid)],
                e.(userDefined := r.mainSkill.value.userDefined), id, inp.elapsedMs, settings)
  {
  }

  /** A turn whose primary reply `r` asks to skip user input: one call with the
      text `t` on the session `sid`, then the custom-extension step. */
  lemma TurnCustom(e: Entry, m: Json, id: string, inp: TurnInputs, settings: Settings, t: string, r: Reply, sid: string)
    requires settings.addDelay ==> settings.wordsPerMinute != 0.0
    requires SessionIdFor(e, inp.created) == Ok(sid)
    requires IsConversationRequest(m) && TextQuery(m) == Some(JStr(t)) && inp.primary == Ok(r) && r.mainSkill.Some?
    requires r.skipUserInput == Some(JBool(true))
    ensures Turn(e, m, id, inp, settings) ==
      CustomExtensionStep(r, [MessageCall(e, t, sid)], e.(userDefined := r.mainSkill.value.userDefined),
                          id, inp, settings)
  {
  }

  /** The custom-extension step when the follow-up reply `r2` succeeds: the
      intermediate message is sent, the empty text is asked, and the final
      step runs on `r2` with the intermediate word count. */
  lemma CustomStepFollowUp(r: Reply, calls: seq<Outbound>, entry: Entry, id: string, inp: TurnInputs, settings: Settings,
                           r2: Reply, sid: string)
    requires settings.addDelay ==> settings.wordsPerMinute != 0.0
    requires SessionIdFor(entry, inp.createdAgain) == Ok(sid)
    requires inp.followUp == Ok(r2) && r2.mainSkill.Some?
    ensures var spoken := Spoken(r.generic, "");
      CustomExtensionStep(r, calls, entry, id, inp, settings) ==
        FinalStep(r2, Some(JBool(true)), Some(WordCount(spoken)), [Intermediate(spoken, id)],
                  calls + [MessageCall(entry, "", sid)],
                  entry.(userDefined := r2.mainSkill.value.userDefined), id, inp.elapsedMs, settings)
  {
  }

  /** The custom-extension step when the follow-up call fails, or is never
      made because `_sessionId` rejects: the intermediate message stays sent
      and the turn stops. */
  lemma CustomStepStops(r: Reply, calls: seq<Outbound>, entry: Entry, id: string, inp: TurnInputs, settings: Settings)
    requires settings.addDelay ==> settings.wordsPerMinute != 0.0
    requires !(SessionIdFor(entry, inp.createdAgain).Ok? && inp.followUp.Ok? && inp.followUp.value.mainSkill.Some?)
    ensures var res := CustomExtensionStep(r, calls, entry, id, inp, settings);
      res.out == TurnOutput(calls + FollowUpCalls(entry, inp), [Intermediate(Spoken(r.generic, ""), id)], None, false)
      && res.entry == entry
  {
  }

  /** A final step keeps the calls and the earlier sends; when it completes it
      adds exactly the final message, otherwise it sets no timeout. */
  lemma FinalStepShape(r: Reply, ce: Option<Json>, len: Option<nat>, sent: seq<SpeechResponse>, calls: seq<Outbound>,
                       entry: Entry, id: string, elapsedMs: int, settings: Settings)
    requires settings.addDelay ==> settings.wordsPerMinute != 0.0
    ensures var res := FinalStep(r, ce, len, sent, calls, entry, id, elapsedMs, settings);
      res.entry == entry && res.out.calls == calls
      && (res.out.completed ==> |res.out.sends| == |sent| + 1 && res.out.sends[..|sent|] == sent)
      && (!res.out.completed ==> res.out.sends == sent && res.out.timeout == None)
  {
    var res := FinalStep(r, ce, len, sent, calls, entry, id, elapsedMs, settings);
    if res.out.completed {
      assert (sent + [res.out.sends[|sent|]])[..|sent|] == sent;
    }
  }

  /** The custom-extension step sends the intermediate message first and asks
      the backend once more, unless `_sessionId` rejects; it ends with the
      final send when it completes. */
  lemma CustomStepShape(r: Reply, calls: seq<Outbound>, entry: Entry, id: string, inp: TurnInputs, settings: Settings)
    requires settings.addDelay ==> settings.wordsPerMinute != 0.0
    ensures var o := CustomExtensionStep(r, calls, entry, id, inp, settings).out;
      o.calls == calls + FollowUpCalls(entry, inp)
      && |o.sends| == (if o.completed then 2 else 1) && o.sends[0] == Intermediate(Spoken(r.generic, ""), id)
  {
    if SessionIdFor(entry, inp.createdAgain).Ok? && inp.followUp.Ok? && inp.followUp.value.mainSkill.Some? {
      var spoken := Spoken(r.generic, "");
      var sid := SessionIdFor(entry, inp.createdAgain).value;
      CustomStepFollowUp(r, calls, entry, id, inp, settings, inp.followUp.value, sid);
      FinalStepShape(inp.followUp.value, Some(JBool(true)), Some(WordCount(spoken)), [Intermediate(spoken, id)],
        calls + [MessageCall(entry, "", sid)],
        entry.(userDefined := inp.followUp.value.mainSkill.value.userDefined), id, inp.elapsedMs, settings);
    } else {
      CustomStepStops(r, calls, entry, id, inp, settings);
    }
  }

  /** At most one intermediate message and then one final message: two sends
      happen only on the custom-extension branch, and a completed turn ends
      with its final send. A turn that fails after the intermediate send keeps it. */
  lemma TurnSendOrder(e: Entry, m: Json, id: string, inp: TurnInputs, settings: Settings)
    requires settings.addDelay ==> settings.wordsPerMinute != 0.0
    ensures var o := Turn(e, m, id, inp, settings).out;
      |o.sends| <= 2
      && (o.completed ==> |o.sends| >= 1)
      && (|o.sends| == 2 ==> o.completed)
      && (|o.sends| == (if o.completed then 2 else 1) <==> IsConversationRequest(m) && PrimarySkip(e, m, inp) == Some(JBool(true)))
      && (o.timeout.Some? ==> o.completed)
  {
    if !IsConversationRequest(m) {
      TurnTrigger(e, m, id, inp, settings);
    } else if !PrimaryAnswered(e, m, inp) {
      TurnStopsEarly(e, m, id, inp, settings);
    } else {
      var t, r, sid := TextQuery(m).value.s, inp.primary.value, SessionIdFor(e, inp.created).value;
      var e1 := e.(userDefined := r.mainSkill.value.userDefined);
      var calls := [MessageCall(e, t, sid)];
      if r.skipUserInput != Some(JBool(true)) {
        TurnPlain(e, m, id, inp, settings, t, r, sid);
        FinalStepShape(r, r.skipUserInput, None, [], calls, e1, id, inp.elapsedMs, settings);
      } else {
        TurnCustom(e, m, id, inp, settings, t, r, sid);
        CustomStepShape(r, calls, e1, id, inp, settings);
        CustomStepDelay(r, calls, e1, id, inp, settings);
      }
    }
  }

  /** The custom-extension branch: the first send is the intermediate message
      of the primary reply's spoken text, and the backend is asked again, after
      the call with the text `t`, with the empty text; each call is on the
      session its own `_sessionId` resolves to. */
  lemma TurnIntermediate(e: Entry, m: Json, id: string, inp: TurnInputs, settings: Settings, t: string, r: Reply,
                         sid: string, sid2: string)
    requires settings.addDelay ==> settings.wordsPerMinute != 0.0
    requires SessionIdFor(e, inp.created) == Ok(sid) && SessionIdFor(e, inp.createdAgain) == Ok(sid2)
    requires IsConversationRequest(m) && TextQuery(m) == Some(JStr(t)) && inp.primary == Ok(r) && r.mainSkill.Some?
    requires r.skipUserInput == Some(JBool(true))
    ensures var o := Turn(e, m, id, inp, settings).out;
      |o.sends| >= 1 && o.sends[0] == Intermediate(Spoken(r.generic, ""), id)
      && o.calls == [MessageCall(e, t, sid), MessageCall(e.(userDefined := r.mainSkill.value.userDefined), "", sid2)]
  {
    var e1 := e.(userDefined := r.mainSkill.value.userDefined);
    TurnCustom(e, m, id, inp, settings, t, r, sid);
    CustomStepShape(r, [MessageCall(e, t, sid)], e1, id, inp, settings);
  }

  /** The intermediate message: the pronunciation pass of the prefixed spoken
      text, with only the custom-extension card as variables. */
  lemma IntermediateParts(spoken: string, id: string)
    ensures var i := Intermediate(spoken, id);
      i.text == Pronounce(CustomExtensionPrefix + spoken)
      && i.variables == [("public-customExtensionCard", CustomExtensionCard("Generative AI", id))]
      && i.personaId == 1
  {
    assert Put([], "public-customExtensionCard", CustomExtensionCard("Generative AI", id))
      == [("public-customExtensionCard", CustomExtensionCard("Generative AI", id))];
  }

  /** The timeout of a final step: set exactly when delays are on, the
      primary reply's `skip_user_input` is truthy and a word count was taken. */
  lemma FinalStepTimeout(r: Reply, ce: Option<Json>, len: Option<nat>, sent: seq<SpeechResponse>, calls: seq<Outbound>,
                         entry: Entry, id: string, elapsedMs: int, settings: Settings)
    requires settings.addDelay ==> settings.wordsPerMinute != 0.0
    ensures var o := FinalStep(r, ce, len, sent, calls, entry, id, elapsedMs, settings).out;
      (o.timeout.Some? <==> o.completed && settings.addDelay && TruthyOpt(ce) && len.Some?)
      && (o.timeout.Some? ==> o.timeout.value == PausePerWord(len.value, settings.wordsPerMinute) - elapsedMs as real)
  {
  }

  /** The custom-extension step's final send is delayed exactly when it
      completes with delays on, by the speaking time of the intermediate
      words less the time already spent. */
  lemma CustomStepDelay(r: Reply, calls: seq<Outbound>, entry: Entry, id: string, inp: TurnInputs, settings: Settings)
    requires settings.addDelay ==> settings.wordsPerMinute != 0.0
    ensures var o := CustomExtensionStep(r, calls, entry, id, inp, settings).out;
      (o.timeout.Some? <==> o.completed && settings.addDelay)
      && (o.timeout.Some? ==>
            o.timeout.value == PausePerWord(WordCount(Spoken(r.generic, "")), settings.wordsPerMinute) - inp.elapsedMs as real)
  {
    if SessionIdFor(entry, inp.createdAgain).Ok? && inp.followUp.Ok? && inp.followUp.value.mainSkill.Some? {
      var r2 := inp.followUp.value;
      var spoken := Spoken(r.generic, "");
      var sid := SessionIdFor(entry, inp.createdAgain).value;
      CustomStepFollowUp(r, calls, entry, id, inp, settings, r2, sid);
      FinalStepTimeout(r2, Some(JBool(true)), Some(WordCount(spoken)), [Intermediate(spoken, id)],
        calls + [MessageCall(entry, "", sid)],
        entry.(userDefined := r2.mainSkill.value.userDefined), id, inp.elapsedMs, settings);
    } else {
      CustomStepStops(r, calls, entry, id, inp, settings);
    }
  }

  /** A delayed send happens exactly when delays are on and the primary reply
      set `skip_user_input` to true; on that branch the timeout is the speaking
      time of the intermediate words less the time already spent. */
  lemma TurnDelay(e: Entry, m: Json, id: string, inp: TurnInputs, settings: Settings)
    requires settings.addDelay ==> settings.wordsPerMinute != 0.0
    ensures var o := Turn(e, m, id, inp, settings).out;
      (o.timeout.Some? <==> o.completed && settings.addDelay && IsConversationRequest(m) && PrimarySkip(e, m, inp) == Some(JBool(true)))
      && (o.timeout.Some? ==>
            o.timeout.value == PausePerWord(WordCount(Spoken(inp.primary.value.generic, "")), settings.wordsPerMinute) - inp.elapsedMs as real)
  {
    if !IsConversationRequest(m) {
      TurnTrigger(e, m, id, inp, settings);
    } else if !PrimaryAnswered(e, m, inp) {
      TurnStopsEarly(e, m, id, inp, settings);
    } else {
      var t, r, sid := TextQuery(m).value.s, inp.primary.value, SessionIdFor(e, inp.created).value;
      var e1 := e.(userDefined := r.mainSkill.value.userDefined);
      var calls := [MessageCall(e, t, sid)];
      if r.skipUserInput != Some(JBool(true)) {
        TurnPlain(e, m, id, inp, settings, t, r, sid);
        FinalStepTimeout(r, r.skipUserInput, None, [], calls, e1, id, inp.elapsedMs, settings);
      } else {
        TurnCustom(e, m, id, inp, settings, t, r, sid);
        CustomStepDelay(r, calls, e1, id, inp, settings);
      }
    }
  }

  /** The final message: personaId 1 and the pronunciation pass of the reply's
      spoken text. */
  lemma FinalStepText(r: Reply, ce: Option<Json>, len: Option<nat>, sent: seq<SpeechResponse>, calls: seq<Outbound>,
                      entry: Entry, id: string, elapsedMs: int, settings: Settings)
    requires settings.addDelay ==> settings.wordsPerMinute != 0.0
    requires FinalStep(r, ce, len, sent, calls, entry, id, elapsedMs, settings).out.completed
    ensures var o := FinalStep(r, ce, len, sent, calls, entry, id, elapsedMs, settings).out;
      |o.sends| == |sent| + 1 && o.sends[..|sent|] == sent
      && o.sends[|sent|].text == Pronounce(Spoken(r.generic, "")) && o.sends[|sent|].personaId == 1
  {
  }

  /** The link card is written before the context skills run, so an eligible
      context entry named `public-neuralSeekLink` overwrites it. */
  lemma FinalStepLink(r: Reply, ce: Option<Json>, len: Option<nat>, sent: seq<SpeechResponse>, calls: seq<Outbound>,
                      entry: Entry, id: string, elapsedMs: int, settings: Settings)
    requires settings.addDelay ==> settings.wordsPerMinute != 0.0
    requires FinalStep(r, ce, len, sent, calls, entry, id, elapsedMs, settings).out.completed
    ensures var o := FinalStep(r, ce, len, sent, calls, entry, id, elapsedMs, settings).out;
      var link := LinkIn(Spoken(r.generic, ""));
      |o.sends| > |sent| &&
      Get(o.sends[|sent|].variables, "public-neuralSeekLink") ==
        match LastNamed(ContextFields(r), "public-neuralSeekLink")
        case Some(i) => EntryCard(ContextFields(r)[i].1, id)
        case None => if link.Some? && link.value != "" then Some(NeuralSeekLinkCard(link.value, id)) else None
  {
    var spoken := Spoken(r.generic, "");
    ContextSkillsOther(r, LinkVars(LinkIn(spoken), id), id, "public-neuralSeekLink");
  }

  /** The intermediate word count includes the empty piece before the leading
      space: it is one more than the number of spaces. */
  lemma WordCountSpaces(items: seq<Item>)
    ensures WordCount(Spoken(items, "")) == Count(Spoken(items, ""), ' ') + 1
  {
    SplitCount(Spoken(items, ""), ' ');
  }

  /** Spoken text that is not empty starts with a space, so its first piece
      is empty. */
  lemma {:induction false} SpokenStartsWithSpace(items: seq<Item>)
    requires Pieces(items) != ""
    ensures Pieces(items)[0] == ' '
  {
    if Piece(items[0]) == "" {
      assert Pieces(items) == Pieces(items[1..]);
      SpokenStartsWithSpace(items[1..]);
    } else {
      assert Pieces(items)[0] == Piece(items[0])[0];
    }
  }

  lemma LeadingEmptyPiece(items: seq<Item>)
    requires Spoken(items, "") != ""
    ensures Split(Spoken(items, ""), ' ')[0] == ""
  {
    SpokenIsPrefixed(items, "");
    var s := Spoken(items, "");
    assert s == Pieces(items);
    SpokenStartsWithSpace(items);
    assert IndexOf(s, ' ') == Some(0);
  }

  // ----- the HTTP routes -----

  /** `/reset`: nothing when `id` is falsy; otherwise `watsonReset`. A
      non-string id names no entry. */
  method ResetRoute(cache: SessionCache, fn: Option<Json>, id: Option<Json>, newId: Result<string>, reply: Result<Reply>, deleted: bool)
    returns (out: RouteOutcome)
    requires cache.Valid()
    modifies cache.entries.Values
    ensures !TruthyOpt(id) ==> out == NoResponse
    ensures !(TruthyOpt(id) && id.value.JStr? && id.value.s in cache.entries) ==>
      out == NoResponse && forall k :: k in cache.entries ==> cache.entries[k].State() == old(cache.entries[k].State())
    ensures TruthyOpt(id) && id.value.JStr? && id.value.s in cache.entries ==>
      var o := ResetSpec(old(cache.entries[id.value.s].State()), fn, newId, reply, deleted, id.value.s);
      cache.entries[id.value.s].State() == o.entry && out == o.out
    ensures forall k :: k in cache.entries && !(id.Some? && id.value == JStr(k)) ==>
      cache.entries[k].State() == old(cache.entries[k].State())
  {
    if !TruthyOpt(id) || !id.value.JStr? {
      return NoResponse;
    }
    out := WatsonReset(cache, fn, id.value.s, newId, reply, deleted);
  }

  /** `/newTopic`: nothing when `id` is falsy; otherwise `watsonNewTopic`. */
  method NewTopicRoute(cache: SessionCache, id: Option<Json>, created: Result<string>, reply: Result<Reply>)
    returns (out: RouteOutcome)
    ensures !(TruthyOpt(id) && id.value.JStr? && id.value.s in cache.entries) ==> out == NoResponse
    ensures TruthyOpt(id) && id.value.JStr? && id.value.s in cache.entries ==>
      out == NewTopicSpec(cache.entries[id.value.s].State(), created, reply, id.value.s)
  {
    if !TruthyOpt(id) || !id.value.JStr? || id.value.s !in cache.entries {
      return NoResponse;
    }
    out := WatsonNewTopic(cache.entries[id.value.s], created, reply, id.value.s);
  }

  const ServerError := HttpReply(500, "Server error")

  /** `/lowspeed`: nothing when `id` is falsy; otherwise `watsonStopConvo`,
      with any failure answered by a 500. */
  method LowSpeedRoute(cache: SessionCache, fn: Option<Json>, id: Option<Json>, created: Result<string>,
                       first: Result<Reply>, second: Result<Reply>)
    returns (out: RouteOutcome)
    ensures !TruthyOpt(id) ==> out == NoResponse
    ensures TruthyOpt(id) && !(id.value.JStr? && id.value.s in cache.entries) ==> out == RouteOutcome(Some(ServerError), [], [])
    ensures TruthyOpt(id) && id.value.JStr? && id.value.s in cache.entries ==>
      var o := StopConvoSpec(cache.entries[id.value.s].State(), fn, created, first, second, id.value.s);
      out == if o.http.Some? then o else o.(http := Some(ServerError))
    ensures TruthyOpt(id) ==> out.http.Some?
  {
    if !TruthyOpt(id) {
      return NoResponse;
    }
    if !id.value.JStr? || id.value.s !in cache.entries {
      return RouteOutcome(Some(ServerError), [], []);
    }
    out := WatsonStopConvo(cache.entries[id.value.s], fn, created, first, second, id.value.s);
    if out.http.None? {
      out := out.(http := Some(ServerError));
    }
  }
}
