# Avatar orchestration server: text pipeline, cards and turns

A model of the core of an orchestration server that sits between a digital-human
front end and a Watson Assistant backend: it rewrites misheard words in what the user
said, asks the backend, turns the reply into spoken text, adds card directives to a
`variables` dictionary, runs a pronunciation pass over the text and sends the result
back over the socket, possibly delayed.

The modules follow the source:

| module | what it holds |
|---|---|
| `Wrappers`, `Dicts`, `Json` | Option/Result; a JavaScript object as an insertion-ordered list of keys and values; the JSON values the server reads, with the JavaScript truthiness test. `Serialized` is `JSON.stringify` taken as an injective constructor. |
| `JsStrings` | `indexOf`, `replace` with a string pattern (first occurrence only), `split`, and substring search. |
| `JsRegex` | the two regular expressions, written as explicit left-to-right scans: `\b` is a change of `[A-Za-z0-9_]` status, the `i` flag lower-cases ASCII letters on both sides, and alternatives are tried in declaration order at each position. |
| `Mishearing`, `Pronunciation`, `Pacing` | `_replaceMisheardWords`, `replaceForPronounce` with its ordered rule list, and `pausePerWord` (watsonUtils.ts). |
| `Assistant` | the parts of a backend reply that are read, and the request sent for one message. |
| `CardUtils` | every handler of cardUtils.ts. `variables` is a class whose methods assign keys in place; each handler is a method proved against a function on the dictionary. |
| `WatsonSession` | the session cache (`Session` and `SessionCache` classes) and `watsonMessage`, `watsonReset`, `watsonNewTopic`, `watsonStopConvo`, `fnGetSpeechResponse`, `_resetContextVariables`. |
| `Server` | the `conversationRequest` turn of server.ts (a function `Turn` and the imperative handler proved equal to it), the cache-entry creation, and the three HTTP routes. |

Backend calls are abstracted. Each reply, or each rejection (`Err`), is a parameter.
So is what each `createSession` settles with: a new session id, or a rejection, which
ends the operation before any backend request. Whether deleting a session succeeded is
a parameter too. The requests the
server sends are outputs (`Outbound`), as are socket sends and HTTP answers.

A thrown exception is a failure value: `Err("TypeError")` from `watsonMessage`, or
`failed` from `handleContextSkills`. A failure ends the turn or the route with no
further socket send. The socket handler catches the exception with `try`/`catch`.
`/lowspeed` answers it with a 500. In `/reset` and `/newTopic` the failure is an
unhandled rejection of the route handler, so the HTTP request is never answered
(`http` is None).

The pronunciation pass keeps a period at the very end of the text, because the
lookahead `(?!\s|$)` excludes end of string: "Learn about watsonx." becomes
"Learn about @pronounce(watsonx, Watson X)." (`Pronunciation.PronounceExample`).

## Model

| member | source | states |
|---|---|---|
| Dicts.Put | src/cardUtils.ts:38 | assigning `obj[k] = v` makes `k` read `v` and leaves every other key's value alone |
| Dicts.PutKeyList | src/cardUtils.ts:68 | an assigned key keeps its place in `Object.keys` order if present and goes last if new |
| Dicts.PutKeys | src/cardUtils.ts:87 | after an assignment the keys are the old keys plus `k`: no handler removes a key |
| Dicts.PutAbsent | src/cardUtils.ts:87 | assigning a key the object lacks appends it after all existing keys |
| Dicts.GetDefinedIff | src/cardUtils.ts:58 | `obj[k]` is defined exactly when `k` is among the own keys |
| Dicts.Delete | src/cardUtils.ts:62-64 | a `cardId` of `undefined` is absent from the serialized object; other keys unchanged |
| JsStrings.ReplaceFirst | src/cardUtils.ts:67 | `replace('_', '-')` changes only the first `_`, or nothing when there is none |
| JsStrings.Split | src/server.ts:104 | `split(' ')` gives at least one piece and no piece holds a space |
| JsStrings.SplitCount | src/server.ts:104 | the number of pieces of `split(c)` is the number of `c` plus one |
| JsStrings.SplitJoin | src/cardUtils.ts:117 | joining the pieces of `split(c)` with `c` gives back the string |
| JsStrings.CountAppend | src/server.ts:104 | occurrences of a character in a concatenation add up |
| JsStrings.IndexOfFrom | src/server.ts:123 | the first occurrence of the pattern at or after a position, and none earlier |
| JsStrings.TakeUntil | src/server.ts:123 | the capture `[^"]*`: the longest run without `"` from a position |
| JsRegex.FoldsAtIff | src/watsonUtils.ts:330 | a case-insensitive match is letter-by-letter equality after ASCII lower-casing |
| JsRegex.FirstAlternative | src/watsonUtils.ts:330 | the chosen alternative matches as a whole word at the position |
| JsRegex.FirstAlternativeSpec | src/watsonUtils.ts:330 | no alternative declared earlier matches there; no match when none does |
| JsRegex.ReplaceUnchanged | src/watsonUtils.ts:335-337 | text with no whole-word occurrence of any alternative is returned unchanged |
| JsRegex.ReplaceFirstOccurrence | src/watsonUtils.ts:335-337 | the text before the first match is copied, the match is substituted, and the scan resumes after it |
| JsRegex.ReplaceSkip | src/watsonUtils.ts:335-337 | positions where no alternative matches are copied unchanged |
| JsRegex.ReplaceNextOccurrence | src/watsonUtils.ts:335-337 | from any position the scan reaches, the text up to the next match is copied, that match is substituted and the scan resumes after it: every occurrence reached is replaced |
| JsRegex.NoMatchInsideWord | src/watsonUtils.ts:330 | no alternative starting with a word character matches after a word character |
| Mishearing.MisheardWordsValue | src/watsonUtils.ts:307-327 | `_wordsToReplace` is the flattened `expansions` in declaration order |
| Mishearing.ReplacementsValue | src/watsonUtils.ts:318-323 | the written-out `_replacements` table agrees with the reduce over `expansions` on every word |
| Mishearing.ReplacementsGetAny | src/watsonUtils.ts:318-323 | each misheard form maps to its expansion key and nothing else is mapped |
| Mishearing.ReplacementsLookup | src/watsonUtils.ts:318-327 | every form in `_wordsToReplace` is lower case and maps to the key it was listed under |
| Mishearing.MisheardSubstitution | src/watsonUtils.ts:335-337 | a matched form, in any casing, is replaced by its lowercase canonical key |
| Mishearing.MisheardFirstOccurrence | src/watsonUtils.ts:334-339 | `_replaceMisheardWords` copies the text up to the first match and puts the canonical key there |
| Mishearing.MisheardCopied | src/watsonUtils.ts:334-339 | text with no misheard form starting anywhere comes back unchanged |
| Mishearing.NoMisheardAt | src/watsonUtils.ts:330 | inside a word, or at a character other than `t`/`w` in any case, no form can start |
| Mishearing.MisheardEmbeddedExample | src/watsonUtils.ts:330 | a form embedded in a longer word ("tristan") is left alone |
| Mishearing.LongerFormShadowed | src/watsonUtils.ts:309-330 | "watson x dot ai" is never the alternative chosen, because "watson x" precedes it |
| Mishearing.LongFormHasShortForm | src/watsonUtils.ts:309-330 | wherever "watson x dot ai" is a whole word, "watson x" is one too |
| Mishearing.WatsonXChosen | src/watsonUtils.ts:309-330 | wherever "watson x" matches as a whole word, it is the alternative chosen |
| Mishearing.MisheardCaseExample | src/watsonUtils.ts:334-339 | "Watson X" becomes "watsonx" |
| Mishearing.MisheardOverlapExample | src/watsonUtils.ts:307-339 | "watson x dot ai" becomes "watsonx dot ai" |
| Pronunciation.PronounceReplacementList | src/watsonUtils.ts:346-357 | one token rule per table entry in order, then the period rule, then the quote rule |
| Pronunciation.PronounceRulesValue | src/watsonUtils.ts:342-357 | the rule list is `[watsonx -> @pronounce(watsonx, Watson X), period, quote]` |
| Pronunciation.PeriodPass | src/watsonUtils.ts:353 | same length; a character changes, to a space, exactly when it is a `.` not after a word character and `.`, and not before white space or the end |
| Pronunciation.PeriodOnlyAtEnd | src/watsonUtils.ts:353 | a text whose only period is its last character is left alone by the period rule |
| Pronunciation.StripQuotes | src/watsonUtils.ts:357 | no `"` is left, and exactly the `"` characters are removed |
| Pronunciation.StripQuotesAppend | src/watsonUtils.ts:357 | quote stripping works piecewise, so the other characters keep their order |
| Pronunciation.PronounceOrder | src/watsonUtils.ts:361-367 | the pass is the token rule, then the period rule, then the quote rule, each on the previous result |
| Pronunciation.ReplaceForPronounce | src/watsonUtils.ts:361-367 | the loop over the rule list computes that composition, and its result has no `"` |
| Pronunciation.PronounceNoQuotes | src/watsonUtils.ts:357-367 | the text sent to the avatar never holds a `"` |
| Pronunciation.PronounceCleanToken | src/watsonUtils.ts:361-367 | when the token rule leaves nothing for the period and quote rules, its result is final |
| Pronunciation.PronounceFirstToken | src/watsonUtils.ts:346-367 | the first whole-word "watsonx", in any casing, becomes exactly the table's directive |
| Pronunciation.PronounceExample | src/watsonUtils.ts:342-367 | "Learn about watsonx." becomes "Learn about @pronounce(watsonx, Watson X)." |
| Pacing.PausePerWordRate | src/watsonUtils.ts:370-373 | the pause times the rate is 60000 ms per word |
| Pacing.PausePerWordExample | src/watsonUtils.ts:370-373 | 5 words at 150 per minute take 2000 ms |
| Pacing.PausePerWordLinear | src/watsonUtils.ts:370-373 | the pause is additive in the word count |
| Pacing.PausePerWordMonotone | src/watsonUtils.ts:370-373 | at a positive rate, more words never give a shorter pause |
| CardUtils.HandleSpokenReturn | src/cardUtils.ts:42-53 | the loop returns `s` followed by `' ' + text` per text item and `' ' + header` per search item, in order |
| CardUtils.SpokenAppend | src/cardUtils.ts:44-51 | the fold over two runs of items is the fold of the second onto the first's result |
| CardUtils.SpokenSkipsOthers | src/cardUtils.ts:44-51 | items of any other type add nothing |
| CardUtils.SpokenIsPrefixed | src/cardUtils.ts:42-53 | the result is the starting text followed by the pieces of all items |
| CardUtils.PublicPrefixIff | src/cardUtils.ts:116-120 | a key passes exactly when it is "public" or starts with "public-" or "public_" |
| CardUtils.PublicPrefixExamples | src/cardUtils.ts:116-120 | "public", "public_x" and "public-x" pass; "publicx" and "_public" fail |
| CardUtils.SelectContext | src/cardUtils.ts:2-8 | the actions skill's `skill_variables` when truthy, else the main skill's `user_defined` |
| CardUtils.SelectContextTruthy | src/cardUtils.ts:8 | a context is selected exactly when either candidate is truthy |
| CardUtils.SetBrowserId | src/cardUtils.ts:32-40 | `public-browserIdSet` is written exactly when the context and its `browserIdSet` are truthy |
| CardUtils.AnnotateObject | src/cardUtils.ts:60-64 | an object `data` gains `id` and a `cardId` from `id` if truthy else `type`; the other fields are unchanged |
| CardUtils.AnnotateFails | src/cardUtils.ts:60 | assigning to a primitive `data` throws a TypeError in strict mode |
| CardUtils.ContextCardsGet | src/cardUtils.ts:55-71 | each renamed key holds the card of the last eligible entry with that name; other keys are unchanged |
| CardUtils.ContextCardsFailIff | src/cardUtils.ts:58-64 | the handler throws exactly when some eligible entry's `data` is a primitive |
| CardUtils.ContextCardsFields | src/cardUtils.ts:60-64 | the context object is mutated in place: exactly the eligible entries are annotated |
| CardUtils.ContextCardsKeeps | src/cardUtils.ts:58-70 | no key of `variables` is removed |
| CardUtils.AddCardIfVariableFound | src/cardUtils.ts:55-71 | the loop over the keys computes `ContextCards` on the dictionary and the context it returns |
| CardUtils.LastSearch | src/cardUtils.ts:78-89 | the index of the last search item, or none |
| CardUtils.SearchCardsLast | src/cardUtils.ts:73-90 | `public-search` holds the card of the last search item, `primary_results` or `[]`; unchanged with no search item |
| CardUtils.SearchCardsOther | src/cardUtils.ts:87 | the search handler writes no other key |
| CardUtils.SearchCardsNoSearch | src/cardUtils.ts:78-89 | with no search item `variables` is unchanged |
| CardUtils.AddCardActionForSearch | src/cardUtils.ts:73-90 | the loop computes `SearchCards` on the dictionary |
| CardUtils.AddCustomExtensionCard | src/cardUtils.ts:92-102 | `public-customExtensionCard` is assigned the custom-extension card; nothing else changes |
| CardUtils.AddNeuralSeekLinkCard | src/cardUtils.ts:104-114 | `public-neuralSeekLink` is assigned the link card; nothing else changes |
| CardUtils.Variables.Set | src/cardUtils.ts:38 | `variables[k] = v` updates the dictionary as `Put` |
| CardUtils.HandleContextSkills | src/cardUtils.ts:1-18 | browser id, then context cards, then search card, as `ContextSkills` |
| CardUtils.ContextSkillsUnchanged | src/cardUtils.ts:1-90 | with no context selected and no search item, `variables` is left unchanged |
| CardUtils.ContextSkillsKeeps | src/cardUtils.ts:1-18 | `handleContextSkills` removes no key |
| CardUtils.ContextSkillsBrowserId | src/cardUtils.ts:10-40 | the browser-id card is written first, so an eligible context entry of that name overwrites it |
| CardUtils.ContextSkillsOther | src/cardUtils.ts:1-71 | any other key (not public-search or public-browserIdSet) holds the last matching context card, else its old value |
| WatsonSession.SessionCache.Connect | src/server.ts:64-69 | the new entry has `sessionId = id`, the assistant, the socket and the creation time; other entries are unchanged |
| WatsonSession.FnGetSpeechResponse | src/watsonUtils.ts:239-260 | a `conversationResponse` with personaId 1, the given text and variables |
| WatsonSession.PersonaIgnored | src/watsonUtils.ts:244-252 | the persona argument makes no difference |
| WatsonSession.ResetContextVariablesGet | src/watsonUtils.ts:299-304 | exactly the listed names are present, each null |
| WatsonSession.ResetContextVariablesValue | src/watsonUtils.ts:299-304 | the reset context is `{"user-id": null}` |
| WatsonSession.WatsonMessage | src/watsonUtils.ts:200-237 | the method computes `MessageSpec`: no request when `createSession` rejects or the text is not a string; otherwise the request sent and the new `user_defined` |
| WatsonSession.MessageEffects | src/watsonUtils.ts:201-232 | when the session id resolves (the cached one, else the created one), the cached `userId` is sent if truthy, else the session id; the text goes through the mishearing pass; the cached `lang_id` is sent; only `user_defined` changes, and only on success |
| WatsonSession.MessageNeedsString | src/watsonUtils.ts:206 | once the session id resolves, a text that is not a string throws before any call |
| WatsonSession.MessageCreationRejected | src/watsonUtils.ts:201-204 | with no cached session id, a rejected `createSession` passes its rejection on before any call and leaves the entry alone |
| WatsonSession.WatsonReset | src/watsonUtils.ts:143-198 | the entry and the answers follow `ResetSpec`, in which a rejected `createSession` makes no reset call; a missing entry answers nothing; other entries are untouched |
| WatsonSession.ResetKeepsConnection | src/watsonUtils.ts:143-198 | no branch touches the assistant, the socket or the creation time |
| WatsonSession.ResetIdEffect | src/watsonUtils.ts:149-162 | `ResetID`: new session id, null user id, `user_defined` kept |
| WatsonSession.ResetConvoEffect | src/watsonUtils.ts:163-176 | `ResetConvo`: new session id, null user id and null `user_defined` |
| WatsonSession.ResetOtherEffect | src/watsonUtils.ts:186-197 | any other `fn`: all three nulled, answered "Session ID set to null" and "Reset successful", no call |
| WatsonSession.ResetBackendFailure | src/watsonUtils.ts:149-185 | a rejected `createSession`, a failed reset call or a failed session deletion changes nothing and answers nothing; the reset call is made exactly when `createSession` succeeded |
| WatsonSession.WatsonNewTopic | src/watsonUtils.ts:65-97 | the method computes `NewTopicSpec`: nothing when `createSession` rejects, else a call with text `false` and the spoken reply with its cards |
| WatsonSession.NewTopicAnswers | src/watsonUtils.ts:65-97 | it answers "New topic" exactly when it sends one message, which happens exactly when the session id resolves, the call succeeds and the cards do not throw; one call with text `false` exactly when the session id resolves |
| WatsonSession.WatsonStopConvo | src/watsonUtils.ts:99-141 | the method computes `StopConvoSpec`: nothing when `createSession` rejects, else a context-only call, then the query |
| WatsonSession.StopConvoAnswers | src/watsonUtils.ts:99-141 | it answers exactly when it sends one message, only after both calls succeed; no call when `createSession` rejects, else the context-only call and then the query, "stop_convo_low_speed" for `StopConvo`, else "What can you do?" |
| Server.LinkAt | src/server.ts:123-125 | the link is read at the first `href="` and runs to the next `"` |
| Server.LinkAbsent | src/server.ts:123-125 | with no `href="` there is no link |
| Server.ConversationRequest | src/server.ts:76-173 | the handler's new entry and outputs are those of `Turn`, including a rejected session creation that makes no call |
| Server.CustomExtensionTurn | src/server.ts:99-166 | the custom-extension branch of the handler computes `CustomExtensionStep` |
| Server.IntermediateSend | src/server.ts:103-112 | the word count is taken before the prefix; the message is the intermediate message |
| Server.FinalSend | src/server.ts:119-166 | link card, context skills and final send compute `FinalStep` |
| Server.TurnTrigger | src/server.ts:77-81 | only a `conversationRequest` event starts a turn |
| Server.TurnStopsEarly | src/server.ts:93-171 | a failed primary call sends nothing; the call is made exactly when the session id resolves and the text is a string |
| Server.TurnPlain | src/server.ts:93-166 | without `skip_user_input === true`: one call, then the final step on the primary reply |
| Server.TurnCustom | src/server.ts:93-117 | with `skip_user_input === true`: one call, then the custom-extension step |
| Server.CustomStepFollowUp | src/server.ts:103-119 | the follow-up asks with the empty text; the final step runs on its reply with spoken text and variables reset |
| Server.CustomStepStops | src/server.ts:113-171 | a failed follow-up, or one never asked because session creation rejected, keeps the intermediate send and stops |
| Server.FinalStepShape | src/server.ts:127-166 | the final step keeps the entry, the calls and the earlier sends; it adds exactly one message when it completes and sets no timeout otherwise |
| Server.CustomStepShape | src/server.ts:99-117 | the custom-extension step makes one more call with the empty text unless session creation rejects, and sends the intermediate message first; two sends when it completes, else one |
| Server.TurnSendOrder | src/server.ts:84-172 | at most one intermediate and then one final send; two sends only on the custom-extension branch; a failed turn keeps an already-sent intermediate message |
| Server.TurnIntermediate | src/server.ts:96-117 | the first send is the intermediate message and the second call is `watsonMessage('')` |
| Server.IntermediateParts | src/server.ts:106-112 | the intermediate text is the pronunciation pass of the prefixed spoken text, with only the custom-extension card "Generative AI" |
| Server.WordCountSpaces | src/server.ts:104 | the word count is the number of spaces plus one |
| Server.LeadingEmptyPiece | src/server.ts:104 | non-empty spoken text gives an empty first piece, which is counted |
| Server.SpokenStartsWithSpace | src/cardUtils.ts:44-51 | non-empty spoken text starts with a space |
| Server.FinalStepText | src/server.ts:136-137 | the final message is the pronunciation pass of the spoken text, with persona 1, after the earlier sends |
| Server.FinalStepLink | src/server.ts:127-133 | the link card is written before the context skills, so a context entry of that name overwrites it; an empty capture adds none |
| Server.FinalStepTimeout | src/server.ts:141-166 | a timeout exactly when delays are on, `customExtension` is truthy and a length was taken; its value is `pausePerWord(len, wpm) - elapsed` |
| Server.CustomStepDelay | src/server.ts:104-166 | the custom-extension step is delayed exactly when it completes with delays on, by the pause for the intermediate words less the time spent |
| Server.TurnDelay | src/server.ts:141-166 | a turn is delayed exactly when it completes with delays on and `skip_user_input === true`, by the pause for the intermediate words less the time spent |
| Server.ResetRoute | src/server.ts:183-191 | a falsy id answers nothing and changes nothing; otherwise `watsonReset` |
| Server.NewTopicRoute | src/server.ts:193-201 | a falsy id answers nothing; otherwise `watsonNewTopic` |
| Server.LowSpeedRoute | src/server.ts:214-227 | a falsy id answers nothing; otherwise `watsonStopConvo`, with any failure answered by a 500 |

## Left out

- Watson SDK construction and authentication are left out. `createSession`, `message` and `deleteSession` are foreign calls: what each settles with (a new session id, a reply, a rejection, deletion success) is a parameter.
- Socket and HTTP plumbing are left out: TLS files, server creation and listening, the `/randomDog` and `/health` routes, and logging. A send is an entry in an output list.
- The relative order of a route's `res.send` and `ws.send` is not kept. They go to different peers.
- `setTimeout` and `Date` are left out. The elapsed milliseconds are an input, and only the computed timeout is modelled.
- `JSON.parse` of the inbound message is left out. The message is given as a JSON value.
- Concurrency is left out: interleaved turns, and a pending timer racing a reset or a disconnect.
- Pacing.PausePerWord: computed on exact `real` rather than IEEE doubles.
- Pacing.PausePerWord: requires a non-zero rate; JavaScript would give `Infinity`. The string coercion of `WORDS_PER_MINUTE_DELAY` is not modelled; the rate is a `real` setting.
- Server.ConversationRequest: requires a non-zero rate when delays are on (`ADD_DELAY_TO_NS_RESPONSE`), for the same reason; with delays off the rate is never used.
- `GREETER_TOPICS` is empty, so `watsonNewTopic` always sends the text `false`. The `Math.random` choice is therefore not modelled.
- Strings are sequences of characters. UTF-16 code units and non-ASCII case folding are not modelled.
- `message_type`, `options.return_context` and the assistant id of the requests are not modelled. They are constant.
- A JSON object is a list of distinct keys. Duplicate keys, and the integer-like keys that JavaScript orders first, are not modelled.
- CardUtils.AddCardIfVariableFound: returns the mutated context as a new value rather than updating the reply in place. So aliasing between the reply's `user_defined` and the cached one is not captured.
- `result.output.generic` and `context.skills` are assumed present in every reply; a reply missing them would throw in the source. `response_type` is a string, and `text` and `header` are strings when present (a missing one is shown as "undefined"); a non-string value, which the source would coerce with `+`, is not modelled.
- A route `id` that is not a string names no cache entry.
- WatsonSession.WatsonReset: the cache is read by its own keys only, so an id that names an inherited `Object.prototype` member (`"toString"`, `"constructor"`, `"__proto__"`) counts as a missing entry and answers nothing. For such an id the source's inactivity branch writes the three fields, on `Object.prototype` itself for `"__proto__"`, and answers "Session ID set to null" before `ws.send` throws on `undefined`.
- Server.ResetRoute: for the same reason, an id that names an inherited `Object.prototype` member answers nothing, while the source answers "Session ID set to null" for it when `fn` is neither `ResetID` nor `ResetConvo`.
- `_sessionId` stores no new id in the cache, and neither does the model. After an inactivity reset, each message creates a fresh session.

## Findings

None.
