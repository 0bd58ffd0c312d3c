/** The parts of an assistant reply that the orchestration server reads,
    and the request the server sends for each message. */
module Assistant {
  import opened Wrappers
  import opened Json

  /** One entry of `result.output.generic`. A missing `text` or `header` is
      `undefined`; `primary_results` is any JSON value. */
  datatype Item = Item(
    responseType: string,
    text: Option<string>,
    header: Option<string>,
    primaryResults: Option<Json>)

  /** `result.context.skills[...]` for one skill. */
  datatype Skill = Skill(userDefined: Option<Json>, skillVariables: Option<Json>)

  /** The reply of `assistant.message` with `return_context: true`. */
  datatype Reply = Reply(
    generic: seq<Item>,
    mainSkill: Option<Skill>,
    actionsSkill: Option<Skill>,
    skipUserInput: Option<Json>)

  /** What one `assistant.message` call sends: session, user, `input.text`
      (absent in a context-only call) and the `main skill` `user_defined`
      context it carries, if any. */
  datatype Outbound = Outbound(
    sessionId: string,
    userId: Json,
    text: Option<Json>,
    userDefined: Option<Json>)

  /** String concatenation of a value that may be `undefined`. */
  function Shown(o: Option<string>): (r: string)
    ensures o.Some? ==> r == o.value
    ensures o.None? ==> r == "undefined"
  {
    match o
    case None => "undefined"
    case Some(s) => s
  }
}
