/**
 * What the three stage pages share around a chat request: the transcript entries, the
 * outcome of the request as the page sees it, and JavaScript's `||` fallback for strings.
 */
module Chat {
  import opened Wrappers

  datatype Role = User | Assistant

  datatype Message = Message(role: Role, content: string)

  /**
   * How a request ends for the page: a non-ok response with its optional `error` field, an
   * ok response with `answer` and optional `conversation_id`, or a thrown exception (network
   * failure or a body that is not JSON).
   */
  datatype Reply =
    | Failed(error: Option<string>)
    | Answered(answer: string, conversationId: Option<string>)
    | Threw

  /** Shown when a failed response carries no error text. */
  const RequestFailed: string := "请求失败"
  /** Shown when the request throws. */
  const NetworkError: string := "网络错误，请稍后再试"

  /** `s || fallback` for an optional string: absent and empty both fall back. */
  function OrElse(s: Option<string>, fallback: string): (r: string)
    ensures s.Some? && s.value != "" ==> r == s.value
    ensures s.None? || s.value == "" ==> r == fallback
  {
    if s.Some? && s.value != "" then s.value else fallback
  }

  /** `if (data.conversation_id) setConversationId(...)`: a present, non-empty id replaces the old one. */
  function NextConversation(current: Option<string>, returned: Option<string>): (r: Option<string>)
    ensures returned.Some? && returned.value != "" ==> r == returned
    ensures returned.None? || returned.value == "" ==> r == current
  {
    if returned.Some? && returned.value != "" then returned else current
  }

  /**
   * The error a finished request leaves on the page: the response's own error text, or
   * `请求失败` when it has none; none for an answer; the network message for an exception.
   */
  function ReplyError(reply: Reply): (r: string)
    ensures reply.Answered? <==> r == ""
    ensures reply.Failed? && reply.error.Some? && reply.error.value != "" ==> r == reply.error.value
    ensures reply.Failed? && (reply.error.None? || reply.error.value == "") ==> r == RequestFailed
    ensures reply.Threw? ==> r == NetworkError
  {
    match reply
    case Failed(e) => OrElse(e, RequestFailed)
    case Answered(_, _) => ""
    case Threw => NetworkError
  }
}
