/**
 * How get_agent_response turns the outcome of one agent run into the text
 * of the assistant turn. The remote calls themselves (posting the question,
 * running the agent, listing the thread's messages) are not modelled: their
 * combined outcome is the input RunOutcome. Citation placeholders are
 * substituted by an uninterpreted Renderer.
 */
module AgentReply {

  /** MessageRole.USER or MessageRole.AGENT of a thread message. */
  datatype MessageRole = UserRole | AgentRole

  /** One url_citation annotation: the placeholder text and the cited page. */
  datatype Citation = Citation(placeholder: string, title: string, url: string)

  /** One message of the remote thread: its role, its text parts and its citations. */
  datatype ThreadMessage = ThreadMessage(role: MessageRole, texts: seq<string>, citations: seq<Citation>)

  /**
   * What the remote side did with the question: an exception was raised
   * somewhere inside the try block, the run ended with status "failed", or
   * the run ended with any other status (completed, but also cancelled,
   * expired or incomplete) and the thread lists these messages, newest
   * first. In the last case the newest agent message may be the reply to an
   * earlier question.
   */
  datatype RunOutcome =
    | Raised(error: string)
    | Failed(lastError: string)
    | NotFailed(listing: seq<ThreadMessage>)

  /** Replaces the citation placeholders of one text part. */
  type Renderer = (seq<Citation>, string) -> string

  const Unavailable := "죄송합니다. 현재 Agent를 사용할 수 없습니다."
  const RunFailedPrefix := "죄송합니다. AI 에이전트 실행 중 오류가 발생했습니다: "
  const ErrorPrefix := "오류가 발생했습니다: "
  const NotFound := "답변을 찾을 수 없습니다."

  /** A text part as it is shown: rendered when the message carries citations. */
  function Shown(m: ThreadMessage, text: string, render: Renderer): string
  {
    if m.citations != [] then render(m.citations, text) else text
  }

  /** The answer an agent message gives: its last text part, or NotFound without any. */
  function Reply(m: ThreadMessage, render: Renderer): string
  {
    if m.texts == [] then NotFound else Shown(m, m.texts[|m.texts| - 1], render)
  }

  /** The reply of the first agent message of the listing, NotFound when there is none. */
  function AnswerFrom(listing: seq<ThreadMessage>, render: Renderer): string
  {
    if listing == [] then NotFound
    else if listing[0].role == AgentRole then Reply(listing[0], render)
    else AnswerFrom(listing[1..], render)
  }

  /** The text get_agent_response returns, by outcome. */
  function Response(agentLoaded: bool, outcome: RunOutcome, render: Renderer): string
  {
    if !agentLoaded then Unavailable
    else match outcome
      case Raised(e) => ErrorPrefix + e
      case Failed(e) => RunFailedPrefix + e
      case NotFailed(listing) => AnswerFrom(listing, render)
  }

  /**
   * The answer is taken from the newest agent message only: every message
   * after it is ignored, and without any agent message the answer is NotFound.
   */
  lemma {:induction false} AnswerFromFirstAgent(listing: seq<ThreadMessage>, render: Renderer)
    ensures (forall k :: 0 <= k < |listing| ==> listing[k].role != AgentRole) ==>
              AnswerFrom(listing, render) == NotFound
    ensures forall j :: 0 <= j < |listing| && listing[j].role == AgentRole &&
                        (forall k :: 0 <= k < j ==> listing[k].role != AgentRole) ==>
              AnswerFrom(listing, render) == Reply(listing[j], render)
  {
    if listing != [] && listing[0].role != AgentRole {
      AnswerFromFirstAgent(listing[1..], render);
      forall j | 0 < j < |listing| && listing[j].role == AgentRole &&
                 (forall k :: 0 <= k < j ==> listing[k].role != AgentRole)
        ensures AnswerFrom(listing, render) == Reply(listing[j], render)
      {
        assert listing[1..][j - 1] == listing[j];
        assert forall k :: 0 <= k < j - 1 ==> listing[1..][k] == listing[k + 1];
      }
    }
  }

  /**
   * get_agent_response once the remote run is over: the fallback text when
   * the agent could not be loaded, an error text embedding the exception or
   * the run's last_error, otherwise a scan of the listing that stops at the
   * first agent message and keeps the last of its text parts.
   */
  method GetAgentResponse(agentLoaded: bool, outcome: RunOutcome, render: Renderer) returns (answer: string)
    ensures answer == Response(agentLoaded, outcome, render)
  {
    if !agentLoaded {
      return Unavailable;
    }
    match outcome
    case Raised(e) =>
      answer := ErrorPrefix + e;
    case Failed(e) =>
      answer := RunFailedPrefix + e;
    case NotFailed(listing) =>
      answer := NotFound;
      var i := 0;
      while i < |listing|
        invariant 0 <= i <= |listing|
        invariant answer == NotFound
        invariant AnswerFrom(listing, render) == AnswerFrom(listing[i..], render)
      {
        var msg := listing[i];
        if msg.role == AgentRole {
          var j := 0;
          while j < |msg.texts|
            invariant 0 <= j <= |msg.texts|
            invariant answer == if j == 0 then NotFound else Shown(msg, msg.texts[j - 1], render)
          {
            if msg.citations != [] {
              answer := render(msg.citations, msg.texts[j]);
            } else {
              answer := msg.texts[j];
            }
            j := j + 1;
          }
          break;
        }
        assert listing[i..][1..] == listing[i + 1..];
        i := i + 1;
      }
  }
}
