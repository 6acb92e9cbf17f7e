/** The model API as a scripted oracle: a fixed sequence of replies, each an
    error or an ordered list of content blocks, handed out one per call. The
    client records every request it receives. */
module Client {
  import opened Wrappers
  import opened Tools
  import opened Transcript

  datatype ClientOption = WithAPIKey(key: string) | WithBaseURL(url: string)

  /** The client options: the API key always, the base URL only when one is
      given. */
  function ClientOptions(apiKey: string, baseURL: string): (opts: seq<ClientOption>)
    ensures baseURL == "" ==> opts == [WithAPIKey(apiKey)]
    ensures baseURL != "" ==> opts == [WithAPIKey(apiKey), WithBaseURL(baseURL)]
  {
    [WithAPIKey(apiKey)] + (if baseURL != "" then [WithBaseURL(baseURL)] else [])
  }

  datatype Request = Request(model: string, maxTokens: int, messages: seq<Message>, tools: seq<ToolParam>)

  type Reply = Result<seq<ContentBlock>>

  const NoReplyLeft := "no scripted reply left"

  /** The reply to the next call and the replies left after it; once the
      script is used up every call fails. */
  function NextReply(script: seq<Reply>): (r: (Reply, seq<Reply>))
    ensures script == [] ==> r == (Err(NoReplyLeft), [])
    ensures script != [] ==> r == (script[0], script[1..])
  {
    if script == [] then (Err(NoReplyLeft), []) else (script[0], script[1..])
  }

  class ScriptedClient {
    const options: seq<ClientOption>
    var script: seq<Reply>
    var requests: seq<Request>

    constructor (options: seq<ClientOption>, script: seq<Reply>)
      ensures this.options == options && this.script == script && requests == []
    {
      this.options := options;
      this.script := script;
      requests := [];
    }

    /** One call of the messages endpoint. */
    method New(params: Request) returns (r: Reply)
      modifies this`script, this`requests
      ensures requests == old(requests) + [params]
      ensures (r, script) == NextReply(old(script))
    {
      requests := requests + [params];
      if script == [] {
        r := Err(NoReplyLeft);
      } else {
        r := script[0];
        script := script[1..];
      }
    }
  }
}
