/** The BentoML service (`api/service.py`): `FinancialAssistant.query_assistant`
    answers every prompt with a dict carrying a `status`, never with an
    exception, and `health_check` with a fixed dict. The class has no state,
    so its two endpoints are functions. The agent is a parameter: a function
    from the stripped prompt to the agent's text, or to the exception its call
    raised. */
module Service {
  import opened Common
  import opened Dicts
  import Agent

  /** A value of a reply dict: a string, or Python's `None`. */
  datatype Value = Str(text: string) | Null

  const EmptyPromptMessage: string := "Prompt cannot be empty"

  /** `{"status": "error", "response": message}` */
  function ErrorReply(message: string): (r: Dict<Value>)
    ensures IsDict(r) && Keys(r) == ["status", "response"]
    ensures Get(r, "status") == Some(Str("error")) && Get(r, "response") == Some(Str(message))
  {
    [("status", Str("error")), ("response", Str(message))]
  }

  /** `{"response": response, "status": "success", "details": None}` */
  function SuccessReply(response: string): (r: Dict<Value>)
    ensures IsDict(r) && Keys(r) == ["response", "status", "details"]
    ensures Get(r, "status") == Some(Str("success")) && Get(r, "response") == Some(Str(response))
    ensures Get(r, "details") == Some(Null)
  {
    assert "response"[0] != "details"[0] && "status"[0] != "details"[0];
    [("response", Str(response)), ("status", Str("success")), ("details", Null)]
  }

  /** `query_assistant(prompt)` */
  function QueryAssistant(prompt: string, agent: string -> Result<string, Exc>): (r: Dict<Value>)
    ensures IsDict(r)
    ensures Get(r, "status") == Some(Str("success")) || Get(r, "status") == Some(Str("error"))
    ensures Strip(prompt) == [] ==> r == ErrorReply(EmptyPromptMessage)
    ensures Strip(prompt) != [] && agent(Strip(prompt)).Err? ==>
              r == ErrorReply("Failed to process query: " + agent(Strip(prompt)).error.message)
    ensures Strip(prompt) != [] && agent(Strip(prompt)).Ok? ==>
              var text := agent(Strip(prompt)).value;
              r == if Contains(text, Agent.ErrorMarker) then ErrorReply(text) else SuccessReply(text)
  {
    var p := Strip(prompt);
    if p == [] then ErrorReply(EmptyPromptMessage)
    else
      match agent(p)
      case Err(e) => ErrorReply("Failed to process query: " + e.message)
      case Ok(response) =>
        if Contains(response, Agent.ErrorMarker) then ErrorReply(response) else SuccessReply(response)
  }

  /** The reply is a success exactly when the prompt is not blank and the agent
      returned a text without the error marker; the text is then passed on unchanged. */
  lemma SuccessIff(prompt: string, agent: string -> Result<string, Exc>)
    ensures Get(QueryAssistant(prompt, agent), "status") == Some(Str("success"))
        <==> Strip(prompt) != [] && agent(Strip(prompt)).Ok? && !Contains(agent(Strip(prompt)).value, Agent.ErrorMarker)
    ensures Get(QueryAssistant(prompt, agent), "status") == Some(Str("success")) ==>
              Get(QueryAssistant(prompt, agent), "response") == Some(Str(agent(Strip(prompt)).value))
              && Get(QueryAssistant(prompt, agent), "details") == Some(Null)
  {
  }

  /** A blank prompt is answered without consulting the agent. */
  lemma BlankPromptSkipsAgent(prompt: string, agent1: string -> Result<string, Exc>,
                              agent2: string -> Result<string, Exc>)
    requires forall i :: 0 <= i < |prompt| ==> IsSpace(prompt[i])
    ensures QueryAssistant(prompt, agent1) == QueryAssistant(prompt, agent2) == ErrorReply(EmptyPromptMessage)
  {
    StripEmptyIff(prompt);
  }

  /** Surrounding whitespace never matters: the agent sees the stripped prompt. */
  lemma StrippedPromptSameReply(prompt: string, agent: string -> Result<string, Exc>)
    ensures QueryAssistant(Strip(prompt), agent) == QueryAssistant(prompt, agent)
  {
    StripIdempotent(prompt);
    SameStripSameReply(Strip(prompt), prompt, agent);
  }

  lemma SameStripSameReply(prompt1: string, prompt2: string, agent: string -> Result<string, Exc>)
    requires Strip(prompt1) == Strip(prompt2)
    ensures QueryAssistant(prompt1, agent) == QueryAssistant(prompt2, agent)
  {
  }

  /** Over the real agent wrapper (`run` gives the executor's run for a prompt), a reply
      without an `output` entry is reported as a success carrying the agent's
      format complaint, because that message lacks the error marker. */
  lemma MissingOutputIsSuccess(prompt: string, run: string -> Agent.AgentRun)
    requires Strip(prompt) != [] && run(Strip(prompt)) == Agent.Returned(None)
    ensures QueryAssistant(prompt, p => Agent.QueryFinancialAgent(run(p))) == SuccessReply(Agent.UnexpectedFormatMessage)
  {
    Agent.AgentTextMarker(run(Strip(prompt)));
  }

  /** A handled exception of the agent becomes an error reply carrying the agent's text;
      any other exception an error reply with the service's own prefix. */
  lemma AgentExceptionIsError(prompt: string, run: string -> Agent.AgentRun)
    requires Strip(prompt) != [] && run(Strip(prompt)).Raised?
    ensures var e := run(Strip(prompt)).exc;
            QueryAssistant(prompt, p => Agent.QueryFinancialAgent(run(p)))
              == if Agent.Handled(e.kind) then ErrorReply(Agent.ErrorMarker + ": " + e.message)
                 else ErrorReply("Failed to process query: " + e.message)
  {
    if Agent.Handled(run(Strip(prompt)).exc.kind) {
      Agent.AgentTextMarker(run(Strip(prompt)));
    }
  }

  /** `health_check()` */
  function HealthCheck(): (r: Dict<string>)
    ensures IsDict(r) && Get(r, "status") == Some("healthy")
    ensures Keys(r) == ["status", "message"]
  {
    [("status", "healthy"), ("message", "Financial Dashboard API is running")]
  }
}
