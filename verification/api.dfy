/** The FastAPI application (`api/financial_api.py`): `POST /query` answers
    with a `QueryResponse` or raises an `HTTPException` whose status code and
    detail become the HTTP error, and `GET /health` answers with a fixed dict.
    The agent is a parameter, as in the service module. */
module Api {
  import opened Common
  import opened Dicts
  import Calendar
  import Agent
  import Service

  /** `QueryResponse`: the body of a 200 answer. */
  datatype QueryResponse = QueryResponse(response: string, status: string, details: Option<Dict<string>>)

  /** An `HTTPException(status_code, detail)`. */
  datatype HttpException = HttpException(statusCode: int, detail: string)

  /** The decimal digits of a non-negative integer, as `str(n)` writes them: digits that
      spell `n`, with no leading zero. */
  function Decimal(n: nat): (s: string)
    ensures |s| >= 1 && Calendar.AllDigits(s)
    ensures Calendar.DigitsValue(s) == n
    ensures (s[0] == '0') == (n == 0)
  {
    var digit := [Calendar.Digit(n % 10)];
    if n < 10 then
      assert digit[..0] == [];
      digit
    else
      var s := Decimal(n / 10) + digit;
      assert s[..|s| - 1] == Decimal(n / 10);
      s
  }

  /** `str(e)` of an `HTTPException`: the status code's digits, then `": "`, then the
      detail, so the first colon ends the code. */
  function ExceptionText(e: HttpException): (t: string)
    requires e.statusCode >= 0
    ensures var code := Decimal(e.statusCode);
            && |t| == |code| + 2 + |e.detail|
            && t[..|code|] == code && ':' !in code
            && t[|code|..|code| + 2] == ": "
            && t[|code| + 2..] == e.detail
  {
    var code := Decimal(e.statusCode);
    assert ':' !in code by {
      forall i | 0 <= i < |code|
        ensures code[i] != ':'
      {
        assert Calendar.IsDigit(code[i]);
      }
    }
    code + ": " + e.detail
  }

  lemma DecimalFiveHundred()
    ensures Decimal(500) == "500"
  {
    assert Decimal(5) == "5";
    assert Decimal(50) == "50";
  }

  /** The handler's `except Exception` branch. */
  function FailedToProcess(message: string): HttpException
  {
    HttpException(500, "Failed to process query: " + message)
  }

  /** `query_assistant` as written: the 500 raised for an agent error text is itself
      caught by the surrounding `except Exception` and wrapped a second time. */
  function QueryAssistantAsWritten(prompt: string, agent: string -> Result<string, Exc>)
    : (r: Result<QueryResponse, HttpException>)
    ensures Strip(prompt) == [] ==> r == Err(HttpException(400, Service.EmptyPromptMessage))
    ensures r.Err? ==> r.error.statusCode in {400, 500}
    ensures r.Ok? ==> Strip(prompt) != [] && agent(Strip(prompt)).Ok?
                      && r.value == QueryResponse(agent(Strip(prompt)).value, "success", None)
  {
    var p := Strip(prompt);
    if p == [] then Err(HttpException(400, Service.EmptyPromptMessage))
    else
      match agent(p)
      case Err(e) => Err(FailedToProcess(e.message))
      case Ok(response) =>
        if Contains(response, Agent.ErrorMarker) then
          var raised := HttpException(500, response);
          Err(FailedToProcess(ExceptionText(raised)))
        else
          Ok(QueryResponse(response, "success", None))
  }

  /** `query_assistant` with the agent's error text answered as the 500 it raises. */
  function QueryAssistant(prompt: string, agent: string -> Result<string, Exc>)
    : (r: Result<QueryResponse, HttpException>)
    ensures Strip(prompt) == [] ==> r == Err(HttpException(400, Service.EmptyPromptMessage))
    ensures r.Err? ==> r.error.statusCode in {400, 500}
    ensures r.Ok? ==> Strip(prompt) != [] && agent(Strip(prompt)).Ok?
                      && r.value == QueryResponse(agent(Strip(prompt)).value, "success", None)
  {
    var p := Strip(prompt);
    if p == [] then Err(HttpException(400, Service.EmptyPromptMessage))
    else
      match agent(p)
      case Err(e) => Err(FailedToProcess(e.message))
      case Ok(response) =>
        if Contains(response, Agent.ErrorMarker) then Err(HttpException(500, response))
        else Ok(QueryResponse(response, "success", None))
  }

  /** A 400 answers exactly the blank prompts; every other failure is a 500. */
  lemma StatusCodes(prompt: string, agent: string -> Result<string, Exc>)
    ensures QueryAssistant(prompt, agent).Err? && QueryAssistant(prompt, agent).error.statusCode == 400
        <==> Strip(prompt) == []
    ensures QueryAssistant(prompt, agent).Ok?
        <==> Strip(prompt) != [] && agent(Strip(prompt)).Ok? && !Contains(agent(Strip(prompt)).value, Agent.ErrorMarker)
  {
  }

  /** The HTTP endpoint and the BentoML service decide alike: a 200 is the service's
      success with the same text, an HTTP error its error reply with the detail as
      the response. */
  lemma AgreesWithService(prompt: string, agent: string -> Result<string, Exc>)
    ensures QueryAssistant(prompt, agent).Ok? ==>
              Service.QueryAssistant(prompt, agent) == Service.SuccessReply(QueryAssistant(prompt, agent).value.response)
    ensures QueryAssistant(prompt, agent).Err? ==>
              Service.QueryAssistant(prompt, agent) == Service.ErrorReply(QueryAssistant(prompt, agent).error.detail)
  {
  }

  /** The two versions differ only on an agent text that carries the error marker. */
  lemma AsWrittenDiffersOnlyOnMarker(prompt: string, agent: string -> Result<string, Exc>)
    ensures QueryAssistantAsWritten(prompt, agent) != QueryAssistant(prompt, agent) <==>
              Strip(prompt) != [] && agent(Strip(prompt)).Ok? && Contains(agent(Strip(prompt)).value, Agent.ErrorMarker)
  {
    var p := Strip(prompt);
    if p != [] && agent(p).Ok? && Contains(agent(p).value, Agent.ErrorMarker) {
      var text := agent(p).value;
      var wrapped := "Failed to process query: " + ExceptionText(HttpException(500, text));
      assert |wrapped| > |text|;
    }
  }

  /** As written, an agent error text reaches the client wrapped twice, behind the
      handler's prefix and the inner exception's status code. */
  lemma AsWrittenDoubleWraps(prompt: string, agent: string -> Result<string, Exc>)
    requires Strip(prompt) != [] && agent(Strip(prompt)).Ok?
    requires Contains(agent(Strip(prompt)).value, Agent.ErrorMarker)
    ensures QueryAssistantAsWritten(prompt, agent)
         == Err(HttpException(500, "Failed to process query: 500: " + agent(Strip(prompt)).value))
  {
    DecimalFiveHundred();
    var text := agent(Strip(prompt)).value;
    assert "Failed to process query: " + ExceptionText(HttpException(500, text))
        == "Failed to process query: 500: " + text;
  }

  /** With the handler as intended, the client receives the agent's error text itself. */
  lemma AgentErrorTextPassedThrough(prompt: string, agent: string -> Result<string, Exc>)
    requires Strip(prompt) != [] && agent(Strip(prompt)).Ok?
    requires Contains(agent(Strip(prompt)).value, Agent.ErrorMarker)
    ensures QueryAssistant(prompt, agent) == Err(HttpException(500, agent(Strip(prompt)).value))
  {
  }

  /** A handled `ValueError` in the agent, end to end: as written the detail is
      "Failed to process query: 500: Error processing query: bad input". */
  lemma HandledErrorExample(prompt: string, run: string -> Agent.AgentRun)
    requires Strip(prompt) != [] && run(Strip(prompt)) == Agent.Raised(ValueErr("bad input"))
    ensures QueryAssistantAsWritten(prompt, p => Agent.QueryFinancialAgent(run(p)))
         == Err(HttpException(500, "Failed to process query: 500: " + "Error processing query: bad input"))
    ensures QueryAssistant(prompt, p => Agent.QueryFinancialAgent(run(p)))
         == Err(HttpException(500, "Error processing query: bad input"))
  {
    var agent := p => Agent.QueryFinancialAgent(run(p));
    var text := "Error processing query: bad input";
    assert agent(Strip(prompt)) == Ok(text) by {
      assert Agent.ErrorMarker + ": " + "bad input" == text;
    }
    Agent.AgentTextMarker(run(Strip(prompt)));
    AsWrittenDoubleWraps(prompt, agent);
    AgentErrorTextPassedThrough(prompt, agent);
  }

  /** `health_check()`: the same fixed dict the service answers with. */
  function HealthCheck(): (r: Dict<string>)
    ensures r == Service.HealthCheck()
    ensures Get(r, "status") == Some("healthy")
  {
    [("status", "healthy"), ("message", "Financial Dashboard API is running")]
  }
}
