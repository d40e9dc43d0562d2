/** The LLM agent wrapper (`llm/query_llm.py`): the registry of the five tools
    the agent may call, the system prompt that lists them, and the way
    `query_financial_agent` turns the executor's reply or exception into the
    text handed to the service layers. The executor itself (the language
    model and its tool-calling loop) is not modelled: one run of it is a
    value, `AgentRun`, holding the reply dict's `output` entry or the
    exception the run raised. */
module Agent {
  import opened Common

  /** The Python function a registry entry binds. */
  datatype ToolFunc = SpendingBreakdown | StockPrices | InvestmentReturn | CryptoData | EmergencyFund

  /** A LangChain `Tool`: the name the model calls it by, the function, the description. */
  datatype Tool = Tool(name: string, func: ToolFunc, description: string)

  /** `TOOLS`, in registry order. */
  const Tools: seq<Tool> := [
    Tool("get_spending_breakdown", SpendingBreakdown, SpendingDescription),
    Tool("get_stock_prices", StockPrices, StockDescription),
    Tool("calculate_investment_return", InvestmentReturn, InvestmentDescription),
    Tool("get_crypto_data", CryptoData, CryptoDescription),
    Tool("calculate_emergency_fund", EmergencyFund, EmergencyFundDescription)
  ]

  const SpendingDescription: string :=
    "Retrieve and analyze spending data for a given year or data source. "
    + "Returns a breakdown of spending categories and total spent."
  const StockDescription: string :=
    "Fetch historical stock prices for a given symbol between start and end dates."
  const InvestmentDescription: string :=
    "Calculate the return on an investment given initial value, final value, and time period."
  const CryptoDescription: string :=
    "Fetch historical cryptocurrency prices for a given symbol between start and end dates."
  const EmergencyFundDescription: string :=
    "Calculate the recommended emergency fund size based on monthly expenses."

  function Names(tools: seq<Tool>): (ns: seq<string>)
    ensures |ns| == |tools|
    ensures forall i :: 0 <= i < |tools| ==> ns[i] == tools[i].name
  {
    if tools == [] then [] else [tools[0].name] + Names(tools[1..])
  }

  /** The registry has five tools, each bound to a different function under a different
      name (no two names even have the same length). */
  lemma RegistryIsInjective()
    ensures |Tools| == 5
    ensures forall i, j :: 0 <= i < j < |Tools| ==> Tools[i].name != Tools[j].name && Tools[i].func != Tools[j].func
  {
    var ns := Names(Tools);
    assert ns == ["get_spending_breakdown", "get_stock_prices", "calculate_investment_return",
                  "get_crypto_data", "calculate_emergency_fund"];
    forall i, j | 0 <= i < j < |Tools|
      ensures Tools[i].name != Tools[j].name
    {
      assert |ns[i]| != |ns[j]|;
    }
  }

  /** The part of the system prompt before the tool list. */
  const PromptIntro: string :=
    "You are a financial assistant designed to interpret a wide range of user queries "
    + "and provide accurate, concise answers using specialized tools. Your goals are:\n\n"
    + "1. **Understand Paraphrasing**: Recognize different ways a user might ask the same"
    + " question (e.g., \"What's my spending breakdown?\" vs \"How did I spend my money?\") "
    + "and map them to the appropriate tool or direct response.\n"
    + "2. **Compose Tools Systematically**: When a query requires multiple steps (e.g., "
    + "fetching data and calculating returns), use tools in the correct order and respect"
    + " logical precedence (e.g., multiplication before addition in calculations).\n"
    + "3. **Provide Clear Answers**: Return results in a user-friendly format, avoiding "
    + "unnecessary complexity.\n\n"
    + "Available tools:\n"

  /** What the prompt says each registered tool is for, in registry order. */
  const PromptHints: seq<string> := [
    "For spending analysis.",
    "For stock price data.",
    "For investment growth calculations.",
    "For cryptocurrency price data.",
    "For emergency fund recommendations."
  ]

  /** The part of the system prompt after the tool list. */
  const PromptOutro: string :=
    "If a query doesn't require a tool, respond directly with your knowledge. If "
    + "multiple tools are needed, chain them logically. For example, to answer 'How much "
    + "did Solana grow from 2023-01-01 to 2023-12-31?', first fetch the price data "
    + "with get_crypto_data, then calculate the return with calculate_investment_return."

  /** One line of the prompt's tool list. */
  function ToolLine(name: string, hint: string): string
  {
    "- " + name + ": " + hint + "\n"
  }

  /** The tool list: one line per name, in order. */
  function Listing(names: seq<string>, hints: seq<string>): string
    requires |names| == |hints|
  {
    if names == [] then "" else ToolLine(names[0], hints[0]) + Listing(names[1..], hints[1..])
  }

  /** The blank line after the tool list and the rest of the prompt. */
  const PromptTail: string := "\n" + PromptOutro

  /** `SYSTEM_PROMPT` */
  const SystemPrompt: string := PromptIntro + Listing(Names(Tools), PromptHints) + PromptTail

  /** The tool list names every tool it is built from, each at the head of a line. */
  lemma {:induction false} ListingNamesEach(names: seq<string>, hints: seq<string>, i: nat)
    requires |names| == |hints| && i < |names|
    ensures Contains(Listing(names, hints), "- " + names[i] + ":")
  {
    var first := ToolLine(names[0], hints[0]);
    var rest := Listing(names[1..], hints[1..]);
    if i == 0 {
      assert first + rest == ("- " + names[0] + ":") + (" " + hints[0] + "\n" + rest);
      ContainsPrefix("- " + names[0] + ":", " " + hints[0] + "\n" + rest);
    } else {
      ListingNamesEach(names[1..], hints[1..], i - 1);
      ContainsWithin(first, rest, "", "- " + names[i] + ":");
      assert first + rest + "" == first + rest;
    }
  }

  /** A prompt built around a tool list names every tool of the list. */
  lemma ListedInPrompt(intro: string, names: seq<string>, hints: seq<string>, tail: string)
    requires |names| == |hints|
    ensures forall i :: 0 <= i < |names| ==> Contains(intro + Listing(names, hints) + tail, "- " + names[i] + ":")
  {
    forall i | 0 <= i < |names|
      ensures Contains(intro + Listing(names, hints) + tail, "- " + names[i] + ":")
    {
      ListingNamesEach(names, hints, i);
      ContainsWithin(intro, Listing(names, hints), tail, "- " + names[i] + ":");
    }
  }

  /** Every registered tool is announced in the system prompt's tool list. */
  lemma ToolsInPrompt()
    ensures forall i :: 0 <= i < |Tools| ==> Contains(SystemPrompt, "- " + Tools[i].name + ":")
  {
    ListedInPrompt(PromptIntro, Names(Tools), PromptHints, PromptTail);
  }

  /** One run of the executor: the reply's `output` entry (`None` when the key is
      missing), or the exception `executor.invoke` raised. */
  datatype AgentRun = Returned(output: Option<string>) | Raised(exc: Exc)

  /** The marker the service layers look for in the agent's text. */
  const ErrorMarker: string := "Error processing query"

  const UnexpectedFormatMessage: string := "Unexpected response format from the agent."

  /** The exception classes `query_financial_agent` turns into text. */
  predicate Handled(kind: ExcKind)
  {
    kind in {ValueError, RuntimeError, AttributeError, KeyError}
  }

  /** `query_financial_agent`: `Ok` is the returned text, `Err` the exception re-raised. */
  function QueryFinancialAgent(run: AgentRun): (r: Result<string, Exc>)
    ensures run.Returned? && run.output.Some? ==> r == Ok(run.output.value)
    ensures run.Returned? && run.output.None? ==> r == Ok(UnexpectedFormatMessage)
    ensures run.Raised? && Handled(run.exc.kind) ==> r == Ok(ErrorMarker + ": " + run.exc.message)
    ensures run.Raised? && !Handled(run.exc.kind) ==> r == Err(run.exc)
  {
    match run
    case Returned(Some(output)) => Ok(output)
    case Returned(None) => Ok(UnexpectedFormatMessage)
    case Raised(e) => if Handled(e.kind) then Ok(ErrorMarker + ": " + e.message) else Err(e)
  }

  /** Only an exception outside the four handled classes escapes, and it escapes unchanged. */
  lemma AgentRaisesOnlyUnhandled(run: AgentRun)
    ensures QueryFinancialAgent(run).Err? <==> run.Raised? && !Handled(run.exc.kind)
    ensures QueryFinancialAgent(run).Err? ==> QueryFinancialAgent(run).error == run.exc
  {
  }

  /** The returned text carries the error marker exactly when a handled exception was
      raised or the model's own output contains it; the missing-output message does not. */
  lemma AgentTextMarker(run: AgentRun)
    requires QueryFinancialAgent(run).Ok?
    ensures Contains(QueryFinancialAgent(run).value, ErrorMarker)
        <==> run.Raised? || (run.output.Some? && Contains(run.output.value, ErrorMarker))
  {
    match run
    case Returned(None) =>
      assert ErrorMarker[0] == 'E';
      assert 'E' !in UnexpectedFormatMessage by {
        forall i | 0 <= i < |UnexpectedFormatMessage|
          ensures UnexpectedFormatMessage[i] != 'E'
        {
        }
      }
      NotContainsWithoutFirstChar(UnexpectedFormatMessage, ErrorMarker);
    case Returned(Some(_)) =>
    case Raised(e) =>
      ContainsPrefix(ErrorMarker, ": " + e.message);
      assert ErrorMarker + ": " + e.message == ErrorMarker + (": " + e.message);
  }
}
