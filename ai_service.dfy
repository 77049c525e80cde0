/**
 * `generate_summary` and `generate_summary_with_context`: the prompt sent to Gemini for a
 * document, the output-token cap, the truncation of long documents, and the summary and
 * token estimate built from the reply. The model call itself is the parameter `gemini`.
 */
module AiService {
  import opened Common
  import opened Text

  const BRIEF_PROMPT: string := "Provide a brief 2-3 sentence summary of the following document:"
  const STANDARD_PROMPT: string := "Provide a comprehensive summary of the following document, highlighting the key points and main ideas:"
  const DETAILED_PROMPT: string := "Provide a detailed summary of the following document, including all major points, supporting details, and conclusions:"
  const SYSTEM_LINE: string := "You are a helpful assistant that creates clear, concise summaries of documents."
  const ERROR_PREFIX: string := "Error generating summary with Gemini: "

  /** Documents longer than this many characters are cut. */
  const MAX_INPUT_LENGTH: nat := 200000

  /** What the model call gives back: the parts of the first candidate, a bare text, or an exception. */
  datatype GeminiReply =
    | Candidates(firstParts: seq<string>)
    | NoCandidates(text: string)
    | Raised(error: string)

  /** A summary and its estimated token count, or the message of the exception raised. */
  datatype SummaryOutcome = Generated(summary: string, tokensUsed: nat) | Failed(message: string)

  /** The instruction for a summary type: `prompts.get(summary_type, prompts["standard"])`. */
  function Prompt(summaryType: string): (r: string)
    ensures r == BRIEF_PROMPT <==> summaryType == "brief"
    ensures r == DETAILED_PROMPT <==> summaryType == "detailed"
    ensures r == STANDARD_PROMPT <==> summaryType != "brief" && summaryType != "detailed"
  {
    if summaryType == "brief" then BRIEF_PROMPT
    else if summaryType == "detailed" then DETAILED_PROMPT
    else STANDARD_PROMPT
  }

  /** The input actually sent: at most 200 000 characters of the text, then "..." when it was cut. */
  function Truncate(text: string): (r: string)
    ensures |text| <= MAX_INPUT_LENGTH ==> r == text
    ensures |text| > MAX_INPUT_LENGTH ==> |r| == MAX_INPUT_LENGTH + 3 && r[..MAX_INPUT_LENGTH] == text[..MAX_INPUT_LENGTH] && r[MAX_INPUT_LENGTH..] == "..."
  {
    if |text| > MAX_INPUT_LENGTH then text[..MAX_INPUT_LENGTH] + "..." else text
  }

  /**
   * `max_tokens or (150 if brief else 500 if standard else 1000)`: a missing or zero override
   * is falsy and gives the per-type default.
   */
  function MaxOutputTokens(maxTokens: Option<int>, summaryType: string): (r: int)
    ensures r != 0
    ensures maxTokens.Some? && maxTokens.value != 0 ==> r == maxTokens.value
    ensures !(maxTokens.Some? && maxTokens.value != 0) ==>
      (r == 150 <==> summaryType == "brief") && (r == 500 <==> summaryType == "standard") && (r == 150 || r == 500 || r == 1000)
  {
    if maxTokens.Some? && maxTokens.value != 0 then maxTokens.value
    else if summaryType == "brief" then 150
    else if summaryType == "standard" then 500
    else 1000
  }

  /** The whole prompt: the system line, a blank line, the instruction, a blank line, the text. */
  function FullPrompt(prompt: string, text: string): (r: string)
    ensures |r| >= |text| && r[|r| - |text|..] == text
  {
    SYSTEM_LINE + "\n\n" + prompt + "\n\n" + text
  }

  /** The rough token estimate: whitespace-separated words of the input plus those of the summary. */
  function TokensUsed(text: string, summary: string): (r: nat)
    ensures r >= |Words(text)| && r >= |Words(summary)|
    ensures r == 0 <==> IsBlank(text) && IsBlank(summary)
    ensures r == WordEnds(text) + WordEnds(summary)
  {
    WordsCount(text);
    WordsCount(summary);
    NoWordsIffBlank(text);
    NoWordsIffBlank(summary);
    |Words(text)| + |Words(summary)|
  }

  /** What `generate_summary` returns or raises, given the reply the model call produces. */
  function Generation(text: string, summaryType: string, maxTokens: Option<int>, gemini: (string, int) -> GeminiReply): SummaryOutcome
  {
    var input := Truncate(text);
    match gemini(FullPrompt(Prompt(summaryType), input), MaxOutputTokens(maxTokens, summaryType))
    case Candidates(parts) => Generated(Concat(parts), TokensUsed(input, Concat(parts)))
    case NoCandidates(t) => Generated(t, TokensUsed(input, t))
    case Raised(e) => Failed(ERROR_PREFIX + e)
  }

  /** `summary += part.text` over the first candidate's parts. */
  method JoinParts(parts: seq<string>) returns (summary: string)
    ensures summary == Concat(parts)
  {
    summary := "";
    for i := 0 to |parts|
      invariant summary == Concat(parts[..i])
    {
      ConcatSnoc(parts[..i], parts[i]);
      assert parts[..i + 1] == parts[..i] + [parts[i]];
      summary := summary + parts[i];
    }
    assert parts[..|parts|] == parts;
  }

  /** `generate_summary(text, summary_type, max_tokens)`. */
  method GenerateSummary(text: string, summaryType: string, maxTokens: Option<int>, gemini: (string, int) -> GeminiReply)
    returns (r: SummaryOutcome)
    ensures r == Generation(text, summaryType, maxTokens, gemini)
  {
    var input := text;
    if |input| > MAX_INPUT_LENGTH {
      input := input[..MAX_INPUT_LENGTH] + "...";
    }
    var reply := gemini(FullPrompt(Prompt(summaryType), input), MaxOutputTokens(maxTokens, summaryType));
    match reply {
      case Raised(e) =>
        return Failed(ERROR_PREFIX + e);
      case Candidates(parts) =>
        var summary := JoinParts(parts);
        r := Generated(summary, |Words(input)| + |Words(summary)|);
      case NoCandidates(t) =>
        r := Generated(t, |Words(input)| + |Words(t)|);
    }
  }

  /** The line naming the document, put in front of its text. */
  function ContextPrefix(title: string): string
  {
    "Document Title: " + title + "\n\n"
  }

  /** `generate_summary_with_context`: the title line goes in front of the text, with no token override. */
  method GenerateSummaryWithContext(text: string, title: string, summaryType: string, gemini: (string, int) -> GeminiReply)
    returns (r: SummaryOutcome)
    ensures r == Generation(ContextPrefix(title) + text, summaryType, None, gemini)
  {
    r := GenerateSummary(ContextPrefix(title) + text, summaryType, None, gemini);
  }

  // ---------------------------------------------------------------------------
  // properties

  /** Cutting a cut text again changes nothing: the result never exceeds 200 003 characters. */
  lemma TruncateIdempotent(text: string)
    ensures Truncate(Truncate(text)) == Truncate(text)
    ensures |Truncate(text)| <= MAX_INPUT_LENGTH + 3
  {
    if |text| > MAX_INPUT_LENGTH {
      var r := Truncate(text);
      assert r[..MAX_INPUT_LENGTH] == text[..MAX_INPUT_LENGTH];
      assert Truncate(r) == r[..MAX_INPUT_LENGTH] + "...";
    }
  }

  /**
   * A type other than "brief", "standard" and "detailed" gets the standard instruction but
   * the 1000-token cap of the detailed summary.
   */
  lemma UnknownTypeMismatch(summaryType: string)
    requires summaryType != "brief" && summaryType != "standard" && summaryType != "detailed"
    ensures Prompt(summaryType) == Prompt("standard")
    ensures MaxOutputTokens(None, summaryType) == 1000 != MaxOutputTokens(None, "standard")
  {
  }

  /** A non-zero override always wins over the per-type default. */
  lemma OverrideWins(maxTokens: int, summaryType: string)
    requires maxTokens != 0
    ensures MaxOutputTokens(Some(maxTokens), summaryType) == maxTokens
    ensures MaxOutputTokens(Some(0), summaryType) == MaxOutputTokens(None, summaryType)
  {
  }

  /**
   * The title line is added before the cut, so it reaches the model whenever it fits
   * within the limit, however long the document is.
   */
  lemma ContextSurvivesTruncation(title: string, text: string)
    requires |ContextPrefix(title)| <= MAX_INPUT_LENGTH
    ensures |Truncate(ContextPrefix(title) + text)| >= |ContextPrefix(title)|
    ensures Truncate(ContextPrefix(title) + text)[..|ContextPrefix(title)|] == ContextPrefix(title)
  {
    var p := ContextPrefix(title);
    var s := p + text;
    assert s[..|p|] == p;
    if |s| > MAX_INPUT_LENGTH {
      assert Truncate(s)[..|p|] == s[..MAX_INPUT_LENGTH][..|p|];
    }
  }

  /**
   * On success the estimate counts the words of the text actually sent, so a summary adds
   * its own words to the input's.
   */
  lemma TokensOfGeneration(text: string, summaryType: string, maxTokens: Option<int>, gemini: (string, int) -> GeminiReply)
    ensures Generation(text, summaryType, maxTokens, gemini).Generated? ==>
      var g := Generation(text, summaryType, maxTokens, gemini);
      g.tokensUsed == |Words(Truncate(text))| + |Words(g.summary)|
    ensures Generation(text, summaryType, maxTokens, gemini).Failed? <==>
      gemini(FullPrompt(Prompt(summaryType), Truncate(text)), MaxOutputTokens(maxTokens, summaryType)).Raised?
  {
  }
}
