/**
 * The code generator's post-processing: the guards around the request to the language model,
 * the extraction of the code from a fenced block of its answer, and the dark-background
 * configuration the generated scene gets when it has none.
 */
module Gemini {
  import opened Wrappers
  import opened Text

  const SystemPrompt: string :=
    "You are a Manim animation expert. Generate Python code using the Manim library based on the user's description. \n"
    + "  Only return the Python code, no explanations or markdown formatting. The code should be a complete, runnable Manim animation."

  /** The text of the one part of the request. */
  function RequestText(prompt: string): (r: string)
    ensures StartsWith(r, SystemPrompt) && EndsWith(r, prompt)
  {
    var r := SystemPrompt + "\n\nUser request: " + prompt;
    assert r[..|SystemPrompt|] == SystemPrompt;
    assert r[|r| - |prompt|..] == prompt;
    r
  }

  // ---------------------------------------------------------------------------------------
  // Fenced code blocks
  // ---------------------------------------------------------------------------------------

  const PythonFence: string := "```python\n"
  const PlainFence: string := "```\n"
  const ClosingFence: string := "\n```"

  /** The regular expression `opener([\s\S]*?)\n```` can match `text` from `i` to a closing fence at `j`. */
  predicate FenceAt(text: string, opener: string, i: int, j: int) {
    OccursAt(text, opener, i) && i + |opener| <= j && OccursAt(text, ClosingFence, j)
  }

  /**
   * `text.match(/opener([\s\S]*?)\n```/)`, its capture: the text from the first opener to the
   * first closing fence after it. A later opener cannot do better, since its closing fence
   * would close the first one too.
   */
  function FencedBlock(text: string, opener: string): (r: Option<string>)
    ensures r.Some? ==> exists i, j :: FenceAt(text, opener, i, j) && r.value == text[i + |opener|..j]
  {
    match IndexOfFrom(text, opener, 0)
    case None => None
    case Some(i) =>
      match IndexOfFrom(text, ClosingFence, i + |opener|)
      case None => None
      case Some(j) =>
        assert FenceAt(text, opener, i, j);
        Some(text[i + |opener|..j])
  }

  /**
   * The capture is the regular expression's: no match starts earlier, and the capture is the
   * shortest from its start (the lazy `*?`); and there is no capture only when nothing matches.
   */
  lemma FencedBlockIsLeftmostShortest(text: string, opener: string)
    ensures FencedBlock(text, opener).None? ==> forall i, j :: !FenceAt(text, opener, i, j)
    ensures FencedBlock(text, opener).Some? ==>
      exists i, j ::
        && FenceAt(text, opener, i, j) && FencedBlock(text, opener).value == text[i + |opener|..j]
        && (forall i', j' :: 0 <= i' < i ==> !FenceAt(text, opener, i', j'))
        && (forall j' :: j' < j ==> !FenceAt(text, opener, i, j'))
  {
    match IndexOfFrom(text, opener, 0)
    case None =>
    case Some(i) =>
      match IndexOfFrom(text, ClosingFence, i + |opener|)
      case None =>
        assert forall i', j' :: !FenceAt(text, opener, i', j');
      case Some(j) =>
        assert FenceAt(text, opener, i, j);
  }

  /**
   * `codeMatch[1] || generatedText`: the capture of a ```` ```python ```` block if there is one,
   * else that of a plain ```` ``` ```` block, else the whole text; an empty capture also gives
   * the whole text.
   */
  function ExtractCode(generatedText: string): (code: string)
    ensures
      || code == generatedText
      || (exists i, j :: FenceAt(generatedText, PythonFence, i, j) && code == generatedText[i + |PythonFence|..j])
      || (exists i, j :: FenceAt(generatedText, PlainFence, i, j) && code == generatedText[i + |PlainFence|..j])
    ensures code != generatedText ==> code != ""
  {
    var codeMatch := match FencedBlock(generatedText, PythonFence)
      case Some(c) => Some(c)
      case None => FencedBlock(generatedText, PlainFence);
    if codeMatch.Some? && codeMatch.value != "" then codeMatch.value else generatedText
  }

  /** Which alternative decides: a `python` block, even one with an empty capture, wins over a plain block. */
  lemma ExtractCodeChoice(generatedText: string)
    ensures var python := FencedBlock(generatedText, PythonFence);
      var plain := FencedBlock(generatedText, PlainFence);
      && (python.Some? ==> ExtractCode(generatedText) == if python.value != "" then python.value else generatedText)
      && (python.None? && plain.Some? ==> ExtractCode(generatedText) == if plain.value != "" then plain.value else generatedText)
      && (python.None? && plain.None? ==> ExtractCode(generatedText) == generatedText)
  {
  }

  // ---------------------------------------------------------------------------------------
  // The background prefix
  // ---------------------------------------------------------------------------------------

  const BackgroundSetting: string := "config.background_color"

  /** The import and the comment, the setting, and its value: together the prefix added. */
  const PrefixLead: string := "from manim import *\n\n# Set dark background\n"
  const PrefixValue: string := " = \"#1C1C1C\"\n\n"
  const BackgroundPrefix: string := PrefixLead + BackgroundSetting + PrefixValue

  /** The code, after the dark-background configuration when it sets no background. */
  function WithBackground(code: string): (r: string)
    ensures Contains(code, BackgroundSetting) ==> r == code
    ensures !Contains(code, BackgroundSetting) ==> r == BackgroundPrefix + code
  {
    if Contains(code, BackgroundSetting) then code else BackgroundPrefix + code
  }

  /** Whatever the model answered, the code returned sets the background colour. */
  lemma WithBackgroundSetsColour(code: string)
    ensures Contains(WithBackground(code), BackgroundSetting)
  {
    if !Contains(code, BackgroundSetting) {
      assert BackgroundPrefix + code == PrefixLead + BackgroundSetting + (PrefixValue + code);
      ContainsInfix(PrefixLead, BackgroundSetting, PrefixValue + code);
    }
  }

  /** Adding the configuration once is enough: a second pass changes nothing. */
  lemma WithBackgroundIdempotent(code: string)
    ensures WithBackground(WithBackground(code)) == WithBackground(code)
  {
    WithBackgroundSetsColour(code);
  }

  // ---------------------------------------------------------------------------------------
  // generateManimCode
  // ---------------------------------------------------------------------------------------

  /**
   * How the request to the model ended: a transport error (its message, and the API's own
   * error message when the reply carries one), or a reply with its candidates' first part
   * texts, absent when the reply has no `candidates` array.
   */
  datatype ModelResponse =
    | RequestFailed(message: string, apiMessage: Option<string>)
    | Answered(candidates: Option<seq<string>>)

  /** `generateManimCode`: the key checked first, then the reply, then the post-processing. */
  function GenerateManimCode(apiKey: Option<string>, response: ModelResponse): (r: Result<string, string>)
    ensures r.Success? ==> apiKey.Some? && apiKey.value != "" && Contains(r.value, BackgroundSetting)
    ensures response.RequestFailed? ==> r.Failure?
  {
    if apiKey.None? || apiKey.value == "" then Failure("GEMINI_API_KEY is not set")
    else
      match response
      case RequestFailed(message, apiMessage) =>
        Failure("Gemini API error: " + (if apiMessage.Some? && apiMessage.value != "" then apiMessage.value else message))
      case Answered(candidates) =>
        if candidates.None? || candidates.value == [] then Failure("Invalid response from Gemini API")
        else
          WithBackgroundSetsColour(ExtractCode(candidates.value[0]));
          Success(WithBackground(ExtractCode(candidates.value[0])))
  }

  /**
   * Without a key nothing else matters; a reply without a first candidate is invalid; and a
   * successful result is the first candidate's extracted code, always setting the background.
   */
  lemma GenerateManimCodeOutcome(apiKey: Option<string>, response: ModelResponse)
    ensures apiKey.None? || apiKey.value == "" ==> GenerateManimCode(apiKey, response) == Failure("GEMINI_API_KEY is not set")
    ensures apiKey.Some? && apiKey.value != "" && response.Answered? && (response.candidates.None? || response.candidates.value == []) ==>
      GenerateManimCode(apiKey, response) == Failure("Invalid response from Gemini API")
    ensures GenerateManimCode(apiKey, response).Success? <==>
      apiKey.Some? && apiKey.value != "" && response.Answered? && response.candidates.Some? && response.candidates.value != []
    ensures GenerateManimCode(apiKey, response).Success? ==>
      var code := GenerateManimCode(apiKey, response).value;
      && Contains(code, BackgroundSetting)
      && code == WithBackground(ExtractCode(response.candidates.value[0]))
  {
    if apiKey.Some? && apiKey.value != "" && response.Answered? && response.candidates.Some? && response.candidates.value != [] {
      WithBackgroundSetsColour(ExtractCode(response.candidates.value[0]));
    }
  }
}
