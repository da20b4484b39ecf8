/**
  The prompt assembly of the LLM service (backend/app/services/llm_service.py,
  `_build_prompt`): a base instruction, an optional context block, the question and a
  closing "Response:" cue, joined by newlines.
*/
module LlmService {
  import opened Wrappers
  import opened Text

  /** The instruction used when no custom prompt is given. */
  const DefaultPrompt := "You are a helpful AI assistant. Answer the user's question based on the provided context and your knowledge."

  /** Python truthiness of an optional string: present and non-empty. */
  predicate IsSet(s: Option<string>) {
    s.Some? && s.value != ""
  }

  /** The parts `_build_prompt` collects, in order, before joining them. */
  function PromptParts(query: string, context: Option<string>, customPrompt: Option<string>): (parts: seq<string>)
    ensures |parts| == if IsSet(context) then 4 else 3
    ensures parts[0] == if IsSet(customPrompt) then customPrompt.value else DefaultPrompt
    ensures IsSet(context) ==> parts[1] == "\nContext:\n" + context.value
    ensures parts[|parts| - 2] == "\nUser Question: " + query
    ensures parts[|parts| - 1] == "\nResponse:"
  {
    var base := if IsSet(customPrompt) then customPrompt.value else DefaultPrompt;
    var withContext := if IsSet(context) then [base, "\nContext:\n" + context.value] else [base];
    withContext + ["\nUser Question: " + query, "\nResponse:"]
  }

  /**
    `_build_prompt`: appends the parts to a list and joins them with "\n". The result is
    the base, the optional context block, the question and the cue, each after a newline.
  */
  method BuildPrompt(query: string, context: Option<string>, customPrompt: Option<string>) returns (prompt: string)
    ensures prompt == JoinWith(PromptParts(query, context, customPrompt), "\n")
  {
    var basePrompt := if IsSet(customPrompt) then customPrompt.value else DefaultPrompt;
    var promptParts := [basePrompt];
    if IsSet(context) {
      promptParts := promptParts + ["\nContext:\n" + context.value];
    }
    promptParts := promptParts + ["\nUser Question: " + query];
    promptParts := promptParts + ["\nResponse:"];
    assert promptParts == PromptParts(query, context, customPrompt);
    prompt := JoinWith(promptParts, "\n");
  }

  /** The prompt always ends with the "Response:" cue on a line of its own. */
  lemma PromptEndsWithCue(query: string, context: Option<string>, customPrompt: Option<string>)
    ensures var prompt := JoinWith(PromptParts(query, context, customPrompt), "\n");
      |prompt| >= 11 && prompt[|prompt| - 11..] == "\n\nResponse:"
  {
    var parts := PromptParts(query, context, customPrompt);
    var init := parts[..|parts| - 1];
    assert parts == init + ["\nResponse:"];
    JoinWithAppend(init, "\nResponse:", "\n");
    var prompt := JoinWith(parts, "\n");
    assert prompt == JoinWith(init, "\n") + "\n\nResponse:";
  }

  /** The question appears verbatim in the prompt. */
  lemma PromptContainsQuery(query: string, context: Option<string>, customPrompt: Option<string>)
    ensures Contains(JoinWith(PromptParts(query, context, customPrompt), "\n"), query)
  {
    var parts := PromptParts(query, context, customPrompt);
    var question := parts[|parts| - 2];
    JoinContainsPart(parts, "\n", |parts| - 2);
    ContainsMiddle("\nUser Question: ", query, []);
    assert "\nUser Question: " + query + [] == question;
    ContainsTransitive(JoinWith(parts, "\n"), question, query);
  }

  /** The prompt starts with the custom prompt when one is set, and with the default otherwise. */
  lemma PromptStartsWithBase(query: string, context: Option<string>, customPrompt: Option<string>)
    ensures var prompt := JoinWith(PromptParts(query, context, customPrompt), "\n");
      var base := if IsSet(customPrompt) then customPrompt.value else DefaultPrompt;
      |base| <= |prompt| && prompt[..|base|] == base
  {
    var parts := PromptParts(query, context, customPrompt);
    assert JoinWith(parts, "\n") == parts[0] + "\n" + JoinWith(parts[1..], "\n");
  }
}
