# TalentScout intake flow, modelled in Dafny

TalentScout is a Streamlit page that screens a job candidate in four stages:
`intro` (contact details), `tech_stack` (free-text skills), `questions` (interview
questions generated by a language model from the tech stack) and `conclude`.
The session record holds the `stage`, a `candidate_info` dictionary and, once a
generation has happened, a separate `generated_questions` attribute.

The project models that flow controller:

- `options.dfy` — `Options.Option`, used for the `generated_questions` attribute that
  does not exist before the first generation.
- `prompt.dfy` — module `Prompt`: the two-message prompt template and
  `generate_questions`, with the language model as a parameter `llm`.
- `flow.dfy` — module `Flow`: the session record as a value (`State`), one function
  per event (`Initial`, `Cleared`, `IntroSubmitted`, `TechStackSubmitted`, `GenerationFailed`,
  `QuestionsShown`), `Step`, which dispatches on the stage like the page's
  `if`/`elif` chain, `Run` over a sequence of events, the invariant `Inv` that
  every reachable session satisfies, and the lemmas about them.
- `session.dfy` — module `Sessions`: class `Session`, the mutable session object,
  with one method per event. Each method's `ensures` equates the new record with
  the matching `Flow` function of the old record and re-establishes `Valid()`,
  which is `Flow.Inv`. The method `Screening` is a client that walks through a
  successful screening using only the contracts.

Modelling choices:

- "Non-empty" is Python truthiness of a string: a whitespace-only entry counts as filled.
- The question generator is an arbitrary function `string -> string`, passed on every
  "Generate Questions" call. This allows the sidebar's model and key, or the model's
  answer, to differ from one call to the next. Its result is stored unexamined.
- The ghost field `Session.generatorInputs` records each text handed to the generator.
  It lets the contracts say that the generator is called once, with exactly the
  entered text, and not at all when the text is empty.
- A press of a button that the current run of the page does not create is ignored;
  such an event is a plain rerun (`Flow.Rendered`). Only the questions screen
  changes state on a rerun.

Behaviour of the code the model keeps:

- `generated_questions` is a session attribute (appp.py line 80), not a key of
  `candidate_info`.
- `reset` clears only `stage` and `candidate_info`; a stale `generated_questions`
  survives it. It is never shown again before being overwritten: the questions
  stage is entered only by a successful generation, which stores its own result
  (`Flow.EnterQuestionsIsFreshGeneration`).
- The intro screen merges with `dict.update`, so keys already present are kept
  (`Flow.IntroSubmitted`). On every reachable session `candidate_info` is empty at
  the intro stage, so there the merge stores exactly the six submitted values
  (`Flow.ReachableNextStoresExactlyForm`).
- The tech stack is stored (line 77) before the generator is called (line 79). A
  generator that raises ends the run there, leaving the text stored and the stage
  at tech_stack (`Flow.GenerationFailed`, event `GenerateFailed`); the invariant
  allows that extra key on the tech_stack screen.

## Model

| member | source | states |
|---|---|---|
| `Prompt.QuestionPrompt` | appp.py:21-24 | the prompt is a system message with the fixed instruction, then a user message made of the "Tech Stack: " prefix followed by the tech stack |
| `Prompt.TechStackOf` | appp.py:21-24 | any prompt it reads a tech stack from is exactly the template's prompt for that tech stack |
| `Prompt.PromptRoundTrip` | appp.py:21-24 | the tech stack is embedded verbatim: reading it back from its prompt returns it |
| `Prompt.PromptInjective` | appp.py:21-24 | different tech stacks give different prompts |
| `Prompt.GenerateQuestions` | appp.py:27-33 | the questions are the model's answer to a prompt from which exactly the given tech stack is read back |
| `Flow.Initial` | appp.py:16-18 | a fresh session is at intro with an empty `candidate_info` and no questions |
| `Flow.InitialSatisfiesInv` | appp.py:16-18 | the fresh session satisfies the invariant |
| `Flow.Cleared` | appp.py:44-46 | reset gives stage intro and an empty `candidate_info`, whatever the stage and contents before; `generated_questions` is kept |
| `Flow.EnterQuestionsIsFreshGeneration` | appp.py:76-88 | the questions stage is entered only by a successful "Generate Questions" with non-empty text, and the stored questions are that generation's result, so questions from before a reset are never shown |
| `Flow.ResetIdempotent` | appp.py:44-46 | resetting twice equals resetting once |
| `Flow.IntroSubmitted` | appp.py:61-69 | with a required field empty nothing changes; otherwise the stage becomes tech_stack, the six keys map to the submitted values (location may be empty), other keys are kept and the questions are untouched |
| `Flow.TechStackSubmitted` | appp.py:75-83 | empty text changes nothing; non-empty text is stored under `tech_stack`, the questions become the generator's result for exactly that text, the stage becomes questions, and other keys are kept |
| `Flow.GenerationFailed` | appp.py:76-79 | when the generator raises on non-empty text, the text is already stored under `tech_stack`, the stage stays tech_stack, the questions are untouched and other keys are kept; empty text changes nothing |
| `Flow.QuestionsShown` | appp.py:85-88 | rendering the questions screen moves to conclude and changes nothing else |
| `Flow.Rendered` | appp.py:85-93 | a rerun advances questions to conclude and changes nothing on any other screen |
| `Flow.Step` | appp.py:44-93 | a reset gives intro with empty `candidate_info`; every other event keeps the stage or moves it exactly one step forward |
| `Flow.StepPreservesInv` | appp.py:51-93 | every event keeps the invariant: empty info at intro; the five required fields present and non-empty past intro; the six intro keys, and possibly a `tech_stack` left by a failed generation, at tech_stack; the six plus a non-empty `tech_stack` and stored questions at questions and conclude |
| `Flow.RunPreservesInv` | appp.py:51-93 | any sequence of events keeps the invariant |
| `Flow.ReachableSatisfiesInv` | appp.py:72 | every reachable session satisfies the invariant, so the unguarded read of `candidate_info['name']` at line 72 and of `generated_questions` at line 87 always succeed |
| `Flow.RunWithoutResetIsMonotone` | appp.py:51-93 | without a reset the stage never moves backwards |
| `Flow.ConcludeIsTerminal` | appp.py:90-93 | from conclude, any sequence of events without a reset leaves the session unchanged |
| `Flow.ReachableNextStoresExactlyForm` | appp.py:62-67 | on a reachable intro session a valid "Next" makes `candidate_info` exactly the six submitted fields |
| `Flow.ScreeningScenario` | appp.py:51-88 | a valid intro form with an empty location reaches tech_stack, a tech stack then reaches questions with the generator's reply stored, and a rerun reaches conclude |
| `Sessions.Session.constructor` | appp.py:16-18 | the new session is the initial record and satisfies the invariant |
| `Sessions.Session.Reset` | appp.py:44-46 | stage becomes intro and `candidate_info` empty; `generated_questions` and the generator log are unchanged; the new record is `Flow.Cleared` of the old one |
| `Sessions.Session.SubmitIntro` | appp.py:61-69 | warns exactly when a required field is empty, and then changes nothing; the new record is `Flow.IntroSubmitted` of the old one; the invariant is kept |
| `Sessions.Session.SubmitTechStack` | appp.py:75-83 | warns exactly when the text is empty, and then changes nothing and calls no generator; otherwise calls the generator once with that text, stores its result and moves to questions; the new record is `Flow.TechStackSubmitted` of the old one |
| `Sessions.Session.ShowQuestions` | appp.py:85-88 | returns the stored questions and moves to conclude; the new record is `Flow.QuestionsShown` of the old one |
| `Sessions.Session.Greeting` | appp.py:72 | on the tech-stack screen the name is present and non-empty |
| `Sessions.Screening` | appp.py:51-93 | a client that goes from a fresh session through both forms to the questions screen, with `generate_questions` over a language model as the generator, is shown exactly the model's answer to the prompt carrying the entered tech stack |

## Left out

- Rendering: titles, text inputs, buttons, spinner, success and warning messages, and the closing text of the conclude screen (appp.py lines 36-42, 52-59, 69, 83, 86-87, 91-93). A validation warning is modelled as a returned flag with the state unchanged.
- The language-model pipeline inside `generate_questions`: `genai.configure`, the `ChatGoogleGenerativeAI` client and the output parser (lines 28-32) are foreign library and network calls. The model is the parameter `llm`, and the flow sees the generator only as a function from tech stack to text.
- Generator failure: the page does not catch exceptions at line 79, so no recovery behaviour is promised or modelled beyond the state the aborted run leaves (`Flow.GenerationFailed`). Class `Session` has no method for a raising generator, since its generator is a total function; the failed run exists only as the `Flow` event `GenerateFailed`.
- The sidebar: API key, model choice, and the temperature and max-tokens sliders (lines 39-42). The sliders are never passed to the generator; the key and model are folded into the generator parameter.
- Environment variables, the tracing settings and `load_dotenv` (lines 9-13): configuration I/O.
- The commented-out model-listing code (lines 95-105): dead code.
- Streamlit's rerun mechanics: each event is one complete run of the page; the guard of line 16 that skips initialisation on later runs is modelled by creating the session once.
