/** The intake flow of the hiring assistant (appp.py lines 15-93) as values:
    the session record, one function per event that changes it, a step
    function that dispatches on the current stage the way the page does, and
    the properties the flow keeps over any sequence of events. */
module Flow {
  import opened Options

  /** The four values `st.session_state.stage` ever takes. */
  datatype Stage = Intro | TechStack | Questions | Conclude {

    /** The string the page stores for this stage. */
    function Name(): string {
      match this
      case Intro => "intro"
      case TechStack => "tech_stack"
      case Questions => "questions"
      case Conclude => "conclude"
    }

    /** Position in the linear order intro, tech_stack, questions, conclude. */
    function Index(): nat {
      match this
      case Intro => 0
      case TechStack => 1
      case Questions => 2
      case Conclude => 3
    }
  }

  /** `candidate_info`: a dictionary from field names to the entered text. */
  type Info = map<string, string>

  /** The six text inputs of the intro screen (lines 54-59). */
  datatype IntroForm = IntroForm(
    name: string, email: string, phone: string,
    experience: string, position: string, location: string)

  /** The session record: the stage, `candidate_info`, and the separate
      `generated_questions` attribute, absent until the first generation. */
  datatype State = State(stage: Stage, info: Info, questions: Option<string>)

  /** What one interaction with the page does. A press of a button that the
      current run does not create is ignored, so such an event is a plain rerun.
      `GenerateFailed` is a press of "Generate Questions" whose generator call
      raises: the run stops at line 79, after line 77 has stored the text. */
  datatype Event =
    | ResetClicked
    | NextClicked(form: IntroForm)
    | GenerateClicked(techStack: string, generate: string -> string)
    | GenerateFailed(techStack: string)
    | Rerun

  /** The keys the intro screen writes into `candidate_info`. */
  const IntroKeys: set<string> := {"name", "email", "phone", "experience", "position", "location"}

  /** The key the tech-stack screen writes into `candidate_info`. */
  const TechStackKey: string := "tech_stack"

  /** Python truthiness of every required intro field (line 62): each is non-empty.
      The location is optional. */
  predicate RequiredFilled(f: IntroForm) {
    f.name != "" && f.email != "" && f.phone != "" && f.experience != "" && f.position != ""
  }

  /** The dictionary passed to `candidate_info.update` (lines 63-66). */
  function FormFields(f: IntroForm): Info {
    map["name" := f.name, "email" := f.email, "phone" := f.phone,
        "experience" := f.experience, "position" := f.position, "location" := f.location]
  }

  /** The first run of the page (lines 16-18). */
  function Initial(): (s: State)
    ensures s.stage == Intro && s.info == map[] && s.questions == None
  {
    State(Intro, map[], None)
  }

  /** `reset` (lines 44-46): back to intro with an empty `candidate_info`;
      `generated_questions` is not touched. */
  function Cleared(s: State): (r: State)
    ensures r.stage == Intro && r.info == map[]
    ensures r.questions == s.questions
  {
    s.(stage := Intro, info := map[])
  }

  /** "Next" on the intro screen (lines 61-69). */
  function IntroSubmitted(s: State, f: IntroForm): (r: State)
    requires s.stage == Intro
    ensures !RequiredFilled(f) ==> r == s
    ensures RequiredFilled(f) ==> r.stage == TechStack && r.questions == s.questions
    ensures RequiredFilled(f) ==>
      && r.info.Keys == s.info.Keys + IntroKeys
      && r.info["name"] == f.name && r.info["email"] == f.email
      && r.info["phone"] == f.phone && r.info["experience"] == f.experience
      && r.info["position"] == f.position && r.info["location"] == f.location
    ensures forall k :: k in s.info && k !in IntroKeys ==> k in r.info && r.info[k] == s.info[k]
  {
    if RequiredFilled(f) then s.(stage := TechStack, info := s.info + FormFields(f)) else s
  }

  /** "Generate Questions" on the tech-stack screen (lines 75-83). */
  function TechStackSubmitted(s: State, techStack: string, generate: string -> string): (r: State)
    requires s.stage == TechStack
    ensures techStack == "" ==> r == s
    ensures techStack != "" ==>
      && r.stage == Questions
      && r.questions == Some(generate(techStack))
      && r.info.Keys == s.info.Keys + {TechStackKey}
      && r.info[TechStackKey] == techStack
    ensures forall k :: k in s.info && k != TechStackKey ==> k in r.info && r.info[k] == s.info[k]
  {
    if techStack != "" then
      s.(stage := Questions, info := s.info[TechStackKey := techStack], questions := Some(generate(techStack)))
    else
      s
  }

  /** "Generate Questions" with non-empty text when the generator raises
      (lines 76-79): the text is already stored, nothing after line 79 runs. */
  function GenerationFailed(s: State, techStack: string): (r: State)
    requires s.stage == TechStack
    ensures techStack == "" ==> r == s
    ensures techStack != "" ==>
      && r.stage == TechStack && r.questions == s.questions
      && r.info.Keys == s.info.Keys + {TechStackKey}
      && r.info[TechStackKey] == techStack
    ensures forall k :: k in s.info && k != TechStackKey ==> k in r.info && r.info[k] == s.info[k]
  {
    if techStack != "" then s.(info := s.info[TechStackKey := techStack]) else s
  }

  /** Rendering the questions screen (lines 85-88) moves on to conclude. */
  function QuestionsShown(s: State): (r: State)
    requires s.stage == Questions
    ensures r.stage == Conclude && r.info == s.info && r.questions == s.questions
  {
    s.(stage := Conclude)
  }

  /** A run of the page in which no button of the current screen is pressed:
      only the questions screen changes anything (lines 85-93). */
  function Rendered(s: State): (r: State)
    ensures s.stage == Questions ==> r.stage == Conclude
    ensures s.stage != Questions ==> r == s
    ensures r.info == s.info && r.questions == s.questions
  {
    if s.stage == Questions then QuestionsShown(s) else s
  }

  /** One interaction: the reset callback, or the screen of the current stage
      (the `if`/`elif` chain of lines 51-93). Apart from reset the stage stays
      or moves one step forward. */
  function Step(s: State, e: Event): (r: State)
    ensures e.ResetClicked? ==> r.stage == Intro && r.info == map[]
    ensures !e.ResetClicked? ==> r.stage == s.stage || r.stage.Index() == s.stage.Index() + 1
  {
    match e
    case ResetClicked => Cleared(s)
    case NextClicked(f) =>
      if s.stage == Intro then IntroSubmitted(s, f) else Rendered(s)
    case GenerateClicked(t, g) =>
      if s.stage == TechStack then TechStackSubmitted(s, t, g) else Rendered(s)
    case GenerateFailed(t) =>
      if s.stage == TechStack then GenerationFailed(s, t) else Rendered(s)
    case Rerun => Rendered(s)
  }

  /** The state after a sequence of interactions, in order. */
  function Run(s: State, es: seq<Event>): State
    decreases |es|
  {
    if es == [] then s else Run(Step(s, es[0]), es[1..])
  }

  /** The five required intro fields are present and non-empty. */
  predicate RequiredStored(info: Info) {
    && "name" in info && info["name"] != ""
    && "email" in info && info["email"] != ""
    && "phone" in info && info["phone"] != ""
    && "experience" in info && info["experience"] != ""
    && "position" in info && info["position"] != ""
  }

  /** What every reachable session satisfies. Past intro the name the
      tech-stack screen reads unguarded (line 72) is there; at tech_stack a
      failed generation may have stored the text already; on the questions
      and conclude screens so are the tech stack and the questions that
      line 87 reads unguarded. */
  predicate Inv(s: State) {
    && (s.stage == Intro ==> s.info == map[])
    && (s.stage != Intro ==> RequiredStored(s.info))
    && (s.stage == TechStack ==> IntroKeys <= s.info.Keys <= IntroKeys + {TechStackKey})
    && (s.stage.Index() >= 2 ==>
          && s.info.Keys == IntroKeys + {TechStackKey}
          && s.info[TechStackKey] != ""
          && s.questions.Some?)
  }

  /** No event of the sequence is a reset. */
  predicate NoReset(es: seq<Event>) {
    forall i :: 0 <= i < |es| ==> !es[i].ResetClicked?
  }

  lemma InitialSatisfiesInv()
    ensures Inv(Initial())
  {
  }

  /** Every interaction keeps the invariant. */
  lemma StepPreservesInv(s: State, e: Event)
    requires Inv(s)
    ensures Inv(Step(s, e))
  {
  }

  /** Any sequence of interactions keeps the invariant. */
  lemma {:induction false} RunPreservesInv(s: State, es: seq<Event>)
    requires Inv(s)
    ensures Inv(Run(s, es))
    decreases |es|
  {
    if es != [] {
      StepPreservesInv(s, es[0]);
      RunPreservesInv(Step(s, es[0]), es[1..]);
    }
  }

  /** Every session the page can reach satisfies the invariant; in particular
      `candidate_info["name"]` exists and is non-empty whenever the stage is
      past intro, and the questions exist on the last two screens. */
  lemma ReachableSatisfiesInv(es: seq<Event>)
    ensures Inv(Run(Initial(), es))
  {
    InitialSatisfiesInv();
    RunPreservesInv(Initial(), es);
  }

  /** Without a reset the stage never moves backwards. */
  lemma {:induction false} RunWithoutResetIsMonotone(s: State, es: seq<Event>)
    requires NoReset(es)
    ensures Run(s, es).stage.Index() >= s.stage.Index()
    decreases |es|
  {
    if es != [] {
      assert !es[0].ResetClicked?;
      assert NoReset(es[1..]) by {
        forall i | 0 <= i < |es[1..]| ensures !es[1..][i].ResetClicked? {
          assert es[1..][i] == es[i + 1];
        }
      }
      RunWithoutResetIsMonotone(Step(s, es[0]), es[1..]);
    }
  }

  /** Conclude is terminal: only a reset leaves it. */
  lemma {:induction false} ConcludeIsTerminal(s: State, es: seq<Event>)
    requires s.stage == Conclude && NoReset(es)
    ensures Run(s, es) == s
    decreases |es|
  {
    if es != [] {
      assert !es[0].ResetClicked?;
      assert Step(s, es[0]) == s;
      assert NoReset(es[1..]) by {
        forall i | 0 <= i < |es[1..]| ensures !es[1..][i].ResetClicked? {
          assert es[1..][i] == es[i + 1];
        }
      }
      ConcludeIsTerminal(s, es[1..]);
    }
  }

  /** The questions screen is only ever entered by a successful generation,
      and shows that generation's result: questions left over from before a
      reset are never displayed. */
  lemma EnterQuestionsIsFreshGeneration(s: State, e: Event)
    requires s.stage != Questions && Step(s, e).stage == Questions
    ensures e.GenerateClicked? && e.techStack != ""
    ensures Step(s, e).questions == Some(e.generate(e.techStack))
  {
  }

  /** A reset after any history gives the same session as a reset after
      another reset: applying it twice equals applying it once. */
  lemma ResetIdempotent(s: State)
    ensures Cleared(Cleared(s)) == Cleared(s)
  {
  }

  /** On a reachable session the intro screen's "Next" stores exactly the six
      submitted values: `candidate_info` is empty whenever the stage is intro. */
  lemma {:induction false} ReachableNextStoresExactlyForm(es: seq<Event>, f: IntroForm)
    requires Run(Initial(), es).stage == Intro && RequiredFilled(f)
    ensures IntroSubmitted(Run(Initial(), es), f).info == FormFields(f)
  {
    ReachableSatisfiesInv(es);
  }

  /** The walk-through of a successful screening: a valid intro form (empty
      location), a tech stack, the questions screen, and then nothing more. */
  lemma ScreeningScenario(reply: string)
    ensures
      var f := IntroForm("Jane Doe", "jane@x.com", "555-0100", "3", "Backend Engineer", "");
      var t := "Python, Docker, PostgreSQL";
      var s1 := Run(Initial(), [NextClicked(f)]);
      var s2 := Run(s1, [GenerateClicked(t, _ => reply)]);
      var s3 := Run(s2, [Rerun]);
      && s1.stage == TechStack && s1.info == FormFields(f)
      && s2.stage == Questions && s2.questions == Some(reply) && s2.info[TechStackKey] == t
      && s3.stage == Conclude && s3.questions == Some(reply)
  {
  }
}
