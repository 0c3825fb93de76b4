/** The session object of the page (`st.session_state`, appp.py lines 15-93),
    updated in place by one method per event. Each method is specified by the
    matching function of module Flow applied to the old state, and keeps the
    invariant Flow.Inv. */
module Sessions {
  import opened Options
  import opened Flow
  import Prompt

  class Session {
    var stage: Stage
    var candidateInfo: map<string, string>
    var generatedQuestions: Option<string>
    /** The tech-stack texts handed to the question generator, in order. */
    ghost var generatorInputs: seq<string>

    /** The session record as a value. */
    function Record(): State
      reads this
    {
      State(stage, candidateInfo, generatedQuestions)
    }

    ghost predicate Valid()
      reads this
    {
      Inv(Record())
    }

    /** Lines 16-18: the first run creates the stage and an empty `candidate_info`. */
    constructor ()
      ensures Valid()
      ensures Record() == Initial() && generatorInputs == []
    {
      stage := Intro;
      candidateInfo := map[];
      generatedQuestions := None;
      generatorInputs := [];
    }

    /** The sidebar's reset callback (lines 44-46), available on every screen. */
    method Reset()
      modifies this
      ensures Valid()
      ensures stage == Intro && candidateInfo == map[]
      ensures generatedQuestions == old(generatedQuestions)
      ensures Record() == Cleared(old(Record()))
      ensures generatorInputs == old(generatorInputs)
    {
      stage := Intro;
      candidateInfo := map[];
    }

    /** "Next" on the intro screen (lines 61-69). `warned` is the validation
        warning of line 69. */
    method SubmitIntro(name: string, email: string, phone: string,
                       experience: string, position: string, location: string)
      returns (warned: bool)
      requires Valid() && stage == Intro
      modifies this
      ensures Valid()
      ensures warned <==> !RequiredFilled(IntroForm(name, email, phone, experience, position, location))
      ensures warned ==> Record() == old(Record())
      ensures Record() == IntroSubmitted(old(Record()), IntroForm(name, email, phone, experience, position, location))
      ensures generatorInputs == old(generatorInputs)
    {
      var form := IntroForm(name, email, phone, experience, position, location);
      if name != "" && email != "" && phone != "" && experience != "" && position != "" {
        candidateInfo := candidateInfo + FormFields(form);
        stage := TechStack;
        warned := false;
      } else {
        warned := true;
      }
      StepPreservesInv(old(Record()), NextClicked(form));
    }

    /** "Generate Questions" on the tech-stack screen (lines 75-83). The
        generator stands for `generate_questions` with the sidebar's current
        model and key; it is called once, with exactly `techStack`, when the
        text is non-empty, and not at all otherwise. */
    method SubmitTechStack(techStack: string, generate: string -> string)
      returns (warned: bool)
      requires Valid() && stage == TechStack
      modifies this
      ensures Valid()
      ensures warned <==> techStack == ""
      ensures warned ==> Record() == old(Record()) && generatorInputs == old(generatorInputs)
      ensures !warned ==> generatorInputs == old(generatorInputs) + [techStack]
      ensures !warned ==> stage == Questions && generatedQuestions == Some(generate(techStack))
      ensures Record() == TechStackSubmitted(old(Record()), techStack, generate)
    {
      if techStack != "" {
        candidateInfo := candidateInfo[TechStackKey := techStack];
        var questions := generate(techStack);
        generatorInputs := generatorInputs + [techStack];
        generatedQuestions := Some(questions);
        stage := Questions;
        warned := false;
      } else {
        warned := true;
      }
      StepPreservesInv(old(Record()), GenerateClicked(techStack, generate));
    }

    /** Rendering the questions screen (lines 85-88): returns the questions it
        displays and moves on to conclude without waiting for the user. */
    method ShowQuestions() returns (shown: string)
      requires Valid() && stage == Questions
      modifies this
      ensures Valid()
      ensures old(generatedQuestions) == Some(shown)
      ensures Record() == QuestionsShown(old(Record()))
      ensures generatorInputs == old(generatorInputs)
    {
      shown := generatedQuestions.value;
      stage := Conclude;
    }

    /** Rendering the tech-stack screen (line 72): the greeting reads
        `candidate_info["name"]` without a guard, which the invariant makes safe. */
    method Greeting() returns (name: string)
      requires Valid() && stage == TechStack
      ensures name == candidateInfo["name"] && name != ""
    {
      name := candidateInfo["name"];
    }
  }

  /** A client: the walk-through of a successful screening, started from a
      fresh session, with `generate_questions` over the language model `llm`
      as the generator. Only the contracts are used. The questions shown are
      the model's answer to the prompt that carries the entered tech stack. */
  method Screening(llm: seq<Prompt.Message> -> string) returns (shown: string)
    ensures shown == llm(Prompt.QuestionPrompt("Python, Docker, PostgreSQL"))
  {
    var session := new Session();
    var warned := session.SubmitIntro("Jane Doe", "jane@x.com", "555-0100", "3", "Backend Engineer", "");
    assert !warned && session.stage == TechStack;
    var name := session.Greeting();
    assert name == "Jane Doe";
    warned := session.SubmitTechStack("Python, Docker, PostgreSQL", t => Prompt.GenerateQuestions(llm, t));
    assert !warned && session.generatorInputs == ["Python, Docker, PostgreSQL"];
    shown := session.ShowQuestions();
    assert session.stage == Conclude;
    session.Reset();
    assert session.stage == Intro && session.candidateInfo == map[];
  }
}
