/** The question-generation prompt (appp.py lines 21-33): a fixed system
    instruction followed by a user message into which the candidate's tech
    stack is substituted. The language model itself is a parameter. */
module Prompt {
  import opened Options

  datatype Role = System | User

  datatype Message = Message(role: Role, content: string)

  /** The system instruction of the template. */
  const SystemInstruction: string :=
    "You are a helpful hiring assistant. Ask 3 to 5 technical questions based on the tech stack provided."

  /** The text of the user message that precedes the `{tech_stack}` placeholder. */
  const UserPrefix: string := "Tech Stack: "

  /** The two messages the template produces for a given tech stack. */
  function QuestionPrompt(techStack: string): (p: seq<Message>)
    ensures |p| == 2
    ensures p[0] == Message(System, SystemInstruction)
    ensures p[1].role == User && UserPrefix <= p[1].content
    ensures p[1].content[|UserPrefix|..] == techStack
  {
    [Message(System, SystemInstruction), Message(User, UserPrefix + techStack)]
  }

  /** Reads the substituted tech stack back out of a prompt of the template's
      shape, or None when the prompt does not have that shape. */
  function TechStackOf(p: seq<Message>): (r: Option<string>)
    ensures r.Some? ==> QuestionPrompt(r.value) == p
  {
    if |p| == 2 && p[0] == Message(System, SystemInstruction) && p[1].role == User
       && UserPrefix <= p[1].content
    then
      assert UserPrefix + p[1].content[|UserPrefix|..] == p[1].content;
      Some(p[1].content[|UserPrefix|..])
    else
      None
  }

  /** The tech stack appears verbatim in the prompt: it can be read back. */
  lemma PromptRoundTrip(techStack: string)
    ensures TechStackOf(QuestionPrompt(techStack)) == Some(techStack)
  {
  }

  /** Different tech stacks give different prompts. */
  lemma PromptInjective(t1: string, t2: string)
    ensures QuestionPrompt(t1) == QuestionPrompt(t2) ==> t1 == t2
  {
  }

  /** `generate_questions`: the language model (selected model, credential and
      output parser folded into `llm`) applied to the prompt for `techStack`. */
  function GenerateQuestions(llm: seq<Message> -> string, techStack: string): (q: string)
    ensures exists p :: q == llm(p) && TechStackOf(p) == Some(techStack)
  {
    PromptRoundTrip(techStack);
    llm(QuestionPrompt(techStack))
  }
}
