/** An optional value: the session's `generated_questions` attribute, which
    does not exist until the first generation, and a value recovered from a prompt. */
module Options {

  datatype Option<+T> = None | Some(value: T)
}
