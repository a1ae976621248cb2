/** The processes the scripts start, as the model records them. */
module Processes {

  /** A process invocation, as its argument vector. */
  type Command = seq<string>
}
