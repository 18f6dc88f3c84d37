/**
 * The language-model service, which the model does not interpret. A run of an
 * orchestration loop numbers its calls 0, 1, 2, ...; the oracle gives the
 * outcome of each call from its number and its request, so two calls with the
 * same request may get different replies, as with a sampling model.
 */
module Backend {
  import opened Wrappers

  /**
   * A chat-completion request: the system prompt, earlier turns of the
   * conversation as (user message, assistant reply) pairs, and the new user
   * message. Sampling settings (model name, temperature, token limit) are not
   * part of the model.
   */
  datatype Request = Request(system: string, history: seq<(string, string)>, user: string)

  /** A request with no earlier turns. */
  function Ask(system: string, user: string): (r: Request)
    ensures r.system == system && r.history == [] && r.user == user
  {
    Request(system, [], user)
  }

  /** `Ok(text)` for a returned completion, `Err(message)` for a raised exception. */
  type Reply = Result<string, string>

  type Oracle = (nat, Request) -> Reply
}
