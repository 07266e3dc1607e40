/**
 * The shared client/server records: a selectable bot as the client sees it,
 * and one chat message.
 */
module Types {
  import opened Wrappers

  /** Who wrote a message: the signed-in user or the persona bot. */
  datatype Sender = FromUser | FromBot

  /**
   * A chat message. `content` is declared a string, but the client stores
   * whatever the chat endpoint's `reply` field held, which is absent when the
   * endpoint answered with an error: hence `Option<string>`.
   * `id` and `timestamp` come from the clock and are opaque here.
   */
  datatype Message = Message(id: string, content: Option<string>, sender: Sender, timestamp: int)

  /**
   * A bot as listed to the client: a persona without its private template.
   * Ids are declared strings but are numbers at run time and are compared
   * with loose equality, so they are integers here.
   */
  datatype Bot = Bot(
    id: int,
    name: string,
    tagline: string,
    avatarUrl: string,
    isOnline: bool,
    personalityProfile: string)
}
