/**
 * The record shapes the client and the server exchange (the JSON bodies of
 * `/api/users` and `/api/conversations`), and the reply of a request
 * handler: a body, or an HTTP error status with its cause.
 */
module Records {

  datatype Option<T> = None | Some(value: T)

  /** `PersonalityData`: the persona of an AI clone. */
  datatype Personality = Personality(
    name: string,
    communicationStyle: string,
    interests: seq<string>,
    personalityTraits: seq<string>,
    favoriteTopics: seq<string>,
    speakingQuirks: string,
    background: string)

  /** `User`: a persona registered under an id and a username. */
  datatype User = User(userId: string, username: string, personality: Personality, createdAt: string)

  /** One line of a generated conversation. */
  datatype Message = Message(speaker: string, message: string, timestamp: string)

  /** A stored conversation document; `topic` is `None` when the request sent `null`. */
  datatype Conversation = Conversation(
    conversationId: string,
    user1Id: string,
    user2Id: string,
    topic: Option<string>,
    messages: seq<Message>,
    createdAt: string)

  /** The usernames of a conversation's two participants, as listed to clients. */
  datatype Participants = Participants(user1: string, user2: string)

  /** A stored conversation together with the `participants` field added on listing. */
  datatype Listed = Listed(conversation: Conversation, participants: Participants)

  /**
   * What made a handler fail: an `HTTPException` it raised itself, or an
   * exception thrown by a collaborator (the language model).
   */
  datatype Cause = Raised(status: nat, detail: string) | Fault

  /** The outcome of a request handler: a body, or an HTTP error. */
  datatype Reply<T> = Ok(body: T) | Error(status: nat, context: string, cause: Cause)
}
