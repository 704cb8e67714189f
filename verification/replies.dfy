/**
 * What a backend handler answers: a success value or one of the source's
 * error details, together with the state the handler leaves behind.
 */
module Replies {
  import opened Store

  /** Every error a handler raises, one constructor per distinct detail text. */
  datatype Failure =
    | MessageEmpty
    | AnswersMissing
    | FieldsMissing
    | SignupFieldsMissing
    | PasswordsDiffer
    | PasswordTooShort
    | UsernameTaken
    | CredentialsMissing
    | CredentialsInvalid
    | NotLoggedIn
    | NothingToSave
    | EmailMissing
    | EmailUnknown
    | GenerationFailed(reason: string)
    | MissingChatList
  {
    /** The `detail` text the handler puts in its error response. */
    function Detail(): string {
      match this
      case MessageEmpty => "Message cannot be empty"
      case AnswersMissing => "Please answer all questions"
      case FieldsMissing => "Please fill both fields"
      case SignupFieldsMissing => "Please fill all fields"
      case PasswordsDiffer => "Passwords don't match"
      case PasswordTooShort => "Password must be at least 6 characters"
      case UsernameTaken => "Username already exists"
      case CredentialsMissing => "Please enter username and password"
      case CredentialsInvalid => "Invalid username or password"
      case NotLoggedIn => "Please login to save chats"
      case NothingToSave => "No chat to save"
      case EmailMissing => "Please enter your email"
      case EmailUnknown => "Email not found"
      case GenerationFailed(reason) => "Error: " + reason
      case MissingChatList => "Internal Server Error"
    }

  }

  /** The non-error answer of a save that finds nothing new since the last one; the Gradio app and the handler share it. */
  const AlreadySavedNotice: string := "Chat already saved"

  datatype Response<+T> = Ok(value: T) | Fail(failure: Failure)

  /** A handler's reply and the backend state after it. */
  datatype Step<+T> = Step(reply: Response<T>, state: Backend)

  /**
   * The outcome of the external text-generation call: its text, or the message
   * of the exception it raised (a missing API key counts as such an exception).
   */
  datatype Generation = Generated(text: string) | Raised(reason: string)
}
