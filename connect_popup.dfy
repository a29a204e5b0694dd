/** `ConnectPopup.tsx`: the dialog in which a user writes why they want to
    connect and sends the connection request. */
module ConnectPopup {
  import opened Wrappers
  import opened Text
  import opened UserModel
  import ConnectionService

  const MESSAGE_REQUIRED := "Message is required"
  const SEND_FAILED := "Failed to send connection request"

  /** How the `createConnectionRequest` call settled: `Failed` carries the
      server's `message`, "" when the answer had none. */
  datatype SendOutcome = Delivered | Failed(message: string)

  /** The body sent: the target's id and the trimmed message. */
  function RequestFor(targetUserId: UserId, message: string): (request: ConnectionService.CreateConnectionRequestDto)
    ensures request.toUserId == targetUserId && request.message == Some(JsTrim(message))
  {
    ConnectionService.CreateConnectionRequestDto(targetUserId, Some(JsTrim(message)))
  }

  /** A `createConnectionRequest(fromUserId, body)` call: who sends and what. */
  datatype SentRequest = SentRequest(fromUserId: UserId, body: ConnectionService.CreateConnectionRequestDto)

  /** The submit button is enabled when nothing is in flight and the message
      is not blank. */
  predicate SubmitEnabled(isLoading: bool, message: string) {
    !isLoading && !JsBlank(message)
  }

  /** The button's `disabled={isLoading || !message.trim()}`, negated. */
  lemma SubmitEnabledIff(isLoading: bool, message: string)
    ensures SubmitEnabled(isLoading, message) <==> !isLoading && JsTrim(message) != []
  {
    JsBlankIff(message);
  }

  /** A message the popup sends is non-blank and already trimmed, so the
      backend, which stores it as given, never stores a blank message from here. */
  lemma SentMessageIsTrimmedAndNotBlank(targetUserId: UserId, message: string)
    requires !JsBlank(message)
    ensures var m := RequestFor(targetUserId, message).message.value;
            m != [] && JsTrim(m) == m && !JsBlank(m)
  {
    JsBlankIff(message);
    TrimIdempotent(message, IsJsSpace);
    JsBlankIff(JsTrim(message));
  }

  /** The error shown after a failed send. */
  function FailureText(serverMessage: string): (text: string)
    ensures text != ""
    ensures serverMessage != "" ==> text == serverMessage
  {
    if serverMessage != "" then serverMessage else SEND_FAILED
  }

  class ConnectPopupState {
    var message: string
    var isLoading: bool
    var error: string
    /** `targetUser.userId` and `currentUserId`. */
    const targetUserId: UserId
    const currentUserId: UserId

    constructor (targetUserId: UserId, currentUserId: UserId)
      ensures message == "" && !isLoading && error == ""
      ensures this.targetUserId == targetUserId && this.currentUserId == currentUserId
    {
      message := "";
      isLoading := false;
      error := "";
      this.targetUserId := targetUserId;
      this.currentUserId := currentUserId;
    }

    /** The textarea's `onChange`. */
    method SetMessage(value: string)
      modifies this`message
      ensures message == value
    {
      message := value;
    }

    /** `handleSubmit`, with `outcome` how the create call settled. Returns
        the call made, if any (sent on behalf of `currentUserId`), and
        whether `onSuccess` and `onClose` were called. */
    method HandleSubmit(outcome: SendOutcome)
      returns (sent: Option<SentRequest>, notified: bool)
      modifies this`message, this`isLoading, this`error
      ensures JsBlank(old(message)) ==>
                sent.None? && !notified && error == MESSAGE_REQUIRED &&
                message == old(message) && isLoading == old(isLoading)
      ensures !JsBlank(old(message)) ==> sent == Some(SentRequest(currentUserId, RequestFor(targetUserId, old(message)))) && !isLoading
      ensures (!JsBlank(old(message)) && outcome.Delivered?) ==> notified && message == "" && error == ""
      ensures (!JsBlank(old(message)) && outcome.Failed?) ==>
                !notified && message == old(message) && error == FailureText(outcome.message)
    {
      if JsBlank(message) {
        error := MESSAGE_REQUIRED;
        return None, false;
      }
      isLoading := true;
      error := "";
      sent := Some(SentRequest(currentUserId, RequestFor(targetUserId, message)));
      match outcome {
        case Delivered =>
          notified := true;
          message := "";
        case Failed(m) =>
          notified := false;
          error := FailureText(m);
      }
      isLoading := false;
    }

    /** `handleClose`: clears the message and the error (the parent's
        `onClose` then hides the popup). */
    method HandleClose()
      modifies this`message, this`error
      ensures message == "" && error == ""
    {
      message := "";
      error := "";
    }
  }
}
