/** `UserProfileCard.tsx`: a card showing another user, with a connect button
    whose state follows the connection status and the connect popup. */
module ProfileCard {
  import opened Wrappers
  import opened Text
  import opened UserModel
  import opened ConnectPopup
  import ConnectionService

  const STATUS_CONNECT := "CONNECT"
  const STATUS_PENDING := "PENDING"
  const STATUS_FRIENDS := "FRIENDS"

  /** `getButtonText`: "Friends" and "Pending" for those statuses, "Connect"
      for every other string. */
  function ButtonText(status: string): (text: string)
    ensures text == "Friends" <==> status == STATUS_FRIENDS
    ensures text == "Pending" <==> status == STATUS_PENDING
    ensures text == "Connect" <==> status != STATUS_FRIENDS && status != STATUS_PENDING
  {
    if status == STATUS_FRIENDS then "Friends"
    else if status == STATUS_PENDING then "Pending"
    else "Connect"
  }

  /** `getButtonClass`, over the same three cases. */
  function ButtonClass(status: string): (cls: string)
    ensures cls == "btn btn-success" <==> status == STATUS_FRIENDS
    ensures cls == "btn btn-warning" <==> status == STATUS_PENDING
    ensures cls == "btn btn-primary" <==> status != STATUS_FRIENDS && status != STATUS_PENDING
  {
    if status == STATUS_FRIENDS then "btn btn-success"
    else if status == STATUS_PENDING then "btn btn-warning"
    else "btn btn-primary"
  }

  /** `disabled={connectionStatus !== 'CONNECT'}`, negated. */
  predicate ButtonEnabled(status: string): (enabled: bool)
    ensures enabled ==> ButtonText(status) == "Connect" && ButtonClass(status) == "btn btn-primary"
  {
    status == STATUS_CONNECT
  }

  /** The text and the class always pick the same case. */
  lemma TextAndClassAgree(a: string, b: string)
    ensures ButtonText(a) == ButtonText(b) <==> ButtonClass(a) == ButtonClass(b)
  {
  }

  /** An enabled button reads "Connect"; for the three statuses the backend
      sends, the converse holds as well. */
  lemma EnabledButtonReadsConnect(s: ConnectionService.ConnectionStatus)
    ensures ButtonEnabled(ConnectionService.StatusName(s)) <==> ButtonText(ConnectionService.StatusName(s)) == "Connect"
    ensures ButtonEnabled(ConnectionService.StatusName(s)) <==> s == ConnectionService.ConnectionStatus.Connect
  {
  }

  /** For any other string the button reads "Connect" but stays disabled. */
  lemma UnknownStatusShowsDisabledConnect()
    ensures ButtonText("NONE") == "Connect" && !ButtonEnabled("NONE")
  {
  }

  // ----- interests -----

  const INTEREST_COLORS := ["#007bff", "#6f42c1", "#28a745", "#fd7e14"]

  /** `getInterestColor(index)`. */
  function InterestColor(index: nat): (color: string)
    ensures color in INTEREST_COLORS
  {
    INTEREST_COLORS[index % |INTEREST_COLORS|]
  }

  /** The colours repeat every four badges and four neighbours never share one. */
  lemma InterestColorsCycle(i: nat, j: nat)
    ensures InterestColor(i + 4) == InterestColor(i)
    ensures i < j < i + 4 ==> InterestColor(i) != InterestColor(j)
  {
    if i < j < i + 4 {
      assert i % 4 != j % 4;
    }
  }

  /** What the interest row shows: the first interests with their colours,
      then a "+n" badge for the ones left out. */
  datatype Badge = InterestBadge(text: string, color: string) | MoreBadge(count: nat)

  /** The label of a `MoreBadge`. */
  function MoreLabel(count: nat): string {
    "+" + NatToString(count)
  }

  /** At most three interests are shown, the i-th in `InterestColor(i)`. */
  const SHOWN_INTERESTS := 3

  /** The badges of the interest row; no interests show no row. */
  function InterestBadges(interests: seq<string>): (badges: seq<Badge>)
    ensures interests == [] ==> badges == []
    ensures |interests| <= SHOWN_INTERESTS ==> |badges| == |interests|
    ensures |interests| > SHOWN_INTERESTS ==>
              |badges| == SHOWN_INTERESTS + 1 && badges[SHOWN_INTERESTS] == MoreBadge(|interests| - SHOWN_INTERESTS)
    ensures forall i :: 0 <= i < |badges| && i < SHOWN_INTERESTS ==>
              i < |interests| && badges[i] == InterestBadge(interests[i], InterestColor(i))
  {
    var shown := interests[..if |interests| < SHOWN_INTERESTS then |interests| else SHOWN_INTERESTS];
    var w := seq(|shown|, i requires 0 <= i < |shown| => InterestBadge(shown[i], InterestColor(i)));
    if |interests| > SHOWN_INTERESTS then w + [MoreBadge(|interests| - SHOWN_INTERESTS)] else w
  }

  /** How many interests the badges stand for. */
  function Counted(badges: seq<Badge>): nat {
    if badges == [] then 0
    else Counted(badges[..|badges| - 1]) + (match badges[|badges| - 1]
                                            case InterestBadge(_, _) => 1
                                            case MoreBadge(n) => n)
  }

  lemma {:induction false} CountedInterestBadges(badges: seq<Badge>)
    requires forall i :: 0 <= i < |badges| ==> badges[i].InterestBadge?
    ensures Counted(badges) == |badges|
  {
    if badges != [] {
      CountedInterestBadges(badges[..|badges| - 1]);
    }
  }

  /** The row accounts for every interest: those shown plus the "+n" count. */
  lemma BadgesAccountForEveryInterest(interests: seq<string>)
    ensures Counted(InterestBadges(interests)) == |interests|
  {
    var b := InterestBadges(interests);
    if |interests| > SHOWN_INTERESTS {
      CountedInterestBadges(b[..SHOWN_INTERESTS]);
      assert b[..|b| - 1] == b[..SHOWN_INTERESTS];
    } else {
      CountedInterestBadges(b);
    }
  }

  // ----- the component -----

  /** The card's state. `connectionUpdates` counts the calls of the parent's
      `onConnectionUpdate`. */
  class ProfileCardState {
    var connectionStatus: string
    var showConnectPopup: bool
    var connectionUpdates: nat
    const popup: ConnectPopupState

    constructor (targetUserId: UserId, currentUserId: UserId)
      ensures connectionStatus == STATUS_CONNECT && !showConnectPopup && connectionUpdates == 0
      ensures fresh(popup) && popup.targetUserId == targetUserId && popup.currentUserId == currentUserId
      ensures popup.message == "" && popup.error == "" && !popup.isLoading
    {
      connectionStatus := STATUS_CONNECT;
      showConnectPopup := false;
      connectionUpdates := 0;
      popup := new ConnectPopupState(targetUserId, currentUserId);
    }

    /** `loadConnectionStatus`, with `answer` the status the call returned
        or `None` when it failed. */
    method LoadConnectionStatus(answer: Option<string>)
      modifies this`connectionStatus
      ensures answer.Some? ==> connectionStatus == answer.value
      ensures answer.None? ==> connectionStatus == STATUS_CONNECT
    {
      connectionStatus := answer.GetOr(STATUS_CONNECT);
    }

    /** `handleConnectClick`: opens the popup only from CONNECT. */
    method HandleConnectClick()
      modifies this`showConnectPopup
      ensures showConnectPopup <==> old(showConnectPopup) || ButtonEnabled(connectionStatus)
    {
      if connectionStatus == STATUS_CONNECT {
        showConnectPopup := true;
      }
    }

    /** `handleConnectionSuccess`: the status becomes PENDING and the parent
        is told. */
    method HandleConnectionSuccess()
      modifies this`connectionStatus, this`connectionUpdates
      ensures connectionStatus == STATUS_PENDING && connectionUpdates == old(connectionUpdates) + 1
    {
      connectionStatus := STATUS_PENDING;
      connectionUpdates := connectionUpdates + 1;
    }

    /** Submitting the popup: on success the popup's `onSuccess` and
        `onClose` reach this card, which shows PENDING and hides the popup. */
    method SubmitPopup(outcome: SendOutcome) returns (sent: Option<SentRequest>)
      modifies this`connectionStatus, this`connectionUpdates, this`showConnectPopup
      modifies popup`message, popup`isLoading, popup`error
      ensures sent.Some? <==> !JsBlank(old(popup.message))
      ensures sent.Some? ==> sent.value.fromUserId == popup.currentUserId && sent.value.body.toUserId == popup.targetUserId
      ensures (sent.Some? && outcome.Delivered?) ==>
                connectionStatus == STATUS_PENDING && !showConnectPopup &&
                connectionUpdates == old(connectionUpdates) + 1 && !ButtonEnabled(connectionStatus)
      ensures (sent.None? || outcome.Failed?) ==>
                connectionStatus == old(connectionStatus) && showConnectPopup == old(showConnectPopup) &&
                connectionUpdates == old(connectionUpdates)
    {
      var notified;
      sent, notified := popup.HandleSubmit(outcome);
      if notified {
        HandleConnectionSuccess();
        showConnectPopup := false;
      }
    }

    /** The popup's close button: the popup clears itself, then hides. */
    method ClosePopup()
      modifies this`showConnectPopup, popup`message, popup`error
      ensures !showConnectPopup && popup.message == "" && popup.error == ""
    {
      popup.HandleClose();
      showConnectPopup := false;
    }
  }
}
