/**
 * The presentation logic of VerificationPanel: which view the panel shows for
 * each phase of a device-verification request, and what data that view gets.
 * JSX, styling and localised strings are abstracted into the Mode datatype.
 */
module Render {
  import opened Wrappers
  import opened Engine

  /** The phases a verification request goes through. */
  datatype Phase = Unsent | Requested | Ready | Started | Done | Cancelled

  /** A room member; the empty string stands for a missing (falsy) field. */
  datatype Member = Member(displayName: string, name: string, userId: string)

  /** Stored cross-signing information of another user. */
  datatype CrossSigningInfo = CrossSigningInfo(masterKeyId: string)

  /** The answers of the Matrix client that renderQRPhase consults. */
  datatype Client = Client(
    userId: string,
    deviceId: string,
    deviceEd25519Key: string,
    crossSigningId: string,
    storedCrossSigning: map<string, CrossSigningInfo>)

  /** The panel's props: the request, the member being verified and the phase to show. */
  datatype Props = Props(request: Request, member: Member, phase: Phase)

  datatype KeyPair = KeyPair(keyId: string, key: string)

  /** The data handed to the QR code element. */
  datatype QrCode = QrCode(
    keyholderUserId: string,
    requestEventId: string,
    otherUserKey: string,
    secret: string,
    keys: seq<KeyPair>)

  /** What sits where the "Verify by emoji" button goes. */
  datatype EmojiAction = StartEmojiButton | Spinner

  /** Emoji only, or a QR code to scan (asking the named user) with emoji as fallback. */
  datatype Choice = EmojiOnly | ScanOrEmoji(askName: string, qr: QrCode)

  /** The three cancellation messages. */
  datatype CancelText = TimedOut | TheyCancelled(displayName: string) | YouCancelled

  /** One presentation mode of the panel. */
  datatype Mode =
    | ChooseMethod(choice: Choice, action: EmojiAction)
    | CompareEmoji(displayName: string, sas: seq<nat>)
    | ShowVerified(displayName: string)
    | ShowCancelled(text: CancelText)
    | Unhandled(diagnostic: Phase)

  /** The cancellation code the panel recognises as a timeout. */
  const TimeoutCode: string := "m.timeout"

  /** `member.displayName || member.name || member.userId`. */
  function DisplayName(m: Member): (r: string)
    ensures r == m.displayName || r == m.name || r == m.userId
    ensures m.displayName != "" ==> r == m.displayName
    ensures m.displayName == "" && m.name != "" ==> r == m.name
    ensures r == "" <==> m.displayName == "" && m.name == "" && m.userId == ""
  {
    if m.displayName != "" then m.displayName
    else if m.name != "" then m.name
    else m.userId
  }

  /** Ready (or started but still waiting for SAS data): offer QR and/or emoji verification. */
  function RenderQRPhase(pending: bool, props: Props, client: Client): (r: Mode)
    ensures r.ChooseMethod?
    ensures r.action == StartEmojiButton <==> !pending
    ensures r.choice.ScanOrEmoji? <==>
      props.request.otherUserId in client.storedCrossSigning &&
      props.request.requestEvent.Some? && props.request.requestEvent.value.id != ""
    ensures r.choice.ScanOrEmoji? ==>
      r.choice.askName == DisplayName(props.member) &&
      r.choice.qr.keyholderUserId == client.userId &&
      r.choice.qr.requestEventId == props.request.requestEvent.value.id &&
      r.choice.qr.otherUserKey == client.storedCrossSigning[props.request.otherUserId].masterKeyId &&
      r.choice.qr.secret == props.request.encodedSharedSecret
    ensures r.choice.ScanOrEmoji? ==>
      |r.choice.qr.keys| == 2 &&
      r.choice.qr.keys[0] == KeyPair(client.deviceId, client.deviceEd25519Key) &&
      r.choice.qr.keys[1] == KeyPair(client.crossSigningId, client.crossSigningId)
  {
    var action := if pending then Spinner else StartEmojiButton;
    var request := props.request;
    if request.otherUserId !in client.storedCrossSigning
       || request.requestEvent.None? || request.requestEvent.value.id == ""
    then
      ChooseMethod(EmojiOnly, action)
    else
      var myKeyId := client.crossSigningId;
      var keys := [KeyPair(client.deviceId, client.deviceEd25519Key), KeyPair(myKeyId, myKeyId)];
      var qr := QrCode(
        client.userId,
        request.requestEvent.value.id,
        client.storedCrossSigning[request.otherUserId].masterKeyId,
        request.encodedSharedSecret,
        keys);
      ChooseMethod(ScanOrEmoji(DisplayName(props.member), qr), action)
  }

  /** Success summary naming the other party; its one button is the caller's onClose. */
  function RenderVerifiedPhase(props: Props): (r: Mode)
    ensures r.ShowVerified? && r.displayName == DisplayName(props.member)
  {
    ShowVerified(DisplayName(props.member))
  }

  /** The cancellation message, by precedence: timeout, then "they cancelled", then "you cancelled". */
  function CancelMessage(request: Request, member: Member): (t: CancelText)
    ensures t == TimedOut <==> request.cancellationCode == Some(TimeoutCode)
    ensures t.TheyCancelled? <==>
      request.cancellationCode != Some(TimeoutCode) &&
      request.cancellingUserId == Some(request.otherUserId)
    ensures t == YouCancelled <==>
      request.cancellationCode != Some(TimeoutCode) &&
      request.cancellingUserId != Some(request.otherUserId)
    ensures t.TheyCancelled? ==> t.displayName == DisplayName(member)
  {
    if request.cancellationCode == Some(TimeoutCode) then TimedOut
    else if request.cancellingUserId == Some(request.otherUserId) then TheyCancelled(DisplayName(member))
    else YouCancelled
  }

  function RenderCancelledPhase(props: Props): (r: Mode)
    ensures r.ShowCancelled? && r.text == CancelMessage(props.request, props.member)
  {
    ShowCancelled(CancelMessage(props.request, props.member))
  }

  /**
   * The phase dispatcher: exactly one mode per phase. `sasEvent` is the
   * panel's stored `show_sas` event; it is consulted only while STARTED.
   */
  function Render(props: Props, sasEvent: Option<SasEvent>, client: Client): (r: Mode)
    ensures r.ChooseMethod? <==> props.phase == Ready || (props.phase == Started && sasEvent.None?)
    ensures r.ChooseMethod? ==>
      (r.action == Spinner <==> props.phase == Started) &&
      r.choice == RenderQRPhase(false, props, client).choice
    ensures r.CompareEmoji? <==> props.phase == Started && sasEvent.Some?
    ensures r.CompareEmoji? ==>
      r.displayName == DisplayName(props.member) && r.sas == sasEvent.value.sas
    ensures r.ShowVerified? <==> props.phase == Done
    ensures r.ShowVerified? ==> r.displayName == DisplayName(props.member)
    ensures r.ShowCancelled? <==> props.phase == Cancelled
    ensures r.ShowCancelled? ==> r.text == CancelMessage(props.request, props.member)
    ensures r.Unhandled? <==> props.phase == Unsent || props.phase == Requested
    ensures r.Unhandled? ==> r.diagnostic == props.phase
  {
    match props.phase
    case Ready => RenderQRPhase(false, props, client)
    case Started =>
      if sasEvent.Some? then CompareEmoji(DisplayName(props.member), sasEvent.value.sas)
      else RenderQRPhase(true, props, client)
    case Done => RenderVerifiedPhase(props)
    case Cancelled => RenderCancelledPhase(props)
    case _ => Unhandled(props.phase)
  }

  /** A stored SAS event never shows outside STARTED: there the view does not depend on it. */
  lemma StaleSasIgnored(props: Props, e1: Option<SasEvent>, e2: Option<SasEvent>, client: Client)
    requires props.phase != Started
    ensures Render(props, e1, client) == Render(props, e2, client)
    ensures !Render(props, e1, client).CompareEmoji?
  {
  }
}
