/**
 * The token request every join screen sends, the outcome it receives and
 * what the screen does with it: navigate to the room, or show an alert.
 * The HTTP call itself is not modelled; its outcome is an input value.
 */
module Join {
  import opened Wrappers

  const TokenPath := "/get-token"
  const RequestTimeoutMs: nat := 10000
  const ErrorTitle := "Error"
  const UsernameRequired := "Please enter your username."
  const FallbackMessage := "Unable to connect to the server. Please try again later."

  /** The JSON body of the token request; `isHost` is absent on the legacy screen. */
  datatype RequestBody = RequestBody(username: string, room: string, isHost: Option<bool>)

  /** A POST to `url` with a JSON body and a timeout in milliseconds. */
  datatype TokenRequest = TokenRequest(url: string, body: RequestBody, timeoutMs: nat)

  /**
   * How the call ended: the decoded success body, or a failure carrying the
   * `message` field of the server's error body when there was one.
   */
  datatype HttpOutcome =
    | Success(token: string, room: string, displayName: string)
    | Failure(message: Option<string>)

  datatype Alert = Alert(title: string, message: string)

  /** A navigation to `route` with the parameters the room screen reads. */
  datatype Navigation = Navigation(route: string, token: string, room: string, displayName: Option<string>)

  /** What pressing Join does before the response: refuse with an alert, or send a request. */
  datatype JoinStart = Blocked(alert: Alert) | Sent(request: TokenRequest)

  /** What the response leads to. */
  datatype JoinEnd = Navigated(navigation: Navigation) | Alerted(alert: Alert)

  /** The join button: a spinner while loading, otherwise a caption. */
  datatype ButtonFace = Spinner | Caption(text: string)

  /**
   * The failure alert: `error.response?.data?.message || fallback`. An absent
   * or empty server message falls back to the generic text, so the alert
   * is never blank.
   */
  function FailureAlert(message: Option<string>): (a: Alert)
    ensures a.title == ErrorTitle
    ensures a.message != ""
    ensures message.Some? && message.value != "" ==> a.message == message.value
    ensures message.None? || message.value == "" ==> a.message == FallbackMessage
  {
    var m := message.GetOr("");
    Alert(ErrorTitle, if m != "" then m else FallbackMessage)
  }

  /**
   * Pressing Join on the room-directory screens: an empty username is
   * refused before any request; otherwise the request carries the selection
   * as `room` and asks to host exactly when nothing is selected.
   */
  function StartHostJoin(serverUrl: string, username: string, selectedRoom: string): (start: JoinStart)
    ensures start.Blocked? <==> username == ""
    ensures start.Blocked? ==> start.alert == Alert(ErrorTitle, UsernameRequired)
    ensures start.Sent? ==>
              && start.request.url == serverUrl + TokenPath
              && start.request.timeoutMs == RequestTimeoutMs
              && start.request.body.username == username
              && start.request.body.room == selectedRoom
              && start.request.body.isHost.Some?
              && (start.request.body.isHost.value <==> selectedRoom == "")
  {
    if username == "" then Blocked(Alert(ErrorTitle, UsernameRequired))
    else Sent(TokenRequest(serverUrl + TokenPath, RequestBody(username, selectedRoom, Some(selectedRoom == "")), RequestTimeoutMs))
  }

  /**
   * The response on the room-directory screens: success navigates to
   * `/room` with the server's token, room and display name; failure alerts.
   */
  function FinishHostJoin(outcome: HttpOutcome): (end: JoinEnd)
    ensures end.Navigated? <==> outcome.Success?
    ensures outcome.Success? ==> end.navigation == Navigation("/room", outcome.token, outcome.room, Some(outcome.displayName))
    ensures outcome.Failure? ==> end.alert == FailureAlert(outcome.message)
  {
    match outcome
    case Success(token, room, displayName) => Navigated(Navigation("/room", token, room, Some(displayName)))
    case Failure(message) => Alerted(FailureAlert(message))
  }

  /** A host request (nothing selected) and a join request differ only in what they say about the room. */
  lemma HostAndJoinRequestsDiffer(serverUrl: string, username: string, roomId: string)
    requires username != "" && roomId != ""
    ensures var host := StartHostJoin(serverUrl, username, "");
            var join := StartHostJoin(serverUrl, username, roomId);
            && host.request.body == RequestBody(username, "", Some(true))
            && join.request.body == RequestBody(username, roomId, Some(false))
            && host.request.url == join.request.url
  {
  }

  /** The join button of the room-directory screens: "Join Stream" when a room is selected. */
  function JoinButton(isLoading: bool, selectedRoom: string): (face: ButtonFace)
    ensures face.Spinner? <==> isLoading
    ensures face == Caption("Join Stream") <==> !isLoading && selectedRoom != ""
    ensures face == Caption("Start Stream") <==> !isLoading && selectedRoom == ""
  {
    if isLoading then Spinner
    else if selectedRoom != "" then Caption("Join Stream")
    else Caption("Start Stream")
  }

  /** The button promises the kind of request a press sends: "Start Stream" exactly when it asks to host. */
  lemma JoinButtonMatchesRequest(serverUrl: string, username: string, selectedRoom: string)
    requires username != ""
    ensures JoinButton(false, selectedRoom) == Caption("Start Stream") <==>
            StartHostJoin(serverUrl, username, selectedRoom).request.body.isHost == Some(true)
  {
  }
}
