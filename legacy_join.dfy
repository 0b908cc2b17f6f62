/**
 * The legacy join screen: the user types both a username and a room name;
 * there is no directory and no host flag, and the room screen is opened
 * with the room the user typed.
 */
module LegacyJoin {
  import opened Wrappers
  import opened Join

  const ServerUrl := "http://3.133.109.97:3000"
  const BothRequired := "Please enter both username and room."
  const RoomRoute := "Room"

  datatype LegacyState = LegacyState(username: string, room: string, isLoading: bool)

  const Initial := LegacyState("", "", false)

  /**
   * Pressing Join: refused unless both fields are non-empty; otherwise the
   * body is exactly the username and room, with no host flag.
   */
  function StartLegacyJoin(username: string, room: string): (start: JoinStart)
    ensures start.Blocked? <==> username == "" || room == ""
    ensures start.Blocked? ==> start.alert == Alert(ErrorTitle, BothRequired)
    ensures start.Sent? ==>
              && start.request.url == ServerUrl + TokenPath
              && start.request.timeoutMs == RequestTimeoutMs
              && start.request.body == RequestBody(username, room, None)
  {
    if username == "" || room == "" then Blocked(Alert(ErrorTitle, BothRequired))
    else Sent(TokenRequest(ServerUrl + TokenPath, RequestBody(username, room, None), RequestTimeoutMs))
  }

  /**
   * The response: success navigates to "Room" with the server's token and
   * the room of the request that was sent; failure alerts.
   */
  function FinishLegacyJoin(request: TokenRequest, outcome: HttpOutcome): (end: JoinEnd)
    ensures end.Navigated? <==> outcome.Success?
    ensures outcome.Success? ==> end.navigation == Navigation(RoomRoute, outcome.token, request.body.room, None)
    ensures outcome.Failure? ==> end.alert == FailureAlert(outcome.message)
  {
    match outcome
    case Success(token, _, _) => Navigated(Navigation(RoomRoute, token, request.body.room, None))
    case Failure(message) => Alerted(FailureAlert(message))
  }

  /** The room and display name in the server's answer play no part: the typed room is opened. */
  lemma OpensTypedRoom(username: string, room: string, token: string, serverRoom: string, displayName: string)
    requires StartLegacyJoin(username, room).Sent?
    ensures FinishLegacyJoin(StartLegacyJoin(username, room).request, Success(token, serverRoom, displayName)) ==
            Navigated(Navigation(RoomRoute, token, room, None))
  {
  }

  /** Every request the legacy screen sends would also pass the directory screens' check, and it never asks to host. */
  lemma StricterThanHostJoin(hostServerUrl: string, username: string, room: string)
    ensures StartLegacyJoin(username, room).Sent? ==> StartHostJoin(hostServerUrl, username, room).Sent?
    ensures StartLegacyJoin(username, room).Sent? ==> StartLegacyJoin(username, room).request.body.isHost.None?
    ensures username != "" && room == "" ==>
              StartLegacyJoin(username, room).Blocked? && StartHostJoin(hostServerUrl, username, room).Sent?
  {
  }

  /** The legacy button: a spinner while loading, otherwise "Join Room". */
  function LegacyJoinButton(isLoading: bool): (face: ButtonFace)
    ensures face.Spinner? <==> isLoading
    ensures !isLoading ==> face == Caption("Join Room")
  {
    if isLoading then Spinner else Caption("Join Room")
  }

  class LegacyJoinScreen {
    var username: string
    var room: string
    var isLoading: bool

    function State(): LegacyState
      reads this
    {
      LegacyState(username, room, isLoading)
    }

    constructor ()
      ensures State() == Initial
    {
      username := "";
      room := "";
      isLoading := false;
    }

    method EnterUsername(name: string)
      modifies this
      ensures State() == old(State()).(username := name)
    {
      username := name;
    }

    method EnterRoom(name: string)
      modifies this
      ensures State() == old(State()).(room := name)
    {
      room := name;
    }

    /** `handleJoin` up to the `await`: the loading flag is set only once validation passed. */
    method PressJoin() returns (start: JoinStart)
      modifies this
      ensures start == StartLegacyJoin(old(username), old(room))
      ensures State() == old(State()).(isLoading := start.Sent? || old(isLoading))
    {
      if username == "" || room == "" {
        return Blocked(Alert(ErrorTitle, BothRequired));
      }
      isLoading := true;
      start := Sent(TokenRequest(ServerUrl + TokenPath, RequestBody(username, room, None), RequestTimeoutMs));
    }

    /**
     * `handleJoin` after the `await`. The handler's closure still holds the
     * room typed when Join was pressed, which is the one the request carried.
     */
    method ReceiveResponse(request: TokenRequest, outcome: HttpOutcome) returns (end: JoinEnd)
      modifies this
      ensures end == FinishLegacyJoin(request, outcome)
      ensures State() == old(State()).(isLoading := false)
    {
      match outcome {
        case Success(token, _, _) =>
          end := Navigated(Navigation(RoomRoute, token, request.body.room, None));
        case Failure(message) =>
          end := Alerted(FailureAlert(message));
      }
      isLoading := false;
    }

    /** The whole of `handleJoin`, run to completion with the server's `outcome`. */
    method HandleJoin(outcome: HttpOutcome) returns (start: JoinStart, end: Option<JoinEnd>)
      modifies this
      ensures start == StartLegacyJoin(old(username), old(room))
      ensures start.Blocked? ==> end.None? && State() == old(State())
      ensures start.Sent? ==> end == Some(FinishLegacyJoin(start.request, outcome)) && State() == old(State()).(isLoading := false)
      ensures start.Sent? && outcome.Success? ==> end.value.navigation.room == old(room)
    {
      start := PressJoin();
      if start.Blocked? {
        return start, None;
      }
      var e := ReceiveResponse(start.request, outcome);
      end := Some(e);
    }
  }
}
