/**
 * The web join screen: the same directory socket and Join logic as the
 * native screen, but the list is stored unfiltered, the selection is a
 * plain `<select>` value and there is no label state.
 */
module WebJoin {
  import opened Wrappers
  import opened Directory
  import opened Join
  import NativeJoin

  const ServerUrl := "http://192.168.1.17:3000"

  datatype WebState = WebState(username: string, isLoading: bool, rooms: seq<Room>, selectedRoom: string)

  const Initial := WebState("", false, [], "")

  /**
   * The socket's message handler: a "rooms" message replaces the list
   * wholesale, rooms without participants included, and never touches the
   * selection; any other message changes nothing.
   */
  function ApplyMessage(s: WebState, m: DirectoryMessage): (t: WebState)
    ensures m.kind != RoomsMessageType ==> t == s
    ensures m.kind == RoomsMessageType ==> t == s.(rooms := m.rooms)
    ensures m.kind == RoomsMessageType ==> forall r :: r in m.rooms <==> r in t.rooms
  {
    if m.kind == RoomsMessageType then s.(rooms := m.rooms) else s
  }

  /** The `<select>`'s `onChange`: the selection becomes exactly the option's value. */
  function ChooseOption(s: WebState, value: string): (t: WebState)
    ensures t.selectedRoom == value
    ensures t == s.(selectedRoom := value)
  {
    s.(selectedRoom := value)
  }

  /** Unlike the native screen, a room whose last participant left stays on the web list. */
  lemma EmptyRoomStaysListed(s: WebState, room: Room)
    requires room.participantCount == 0
    ensures var m := DirectoryMessage(RoomsMessageType, [room]);
            && room in ApplyMessage(s, m).rooms
            && room !in ActiveRooms(m.rooms)
  {
  }

  /**
   * On a snapshot whose rooms all have participants, the web and native
   * screens store the same list.
   */
  lemma AgreesWithNativeOnActiveSnapshots(s: WebState, n: NativeJoin.ScreenState, m: DirectoryMessage, seen: string)
    requires m.kind == RoomsMessageType
    requires forall i :: 0 <= i < |m.rooms| ==> m.rooms[i].participantCount > 0
    ensures ApplyMessage(s, m).rooms == NativeJoin.ApplyMessage(n, m, seen).rooms
  {
    ActiveRoomsKeepsActive(m.rooms);
  }

  /** Choosing the "Start your own stream" entry turns the next Join into a host request. */
  lemma DefaultOptionHosts(s: WebState)
    requires s.username != ""
    ensures var t := ChooseOption(s, PickerItems(s.rooms)[0].value);
            StartHostJoin(ServerUrl, t.username, t.selectedRoom).request.body.isHost == Some(true)
  {
  }

  class WebJoinScreen {
    var username: string
    var isLoading: bool
    var rooms: seq<Room>
    var selectedRoom: string

    function State(): WebState
      reads this
    {
      WebState(username, isLoading, rooms, selectedRoom)
    }

    constructor ()
      ensures State() == Initial
    {
      username := "";
      isLoading := false;
      rooms := [];
      selectedRoom := "";
    }

    /** The username input's `onChange`. */
    method EnterUsername(name: string)
      modifies this
      ensures State() == old(State()).(username := name)
    {
      username := name;
    }

    method OnMessage(m: DirectoryMessage)
      modifies this
      ensures State() == ApplyMessage(old(State()), m)
    {
      if m.kind == RoomsMessageType {
        rooms := m.rooms;
      }
    }

    method OnSelectChange(value: string)
      modifies this
      ensures State() == ChooseOption(old(State()), value)
    {
      selectedRoom := value;
    }

    /** `handleJoin` up to the `await`. */
    method PressJoin() returns (start: JoinStart)
      modifies this
      ensures start == StartHostJoin(ServerUrl, old(username), old(selectedRoom))
      ensures State() == old(State()).(isLoading := start.Sent? || old(isLoading))
    {
      if username == "" {
        return Blocked(Alert(ErrorTitle, UsernameRequired));
      }
      isLoading := true;
      start := Sent(TokenRequest(ServerUrl + TokenPath, RequestBody(username, selectedRoom, Some(selectedRoom == "")), RequestTimeoutMs));
    }

    /** `handleJoin` after the `await`, with `finally` clearing the loading flag. */
    method ReceiveResponse(outcome: HttpOutcome) returns (end: JoinEnd)
      modifies this
      ensures end == FinishHostJoin(outcome)
      ensures State() == old(State()).(isLoading := false)
    {
      match outcome {
        case Success(token, room, displayName) =>
          end := Navigated(Navigation("/room", token, room, Some(displayName)));
        case Failure(message) =>
          end := Alerted(FailureAlert(message));
      }
      isLoading := false;
    }

    /** The whole of `handleJoin`, run to completion with the server's `outcome`. */
    method HandleJoin(outcome: HttpOutcome) returns (start: JoinStart, end: Option<JoinEnd>)
      modifies this
      ensures start == StartHostJoin(ServerUrl, old(username), old(selectedRoom))
      ensures start.Blocked? ==> end.None? && State() == old(State())
      ensures start.Sent? ==> end == Some(FinishHostJoin(outcome)) && State() == old(State()).(isLoading := false)
    {
      start := PressJoin();
      if start.Blocked? {
        return start, None;
      }
      var e := ReceiveResponse(outcome);
      end := Some(e);
    }
  }
}
