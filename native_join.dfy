/**
 * The native join screen: the live room list from the directory socket,
 * the room selection with its label, the iOS modal picker that edits a
 * temporary selection, and the Join button.
 *
 * `ScreenState` and the functions over it are the specification of the
 * screen's handlers; the class `NativeJoinScreen` holds the component's
 * state fields and updates them the way the handlers call their setters.
 * The socket handler is installed once, by an effect with no dependencies,
 * so it keeps the selection of the first render: the class records that
 * value as `capturedSelection`, and `OnMessage` reads it.
 */
module NativeJoin {
  import opened Wrappers
  import opened Directory
  import opened Join

  const ServerUrl := "http://192.168.1.17:3000"

  datatype ScreenState = ScreenState(
    username: string,
    isLoading: bool,
    rooms: seq<Room>,
    selectedRoom: string,
    tempSelectedRoom: string,
    selectedRoomLabel: string,
    showPicker: bool)

  /** The state of the first render. */
  const Initial := ScreenState("", false, [], "", "", DefaultRoomLabel, false)

  /** The selection is either "no room chosen" or a room that is listed. */
  ghost predicate SelectionListed(s: ScreenState) {
    s.selectedRoom == "" || Listed(s.rooms, s.selectedRoom)
  }

  /**
   * The socket's message handler. A "rooms" message replaces the list with
   * its rooms that have participants; if the selection `seen` by the handler
   * is a room that is not among them, the selection and its label are reset
   * to "Start your own stream". Any other message changes nothing.
   */
  function ApplyMessage(s: ScreenState, m: DirectoryMessage, seen: string): (t: ScreenState)
    ensures m.kind != RoomsMessageType ==> t == s
    ensures m.kind == RoomsMessageType ==>
              && t.rooms == ActiveRooms(m.rooms)
              && t == s.(rooms := t.rooms, selectedRoom := t.selectedRoom, selectedRoomLabel := t.selectedRoomLabel)
    ensures m.kind == RoomsMessageType && seen != "" && !Listed(t.rooms, seen) ==>
              t.selectedRoom == "" && t.selectedRoomLabel == DefaultRoomLabel
    ensures m.kind == RoomsMessageType && (seen == "" || Listed(t.rooms, seen)) ==>
              t.selectedRoom == s.selectedRoom && t.selectedRoomLabel == s.selectedRoomLabel
  {
    if m.kind != RoomsMessageType then s
    else
      var active := ActiveRooms(m.rooms);
      if seen != "" && FindRoom(active, seen).None? then
        s.(rooms := active, selectedRoom := "", selectedRoomLabel := DefaultRoomLabel)
      else
        s.(rooms := active)
  }

  /**
   * `handleRoomSelect`: the selection always becomes `roomId`; the label
   * becomes the default for "", the room's label for a listed id, and is
   * left as it was for an id that is not listed.
   */
  function SelectRoom(s: ScreenState, roomId: string): (t: ScreenState)
    ensures t == s.(selectedRoom := roomId, selectedRoomLabel := t.selectedRoomLabel)
    ensures roomId == "" ==> t.selectedRoomLabel == DefaultRoomLabel
    ensures roomId != "" && Listed(s.rooms, roomId) ==>
              exists i :: 0 <= i < |s.rooms| && s.rooms[i].roomId == roomId &&
                          (forall j :: 0 <= j < i ==> s.rooms[j].roomId != roomId) &&
                          t.selectedRoomLabel == RoomLabel(s.rooms[i])
    ensures roomId != "" && !Listed(s.rooms, roomId) ==> t.selectedRoomLabel == s.selectedRoomLabel
  {
    if roomId == "" then s.(selectedRoom := roomId, selectedRoomLabel := DefaultRoomLabel)
    else match FindRoom(s.rooms, roomId)
      case Some(room) => s.(selectedRoom := roomId, selectedRoomLabel := RoomLabel(room))
      case None => s.(selectedRoom := roomId)
  }

  /** `handlePickerOpen`: the modal starts from the current selection. */
  function OpenPicker(s: ScreenState): (t: ScreenState)
    ensures t == s.(tempSelectedRoom := s.selectedRoom, showPicker := true)
  {
    s.(tempSelectedRoom := s.selectedRoom, showPicker := true)
  }

  /** The modal picker's `onValueChange`: only the temporary selection moves. */
  function ScrollPicker(s: ScreenState, value: string): (t: ScreenState)
    ensures t == s.(tempSelectedRoom := value)
  {
    s.(tempSelectedRoom := value)
  }

  /** `handlePickerDone`: the temporary selection is applied, and the modal closes. */
  function PickerDone(s: ScreenState): (t: ScreenState)
    ensures t == SelectRoom(s, s.tempSelectedRoom).(showPicker := false)
  {
    SelectRoom(s, s.tempSelectedRoom).(showPicker := false)
  }

  /** `handlePickerCancel`: the temporary selection is discarded, and the modal closes. */
  function PickerCancel(s: ScreenState): (t: ScreenState)
    ensures t == s.(tempSelectedRoom := s.selectedRoom, showPicker := false)
  {
    s.(tempSelectedRoom := s.selectedRoom, showPicker := false)
  }

  /** Reading the current selection (the correct closure) leaves no dangling selection after a snapshot. */
  lemma SnapshotKeepsSelectionListed(s: ScreenState, m: DirectoryMessage)
    requires m.kind == RoomsMessageType
    ensures SelectionListed(ApplyMessage(s, m, s.selectedRoom))
    ensures forall r :: r in ApplyMessage(s, m, s.selectedRoom).rooms ==> r.participantCount > 0
  {
  }

  /**
   * As written the handler is installed once, by an effect with no
   * dependencies, and so reads the first render's selection "": the
   * clearing branch can never run.
   */
  lemma StaleSelectionNeverClears(s: ScreenState, m: DirectoryMessage)
    ensures ApplyMessage(s, m, Initial.selectedRoom).selectedRoom == s.selectedRoom
    ensures ApplyMessage(s, m, Initial.selectedRoom).selectedRoomLabel == s.selectedRoomLabel
  {
  }

  /**
   * A concrete run of the handler as written: the selected room empties,
   * leaves the list, and stays selected, so the next Join asks for a room
   * that is no longer listed.
   */
  lemma VanishedRoomStaysSelected()
    ensures var s := SelectRoom(ApplyMessage(Initial, DirectoryMessage(RoomsMessageType, [Room("r1", "Ann", 2)]), ""), "r1");
            var t := ApplyMessage(s, DirectoryMessage(RoomsMessageType, [Room("r1", "Ann", 0)]), Initial.selectedRoom);
            && SelectionListed(s)
            && t.selectedRoom == "r1"
            && !SelectionListed(t)
  {
    var s := SelectRoom(ApplyMessage(Initial, DirectoryMessage(RoomsMessageType, [Room("r1", "Ann", 2)]), ""), "r1");
    assert Room("r1", "Ann", 2) in s.rooms;
  }

  /** Choosing one of the picker's entries keeps the selection listed. */
  lemma SelectPickerValueKeepsListed(s: ScreenState, i: nat)
    requires i < |PickerItems(s.rooms)|
    ensures SelectionListed(SelectRoom(s, PickerItems(s.rooms)[i].value))
  {
    PickerValues(s.rooms, PickerItems(s.rooms)[i].value);
  }

  /**
   * With unique, non-empty room ids, the label shown after choosing a
   * picker entry is that entry's own caption.
   */
  lemma SelectedLabelIsItemCaption(s: ScreenState, i: nat)
    requires UniqueIds(s.rooms)
    requires forall k :: 0 <= k < |s.rooms| ==> s.rooms[k].roomId != ""
    requires i < |PickerItems(s.rooms)|
    ensures SelectRoom(s, PickerItems(s.rooms)[i].value).selectedRoomLabel == PickerItems(s.rooms)[i].caption
  {
    if i > 0 {
      FindRoomUnique(s.rooms, i - 1);
    }
  }

  /** Cancel undoes whatever the modal did: selection and label are as before it opened. */
  lemma CancelDiscardsChoice(s: ScreenState, value: string)
    ensures PickerCancel(ScrollPicker(OpenPicker(s), value)) ==
            s.(tempSelectedRoom := s.selectedRoom, showPicker := false)
  {
  }

  /** Done after scrolling to `value` is the same as selecting `value` directly. */
  lemma DoneAppliesChoice(s: ScreenState, value: string)
    ensures PickerDone(ScrollPicker(OpenPicker(s), value)) ==
            SelectRoom(s, value).(tempSelectedRoom := value, showPicker := false)
  {
  }

  class NativeJoinScreen {
    var username: string
    var isLoading: bool
    var rooms: seq<Room>
    var selectedRoom: string
    var tempSelectedRoom: string
    var selectedRoomLabel: string
    var showPicker: bool
    /** The `selectedRoom` that the socket handler's closure captured when it was installed. */
    const capturedSelection: string

    function State(): ScreenState
      reads this
    {
      ScreenState(username, isLoading, rooms, selectedRoom, tempSelectedRoom, selectedRoomLabel, showPicker)
    }

    constructor ()
      ensures State() == Initial
      ensures capturedSelection == Initial.selectedRoom
    {
      capturedSelection := "";
      username := "";
      isLoading := false;
      rooms := [];
      selectedRoom := "";
      tempSelectedRoom := "";
      selectedRoomLabel := DefaultRoomLabel;
      showPicker := false;
    }

    /** The username field's `onChangeText`. */
    method EnterUsername(name: string)
      modifies this
      ensures State() == old(State()).(username := name)
    {
      username := name;
    }

    /**
     * The socket's `onmessage` as installed: the clearing rule reads the
     * captured selection, not the current one (see StaleSelectionNeverClears).
     */
    method OnMessage(m: DirectoryMessage)
      modifies this
      ensures State() == ApplyMessage(old(State()), m, capturedSelection)
    {
      if m.kind == RoomsMessageType {
        var activeRooms := ActiveRooms(m.rooms);
        rooms := activeRooms;
        if capturedSelection != "" && FindRoom(activeRooms, capturedSelection).None? {
          selectedRoom := "";
          selectedRoomLabel := DefaultRoomLabel;
        }
      }
    }

    method HandleRoomSelect(roomId: string)
      modifies this
      ensures State() == SelectRoom(old(State()), roomId)
    {
      selectedRoom := roomId;
      if roomId == "" {
        selectedRoomLabel := DefaultRoomLabel;
      } else {
        var room := FindRoom(rooms, roomId);
        if room.Some? {
          selectedRoomLabel := RoomLabel(room.value);
        }
      }
    }

    method HandlePickerOpen()
      modifies this
      ensures State() == OpenPicker(old(State()))
    {
      tempSelectedRoom := selectedRoom;
      showPicker := true;
    }

    method SetTempSelectedRoom(value: string)
      modifies this
      ensures State() == ScrollPicker(old(State()), value)
    {
      tempSelectedRoom := value;
    }

    method HandlePickerDone()
      modifies this
      ensures State() == PickerDone(old(State()))
    {
      HandleRoomSelect(tempSelectedRoom);
      showPicker := false;
    }

    method HandlePickerCancel()
      modifies this
      ensures State() == PickerCancel(old(State()))
    {
      tempSelectedRoom := selectedRoom;
      showPicker := false;
    }

    /** `handleJoin` up to the `await`: validate, then mark loading and send. */
    method PressJoin() returns (start: JoinStart)
      modifies this
      ensures start == StartHostJoin(ServerUrl, old(username), old(selectedRoom))
      ensures State() == old(State()).(isLoading := start.Sent? || old(isLoading))
    {
      if username == "" {
        return Blocked(Alert(ErrorTitle, UsernameRequired));
      }
      isLoading := true;
      start := Sent(TokenRequest(ServerUrl + TokenPath, RequestBody(username, selectedRoom, Some(selectedRoom == "")), RequestTimeoutMs));
    }

    /** `handleJoin` after the `await`: navigate or alert, and clear the loading flag in `finally`. */
    method ReceiveResponse(outcome: HttpOutcome) returns (end: JoinEnd)
      modifies this
      ensures end == FinishHostJoin(outcome)
      ensures State() == old(State()).(isLoading := false)
    {
      match outcome {
        case Success(token, room, displayName) =>
          end := Navigated(Navigation("/room", token, room, Some(displayName)));
        case Failure(message) =>
          end := Alerted(FailureAlert(message));
      }
      isLoading := false;
    }

    /** The whole of `handleJoin`, run to completion with the server's `outcome`. */
    method HandleJoin(outcome: HttpOutcome) returns (start: JoinStart, end: Option<JoinEnd>)
      modifies this
      ensures start == StartHostJoin(ServerUrl, old(username), old(selectedRoom))
      ensures start.Blocked? ==> end.None? && State() == old(State())
      ensures start.Sent? ==> end == Some(FinishHostJoin(outcome)) && State() == old(State()).(isLoading := false)
    {
      start := PressJoin();
      if start.Blocked? {
        return start, None;
      }
      var e := ReceiveResponse(outcome);
      end := Some(e);
    }
  }

  /**
   * The same run on the screen object: r1 is chosen while it has
   * participants, then empties, and the installed handler leaves it selected.
   */
  method StaleHandlerRun()
  {
    var screen := new NativeJoinScreen();
    screen.OnMessage(DirectoryMessage(RoomsMessageType, [Room("r1", "Ann", 2)]));
    screen.HandleRoomSelect("r1");
    assert screen.selectedRoom == "r1";
    screen.OnMessage(DirectoryMessage(RoomsMessageType, [Room("r1", "Ann", 0)]));
    assert screen.rooms == [];
    assert screen.selectedRoom == "r1";
  }
}
