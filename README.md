# Join screens of a LiveKit video-chat client, modelled in Dafny

The client opens on a join screen. A socket pushes the server's directory of
rooms, the user picks a room or chooses "Start your own stream", and pressing
Join asks the server for a token. The screen then either navigates to the
room or shows an alert. There are three variants of this screen:

* the **native** screen (`app/index.tsx`): it filters out empty rooms, has a
  rule that clears a selection that is no longer listed, which the installed
  handler never applies (see Findings), keeps a label for the selection, and
  offers an iOS modal picker that edits a temporary selection until Done or
  Cancel;
* the **web** screen (`app/index.web.tsx`): the same Join logic, an unfiltered
  list and a plain `<select>`;
* the **legacy** screen (`screens/JoinScreen.tsx`): the user types the room
  name, both fields are required, and no host flag is sent.

Modules:

* `Decimal`: how a participant count is printed inside a label, with its
  reading back.
* `Directory`: rooms, decoded messages, the display filter, the lookup by id,
  the room labels, and the picker entries that the native and web screens share.
* `Join`: the token request, the outcome of the HTTP call given as an input
  value, the alert and navigation as output values, and the rules that the
  native and web screens share.
* `NativeJoin`, `WebJoin`, `LegacyJoin`: one module per screen. Each holds a
  state datatype and a class with the component's state fields, whose
  methods make the same updates the handlers make through their setters.
  In `NativeJoin` and `WebJoin`, pure transition functions over the state
  datatype specify the handlers. In `LegacyJoin` the class methods state the
  new state directly, and pure functions give the request and the navigation. The native socket handler
  is installed once, by an effect with no dependencies, and keeps the first
  render's selection. The class records that value in the field
  `capturedSelection` (always ""), and its `OnMessage` reads that field, as
  the installed handler does.

`handleJoin` is split at the token request's `await`; the username save
that the native screen awaits before it is left out. `PressJoin` validates the input, sets the
loading flag and produces the request. `ReceiveResponse` takes the outcome,
produces the navigation or the alert, and clears the loading flag (the
`finally` block). `HandleJoin` runs both halves to completion one after the other.

## Model

| member | source | states |
|---|---|---|
| Decimal.NatToString | app/index.tsx:157 | a count prints as a non-empty digit string; its first digit is '0' only for zero |
| Decimal.ParseNatToString | app/index.tsx:157 | reading the printed numeral back gives the count |
| Directory.ActiveRooms | app/index.tsx:70-72 | a room is kept exactly when it is in the snapshot and has more than zero participants |
| Directory.ActiveRoomsAppend | app/index.tsx:70-72 | the filter works entry by entry, so the snapshot's order is kept |
| Directory.ActiveRoomsSingle | app/index.tsx:70-72 | a single entry survives exactly when its count is positive |
| Directory.ActiveRoomsKeepsActive | app/index.tsx:70-72 | a snapshot whose rooms are all active passes unchanged |
| Directory.FindRoom | app/index.tsx:78 | `find` gives nothing exactly when no room has the id; otherwise it gives the first room with that id |
| Directory.FindRoomUnique | app/index.tsx:154 | when ids are unique, looking up an entry's id finds that entry |
| Directory.ViewerWord | app/index.tsx:157-159 | "viewer" exactly when the count is 1, "viewers" otherwise |
| Directory.RoomLabel | app/index.tsx:156-160 | the label starts with the display name followed by " ("; it ends in "s)" exactly when the count is not 1; the same template is used at app/index.tsx:222-224, app/index.tsx:329-331 and app/index.web.tsx:134-136 |
| Directory.RoomLabelShowsCount | app/index.tsx:156-160 | the numeral after the name reads back as the participant count |
| Directory.PickerItems | app/index.tsx:218-227 | the first entry is "Start your own stream" with value ""; then one entry per room, in order, each with the room's label and its id (the web `<option>`s at app/index.web.tsx:131-138 are the same) |
| Directory.PickerValues | app/index.tsx:218-227 | the picker offers "" and the listed room ids, and nothing else |
| Directory.ShowsRoomPicker | app/index.tsx:265 | the picker is rendered exactly when the list is non-empty (also app/index.web.tsx:124) |
| Join.FailureAlert | app/index.tsx:139-143 | the alert title is "Error"; the text is the server's message when that is present and non-empty, otherwise the generic fallback; the text is never blank |
| Join.StartHostJoin | app/index.tsx:103-130 | Join is refused with "Please enter your username." exactly when the username is empty; otherwise the request goes to `/get-token` with a 10000 ms timeout, carrying the username, `room` = selection, and `isHost` true exactly when nothing is selected |
| Join.FinishHostJoin | app/index.tsx:132-143 | success navigates to `/room` with the response's token, room and display name, unchanged; failure gives the failure alert |
| Join.HostAndJoinRequestsDiffer | app/index.tsx:124-128 | a host request has room "" and isHost true; a join request has the room id and isHost false; both go to the same URL |
| Join.JoinButton | app/index.tsx:272-284 | a spinner exactly while loading; otherwise "Join Stream" exactly when a room is selected and "Start Stream" exactly when none is (also app/index.web.tsx:148-153) |
| Join.JoinButtonMatchesRequest | app/index.tsx:283 | the button reads "Start Stream" exactly when pressing it sends a request with isHost true |
| NativeJoin.ApplyMessage | app/index.tsx:66-84 | a non-"rooms" message changes nothing. A "rooms" message stores the filtered list and changes no field besides the list, the selection and the label. The selection and label reset to "" and "Start your own stream" exactly when the selection the handler sees is non-empty and not listed; otherwise they stay |
| NativeJoin.SnapshotKeepsSelectionListed | app/index.tsx:76-82 | after a rooms message that reads the current selection, the selection is "" or a listed room, and every stored room has participants |
| NativeJoin.StaleSelectionNeverClears | app/index.tsx:45-100 | a handler that reads the first render's selection "" never changes the selection or its label |
| NativeJoin.VanishedRoomStaysSelected | app/index.tsx:45-100 | a concrete run: room r1 is selected, a snapshot shows r1 with 0 participants, and the installed handler leaves r1 selected although it is no longer listed |
| NativeJoin.SelectRoom | app/index.tsx:149-163 | the selection always becomes the argument; the label becomes the default for "", becomes the label of the first room with that id when one is listed, and is unchanged otherwise; nothing else changes |
| NativeJoin.OpenPicker | app/index.tsx:165-168 | the temporary selection is set to the selection and the modal is shown |
| NativeJoin.ScrollPicker | app/index.tsx:316-319 | only the temporary selection changes |
| NativeJoin.PickerDone | app/index.tsx:170-173 | the temporary selection is selected as `handleRoomSelect` would select it, and the modal is hidden |
| NativeJoin.PickerCancel | app/index.tsx:175-178 | the temporary selection is reset and the modal hidden; the selection and label are untouched |
| NativeJoin.SelectPickerValueKeepsListed | app/index.tsx:212-227 | choosing any picker entry leaves the selection "" or a listed room |
| NativeJoin.SelectedLabelIsItemCaption | app/index.tsx:218-227 | when ids are unique and non-empty, the label shown after choosing an entry is that entry's caption |
| NativeJoin.CancelDiscardsChoice | app/index.tsx:165-178 | open, scroll to any value, then Cancel: the selection and label are as before the picker opened |
| NativeJoin.DoneAppliesChoice | app/index.tsx:165-178 | open, scroll to a value, then Done: the same as selecting that value directly |
| NativeJoin.NativeJoinScreen.constructor | app/index.tsx:33-42 | the first render's state: empty username and list, not loading, nothing selected, default label, modal hidden; the selection captured for the socket handler is that first "" |
| NativeJoin.NativeJoinScreen.EnterUsername | app/index.tsx:255-259 | only the username changes |
| NativeJoin.NativeJoinScreen.OnMessage | app/index.tsx:45-100 | the new state is `ApplyMessage` of the old state, with the captured first-render selection as the one the handler sees, so the selection is never cleared (StaleSelectionNeverClears) |
| NativeJoin.NativeJoinScreen.HandleRoomSelect | app/index.tsx:149-163 | the new state is `SelectRoom` of the old one |
| NativeJoin.NativeJoinScreen.HandlePickerOpen | app/index.tsx:165-168 | the new state is `OpenPicker` of the old one |
| NativeJoin.NativeJoinScreen.SetTempSelectedRoom | app/index.tsx:316-319 | the new state is `ScrollPicker` of the old one |
| NativeJoin.NativeJoinScreen.HandlePickerDone | app/index.tsx:170-173 | the new state is `PickerDone` of the old one |
| NativeJoin.NativeJoinScreen.HandlePickerCancel | app/index.tsx:175-178 | the new state is `PickerCancel` of the old one |
| NativeJoin.NativeJoinScreen.PressJoin | app/index.tsx:102-130 | returns `StartHostJoin` of the username and selection; the loading flag is set only when a request is sent; nothing else changes |
| NativeJoin.NativeJoinScreen.ReceiveResponse | app/index.tsx:132-146 | returns `FinishHostJoin` of the outcome; the loading flag is false afterwards; nothing else changes |
| NativeJoin.NativeJoinScreen.HandleJoin | app/index.tsx:102-147 | a refused join issues no request and changes nothing; a sent one ends with `FinishHostJoin` of the outcome and the loading flag false |
| WebJoin.ApplyMessage | app/index.web.tsx:40-45 | a "rooms" message replaces the list with the message's rooms, empty rooms included, and leaves the selection alone; other messages change nothing |
| WebJoin.ChooseOption | app/index.web.tsx:126-131 | the selection becomes exactly the chosen option's value; nothing else changes |
| WebJoin.EmptyRoomStaysListed | app/index.web.tsx:42-44 | a room with 0 participants is stored by the web screen; the native filter drops it |
| WebJoin.AgreesWithNativeOnActiveSnapshots | app/index.web.tsx:42-44 | when every room has participants, web and native store the same list |
| WebJoin.DefaultOptionHosts | app/index.web.tsx:131 | choosing the "Start your own stream" option makes the next request ask to host |
| WebJoin.WebJoinScreen.constructor | app/index.web.tsx:25-28 | empty username and list, not loading, nothing selected |
| WebJoin.WebJoinScreen.EnterUsername | app/index.web.tsx:115-121 | only the username changes |
| WebJoin.WebJoinScreen.OnMessage | app/index.web.tsx:40-45 | the new state is `ApplyMessage` of the old one |
| WebJoin.WebJoinScreen.OnSelectChange | app/index.web.tsx:128 | the new state is `ChooseOption` of the old one |
| WebJoin.WebJoinScreen.PressJoin | app/index.web.tsx:63-84 | returns `StartHostJoin` of the username and selection; loading is set only when a request is sent |
| WebJoin.WebJoinScreen.ReceiveResponse | app/index.web.tsx:86-104 | returns `FinishHostJoin` of the outcome; loading is false afterwards (`finally`) |
| WebJoin.WebJoinScreen.HandleJoin | app/index.web.tsx:63-105 | a refused join changes nothing and issues no request; a sent one ends with `FinishHostJoin` and loading false |
| LegacyJoin.StartLegacyJoin | screens/JoinScreen.tsx:24-40 | refused with "Please enter both username and room." exactly when either field is empty; otherwise the body is exactly `{username, room}`, with no host flag, sent to `/get-token` with a 10000 ms timeout |
| LegacyJoin.FinishLegacyJoin | screens/JoinScreen.tsx:42-50 | success navigates to "Room" with the token and the room of the sent request; failure gives the failure alert |
| LegacyJoin.OpensTypedRoom | screens/JoinScreen.tsx:42-43 | whatever room and name the server answers with, the room opened is the one the user typed |
| LegacyJoin.StricterThanHostJoin | screens/JoinScreen.tsx:24-38 | every request sent here would pass the directory screens' check and carries no host flag; a username without a room is refused here but accepted there |
| LegacyJoin.LegacyJoinButton | screens/JoinScreen.tsx:109-119 | a spinner exactly while loading, otherwise "Join Room" |
| LegacyJoin.LegacyJoinScreen.constructor | screens/JoinScreen.tsx:18-20 | empty username and room, not loading |
| LegacyJoin.LegacyJoinScreen.EnterUsername | screens/JoinScreen.tsx:78-85 | only the username changes |
| LegacyJoin.LegacyJoinScreen.EnterRoom | screens/JoinScreen.tsx:94-102 | only the room changes |
| LegacyJoin.LegacyJoinScreen.PressJoin | screens/JoinScreen.tsx:23-40 | returns `StartLegacyJoin`; the loading flag is set only after validation passed |
| LegacyJoin.LegacyJoinScreen.ReceiveResponse | screens/JoinScreen.tsx:42-53 | returns `FinishLegacyJoin` for the request that was sent; loading is false afterwards |
| LegacyJoin.LegacyJoinScreen.HandleJoin | screens/JoinScreen.tsx:23-54 | a refused join changes nothing; a sent one ends with `FinishLegacyJoin` and loading false, and a success opens the room typed at the press |

## Left out

- Rendering, layout, styles, icons, and the choice between the iOS modal and the inline picker by `Platform.OS`: both paths are modelled as handlers, and the widgets are not.
- The socket transport: construction, `onopen`, `onerror`, `onclose` (which only log), and `socket.close()` on unmount. `JSON.parse` is left out as well; the handler receives an already decoded message with a `rooms` array (a "rooms" frame without one would throw in `filter`).
- The HTTP call, its headers and its timeout machinery: its outcome is an input value (success body, or failure with an optional server message). A timeout is one kind of failure, and every failure gets the same alert rule.
- Non-string or falsy non-empty `message` values in the error body: the message is modelled as an optional string, and "" counts as absent, as `||` treats it.
- Saving and loading the username in AsyncStorage (app/index.tsx:47-57, 109-113). This is best-effort I/O that only logs on failure.
- `router.push`, `navigation.navigate` and `Alert.alert` are output values only. Whether navigation itself can throw into the `catch` is not modelled.
- The participant count is a natural number printed as plain decimal digits. Three kinds of JavaScript count fall outside that. Fractional or negative numbers are not modelled. Counts of 10^21 or more, which JavaScript prints in exponential form (`1e+21`), are not modelled. Counts above 2^53, which a JavaScript number does not hold exactly, are not modelled either.
- NativeJoin.NativeJoinScreen.PressJoin: the native `handleJoin` first awaits the AsyncStorage save of the username (app/index.tsx:109-113), and only then sets `isLoading` (app/index.tsx:115). During that save the button is still enabled, so a second press can pass validation and send a second request. The model treats validation, the save and `setIsLoading(true)` as one step, so it does not capture that window.
- Overlapping Join presses in general: the interleaving of in-flight requests is not modelled. Other handlers can run between `PressJoin` and `ReceiveResponse`, as with the real token request's `await`.
- The room screens (screens/RoomScreen.tsx, app/room/index.web.tsx, app/room/index.tsx), the navigator setup (app/_layout.tsx, App.tsx) and the media session: they wrap the LiveKit SDK, which is not part of this model.
- Behaviour the code does not have, so the model does not have it either. The web screen does not filter empty rooms. Timeouts get the same alert as any other failure. The legacy screen sends no host flag and does not open the room that the server names.

## Findings

| source | as written | input that shows it | evidently intended | confidence | as-written member | corrected member |
|---|---|---|---|---|---|---|
| app/index.tsx:45-100 | the socket handler is installed by an effect with an empty dependency list, so it reads the first render's `selectedRoom`, which is "", and the clearing branch at lines 76-82 never runs | select room r1 from a snapshot where it has 2 participants, then receive a snapshot where it has 0: r1 stays selected and the next Join asks for a room that is not listed | a room that leaves the list is deselected and the label resets to "Start your own stream" | not executed; follows from the closure semantics of the effect | NativeJoin.VanishedRoomStaysSelected, NativeJoin.StaleHandlerRun | NativeJoin.SnapshotKeepsSelectionListed |
