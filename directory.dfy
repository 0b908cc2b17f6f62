/**
 * The room directory as the join screens see it: the decoded socket
 * message, the display filter, the lookup by room id and the labels the
 * room pickers show.
 */
module Directory {
  import opened Wrappers
  import Decimal

  /** One entry of the directory snapshot pushed by the server. */
  datatype Room = Room(roomId: string, displayName: string, participantCount: nat)

  /** A decoded socket frame: its `type` field and its `rooms` array. */
  datatype DirectoryMessage = DirectoryMessage(kind: string, rooms: seq<Room>)

  const RoomsMessageType := "rooms"

  /** The label of the "no room chosen" entry, which makes the joiner the host. */
  const DefaultRoomLabel := "Start your own stream"

  /** Room ids are unique within a snapshot. */
  ghost predicate UniqueIds(rooms: seq<Room>) {
    forall i, j :: 0 <= i < j < |rooms| ==> rooms[i].roomId != rooms[j].roomId
  }

  /** Whether some room in `rooms` has id `id`. */
  ghost predicate Listed(rooms: seq<Room>, id: string) {
    exists r :: r in rooms && r.roomId == id
  }

  /** The display filter: the rooms that have at least one participant. */
  function ActiveRooms(rooms: seq<Room>): (active: seq<Room>)
    ensures forall r :: r in active <==> r in rooms && r.participantCount > 0
    ensures |active| <= |rooms|
  {
    if rooms == [] then []
    else if rooms[0].participantCount > 0 then [rooms[0]] + ActiveRooms(rooms[1..])
    else ActiveRooms(rooms[1..])
  }

  /** The filter works entry by entry, so it keeps the snapshot's order. */
  lemma {:induction false} ActiveRoomsAppend(a: seq<Room>, b: seq<Room>)
    ensures ActiveRooms(a + b) == ActiveRooms(a) + ActiveRooms(b)
  {
    if a != [] {
      assert (a + b)[1..] == a[1..] + b;
      ActiveRoomsAppend(a[1..], b);
    } else {
      assert a + b == b;
    }
  }

  /** A single entry survives the filter exactly when it has participants. */
  lemma ActiveRoomsSingle(r: Room)
    ensures ActiveRooms([r]) == if r.participantCount > 0 then [r] else []
  {
    assert [r][1..] == [];
  }

  /** A snapshot whose rooms all have participants passes the filter whole. */
  lemma {:induction false} ActiveRoomsKeepsActive(rooms: seq<Room>)
    requires forall i :: 0 <= i < |rooms| ==> rooms[i].participantCount > 0
    ensures ActiveRooms(rooms) == rooms
  {
    if rooms != [] {
      ActiveRoomsKeepsActive(rooms[1..]);
      assert [rooms[0]] + rooms[1..] == rooms;
    }
  }

  /** `rooms.find(r => r.roomId === id)`: the first room with that id, if any. */
  function FindRoom(rooms: seq<Room>, id: string): (found: Option<Room>)
    ensures found.None? <==> !Listed(rooms, id)
    ensures found.Some? ==> found.value in rooms && found.value.roomId == id
    ensures found.Some? ==> exists i :: 0 <= i < |rooms| && rooms[i] == found.value &&
                              forall j :: 0 <= j < i ==> rooms[j].roomId != id
  {
    if rooms == [] then None
    else if rooms[0].roomId == id then Some(rooms[0])
    else
      var rest := FindRoom(rooms[1..], id);
      assert rest.Some? ==> exists i :: 0 < i < |rooms| && rooms[i] == rest.value &&
                                         forall j :: 0 <= j < i ==> rooms[j].roomId != id by {
        if rest.Some? {
          var k :| 0 <= k < |rooms[1..]| && rooms[1..][k] == rest.value &&
                   forall j :: 0 <= j < k ==> rooms[1..][j].roomId != id;
          assert rooms[k + 1] == rest.value;
          assert forall j :: 0 < j < k + 1 ==> rooms[j].roomId == rooms[1..][j - 1].roomId != id;
        }
      }
      assert Listed(rooms, id) ==> Listed(rooms[1..], id) by {
        if Listed(rooms, id) {
          var r :| r in rooms && r.roomId == id;
          assert r in rooms[1..];
        }
      }
      rest
  }

  /** With unique ids, looking up the id of an entry finds that very entry. */
  lemma FindRoomUnique(rooms: seq<Room>, i: nat)
    requires UniqueIds(rooms)
    requires i < |rooms|
    ensures FindRoom(rooms, rooms[i].roomId) == Some(rooms[i])
  {
    var found := FindRoom(rooms, rooms[i].roomId);
    assert Listed(rooms, rooms[i].roomId) by { assert rooms[i] in rooms; }
    var k :| 0 <= k < |rooms| && rooms[k] == found.value &&
             forall j :: 0 <= j < k ==> rooms[j].roomId != rooms[i].roomId;
    assert !(i < k);
    assert !(k < i);
  }

  /** `participantCount === 1 ? "viewer" : "viewers"`. */
  function ViewerWord(count: nat): (word: string)
    ensures word == "viewer" <==> count == 1
    ensures word == "viewers" <==> count != 1
  {
    if count == 1 then "viewer" else "viewers"
  }

  /**
   * `${displayName} (${participantCount} viewer[s])`: the label opens with
   * the display name and " (", and takes the plural "viewers)" ending
   * exactly when the count is not one.
   */
  function RoomLabel(room: Room): (text: string)
    ensures |text| > |room.displayName| + 2
    ensures text[..|room.displayName| + 2] == room.displayName + " ("
    ensures text[|text| - 2..] == "s)" <==> room.participantCount != 1
  {
    var word := ViewerWord(room.participantCount);
    var text := room.displayName + " (" + Decimal.NatToString(room.participantCount) + " " + word + ")";
    assert text == (room.displayName + " (") + (Decimal.NatToString(room.participantCount) + " " + word + ")");
    assert text[|text| - 2..] == [word[|word| - 1], ')'];
    text
  }

  /** The numeral after the name reads back as the participant count. */
  lemma RoomLabelShowsCount(room: Room)
    ensures var start := |room.displayName| + 2;
            var digits := Decimal.NatToString(room.participantCount);
            && start + |digits| <= |RoomLabel(room)|
            && RoomLabel(room)[start..start + |digits|] == digits
            && Decimal.ParseDigits(digits) == room.participantCount
  {
    var start := |room.displayName| + 2;
    var digits := Decimal.NatToString(room.participantCount);
    var text := RoomLabel(room);
    assert text == (room.displayName + " (") + digits + (" " + ViewerWord(room.participantCount) + ")");
    assert text[start..start + |digits|] == digits;
    Decimal.ParseNatToString(room.participantCount);
  }

  /** One entry of a room picker: what it shows and the room id it stands for. */
  datatype PickerItem = PickerItem(caption: string, value: string)

  /** The picker's entries: "Start your own stream" (value "") followed by one entry per listed room. */
  function PickerItems(rooms: seq<Room>): (items: seq<PickerItem>)
    ensures |items| == |rooms| + 1
    ensures items[0] == PickerItem(DefaultRoomLabel, "")
    ensures forall i :: 0 <= i < |rooms| ==> items[i + 1] == PickerItem(RoomLabel(rooms[i]), rooms[i].roomId)
  {
    [PickerItem(DefaultRoomLabel, "")] +
    seq(|rooms|, i requires 0 <= i < |rooms| => PickerItem(RoomLabel(rooms[i]), rooms[i].roomId))
  }

  /** Whether `v` is the value of one of the picker's entries. */
  ghost predicate PickerValue(rooms: seq<Room>, v: string) {
    exists i :: 0 <= i < |PickerItems(rooms)| && PickerItems(rooms)[i].value == v
  }

  /** The values a picker offers are "" and the listed room ids, nothing else. */
  lemma PickerValues(rooms: seq<Room>, v: string)
    ensures PickerValue(rooms, v) <==> v == "" || Listed(rooms, v)
  {
    var items := PickerItems(rooms);
    if v == "" {
      assert items[0].value == v;
    } else if Listed(rooms, v) {
      var r :| r in rooms && r.roomId == v;
      var i :| 0 <= i < |rooms| && rooms[i] == r;
      assert items[i + 1].value == v;
    }
    if PickerValue(rooms, v) && v != "" {
      var i :| 0 <= i < |items| && items[i].value == v;
      assert i != 0;
      assert rooms[i - 1] in rooms;
    }
  }

  /** The room picker is rendered only when the list is non-empty (`rooms.length > 0 && …`). */
  function ShowsRoomPicker(rooms: seq<Room>): (shown: bool)
    ensures shown <==> rooms != []
  {
    |rooms| > 0
  }
}
