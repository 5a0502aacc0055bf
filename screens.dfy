/** The state and the handlers of the two chat screens, `PublicChat` and
    `PrivateChat`. Both keep the text being typed and the list of messages
    last delivered, show that list sorted by timestamp, and send the typed
    text to their room. They differ only in the room and in the record they
    push, so one class models both, told apart by its `Room`. */
module Screens {
  import opened Js
  import opened Records
  import opened Store
  import opened Rooms

  /** The signed-in user as the session gives it: a uid and an email that
      may be missing (`null`). */
  datatype User = User(uid: string, email: Option<string>)

  /** `auth.currentUser?.uid`. */
  function Uid(currentUser: Option<User>): (id: Option<string>)
    ensures id.Some? <==> currentUser.Some?
    ensures currentUser.Some? ==> id.value == currentUser.value.uid
  {
    match currentUser
    case None => None
    case Some(u) => Some(u.uid)
  }

  /** `auth.currentUser?.email || 'Anon'`: the email when there is one and it
      is not the (falsy) empty string, `Anon` otherwise. */
  function SenderLabel(currentUser: Option<User>): (name: string)
    ensures name != ""
    ensures (currentUser.Some? && currentUser.value.email.Some? && currentUser.value.email.value != "")
            ==> Some(name) == currentUser.value.email
    ensures !(currentUser.Some? && currentUser.value.email.Some? && currentUser.value.email.value != "")
            ==> name == "Anon"
  {
    match currentUser
    case Some(User(_, Some(e))) => if e != "" then e else "Anon"
    case _ => "Anon"
  }

  /** The room of a private screen opened for `receiverId`: the sender is
      whoever is signed in when the screen is shown. */
  function PrivateRoomFor(currentUser: Option<User>, receiverId: string): (room: Room)
    ensures room.PrivateRoom? && room.receiverId == receiverId
    ensures room.senderId == Uid(currentUser)
  {
    PrivateRoom(Uid(currentUser), receiverId)
  }

  /** Two signed-in users who open each other's private screen subscribe and
      push to the same location, whatever their emails. */
  lemma PrivateScreensMeet(a: string, ea: Option<string>, b: string, eb: Option<string>)
    ensures RoomPath(PrivateRoomFor(Some(User(a, ea)), b)) == RoomPath(PrivateRoomFor(Some(User(b, eb)), a))
  {
    PrivatePathsMeet(a, b);
  }

  /** With nobody signed in, the private screen does not refuse to open: it
      addresses the location of the room `receiverId + "_"`. */
  lemma PrivateScreenAnonymous(receiverId: string)
    ensures RoomPath(PrivateRoomFor(None, receiverId)) == PrivatePath(receiverId + "_")
  {
    ChatIdAnonymous(receiverId);
  }

  /** `{ text, user, timestamp }`, pushed by the public screen. */
  function PublicRecord(text: string, currentUser: Option<User>, now: int): (rec: Record)
    ensures rec.Keys == {"text", "user", "timestamp"}
    ensures rec["text"] == Str(text) && rec["user"] == Str(SenderLabel(currentUser))
    ensures HasTimestamp(rec) && Stamp(rec) == now
    ensures Storable(rec)
  {
    map["text" := Str(text), "user" := Str(SenderLabel(currentUser)), "timestamp" := Num(now)]
  }

  /** `{ text, from, to, timestamp }`, pushed by the private screen; `from`
      is `undefined` when nobody is signed in, and then the store refuses
      the record. */
  function PrivateRecord(text: string, senderId: Option<string>, receiverId: string, now: int): (rec: Record)
    ensures rec.Keys == {"text", "from", "to", "timestamp"}
    ensures rec["text"] == Str(text) && rec["to"] == Str(receiverId)
    ensures senderId.Some? ==> rec["from"] == Str(senderId.value)
    ensures HasTimestamp(rec) && Stamp(rec) == now
    ensures Storable(rec) <==> senderId.Some?
  {
    var from := match senderId case None => Undefined case Some(s) => Str(s);
    map["text" := Str(text), "from" := from, "to" := Str(receiverId), "timestamp" := Num(now)]
  }

  /** The record a screen of `room` pushes for `text`. */
  function OutgoingRecord(room: Room, text: string, currentUser: Option<User>, now: int): (rec: Record)
    ensures "text" in rec && rec["text"] == Str(text) && "id" !in rec
    ensures HasTimestamp(rec) && Stamp(rec) == now
    ensures !Storable(rec) <==> room.PrivateRoom? && room.senderId.None?
  {
    match room
    case PublicRoom => PublicRecord(text, currentUser, now)
    case PrivateRoom(s, r) => PrivateRecord(text, s, r, now)
  }

  /** What one press of the send button did: nothing (blank text), one
      record pushed, or a push the store refused by throwing. */
  datatype SendOutcome = Ignored | Pushed | Thrown

  /** A pushed message reaches the room: the snapshot its subscribers get next
      ends with an item whose `id` is the push key, whose text and timestamp
      are the ones sent, and whose sender fields are the screen's: `user` on
      the public screen, `from` and `to` on a private one. An anonymous
      private send never reaches `Appended`: the store refuses its record and
      `Send` returns `Thrown`. */
  lemma SentMessageDelivered(data: Tree, room: Room, key: string, text: string,
                             currentUser: Option<User>, now: int)
    ensures var rec := OutgoingRecord(room, text, currentUser, now);
            var items := Parse(SnapshotOf(Appended(data, RoomPath(room), key, rec), RoomPath(room)));
            && |items| == |EntriesAt(data, RoomPath(room))| + 1
            && var last := items[|items| - 1];
            && last["id"] == Str(key)
            && last["text"] == Str(text)
            && HasTimestamp(last) && Stamp(last) == now
            && (room.PublicRoom? ==> "user" in last && last["user"] == Str(SenderLabel(currentUser)))
            && (room.PrivateRoom? ==> "to" in last && last["to"] == Str(room.receiverId))
            && (room.PrivateRoom? && room.senderId.Some? ==> "from" in last && last["from"] == Str(room.senderId.value))
  {
    var rec := OutgoingRecord(room, text, currentUser, now);
    PushedRecordDelivered(data, RoomPath(room), key, rec);
  }

  /** Every child at `path` carries a numeric timestamp. */
  predicate StampedAt(data: Tree, path: string) {
    forall i :: 0 <= i < |EntriesAt(data, path)| ==> HasTimestamp(EntriesAt(data, path)[i].value)
  }

  /** A send keeps a location whose children are all stamped that way, since
      every record a screen pushes carries the time it was sent. */
  lemma SendKeepsRoomStamped(data: Tree, room: Room, key: string, text: string,
                             currentUser: Option<User>, now: int)
    requires StampedAt(data, RoomPath(room))
    ensures StampedAt(Appended(data, RoomPath(room), key, OutgoingRecord(room, text, currentUser, now)), RoomPath(room))
  {
    var es := EntriesAt(data, RoomPath(room));
    var rec := OutgoingRecord(room, text, currentUser, now);
    assert forall i :: 0 <= i < |es| ==> (es + [Child(key, rec)])[i] == es[i];
  }

  /** The snapshot of a location whose children are all stamped parses to a
      list `ShowMessages` accepts: a screen that only ever received the
      snapshots of a room written by screens can always show its messages. */
  lemma StampedRoomParsesStamped(data: Tree, path: string)
    requires StampedAt(data, path)
    ensures AllStamped(Parse(SnapshotOf(data, path)))
  {
    if EntriesAt(data, path) != [] {
      ParseKeepsStamps(EntriesAt(data, path));
    }
  }

  /** A send leaves the snapshot of every other room's location as it was.
      Room locations never contain one another while ids contain no `/`;
      nested locations are outside this flat store. */
  lemma SendLeavesOtherRoomsAlone(data: Tree, path: string, key: string, rec: Record, other: string)
    requires other != path
    ensures SnapshotOf(Appended(data, path, key, rec), other) == SnapshotOf(data, other)
  {
  }

  class ChatScreen {
    const room: Room
    /** The `text` state: what is in the input box. */
    var text: string
    /** The `messages` state: the list last delivered, which the screen sorts
        in place each time it shows it. */
    var messages: array<Record>

    /** Both states start empty: `useState('')`, `useState([])`. */
    constructor (room: Room)
      ensures this.room == room && text == "" && messages.Length == 0
    {
      this.room := room;
      text := "";
      messages := new Record[0];
    }

    /** `onChangeText={setText}`. */
    method ChangeText(t: string)
      modifies this`text
      ensures text == t
    {
      text := t;
    }

    /** The `onValue` callback: the delivered snapshot, projected, replaces
        the message list as a whole; nothing of the old list survives. */
    method ReceiveSnapshot(s: Snapshot)
      modifies this`messages
      ensures fresh(messages) && messages[..] == Parse(s)
    {
      var items := Parse(s);
      messages := new Record[|items|](i requires 0 <= i < |items| => items[i]);
    }

    /** `messages.sort((a, b) => a.timestamp - b.timestamp)` as the list is
        shown: afterwards the list is non-decreasing by timestamp and holds
        the same messages. */
    method ShowMessages()
      requires AllStamped(messages[..])
      modifies messages
      ensures AllStamped(messages[..]) && SortedByStamp(messages[..])
      ensures multiset(messages[..]) == old(multiset(messages[..]))
    {
      SortByTimestamp(messages);
    }

    /** `sendMessage`: blank text does nothing; otherwise one record with the
        untrimmed text and the time `now` is pushed under `key` at the room's
        path and the input is cleared. A push the store refuses throws before
        the input is cleared. */
    method Send(db: Database, key: string, now: int, currentUser: Option<User>)
      returns (outcome: SendOutcome)
      requires db.Valid()
      requires key !in KeysOf(EntriesAt(db.data, RoomPath(room)))
      modifies this`text, db
      ensures db.Valid()
      ensures outcome == Ignored <==> IsBlank(old(text))
      ensures outcome == Thrown <==> !IsBlank(old(text)) && room.PrivateRoom? && room.senderId.None?
      ensures outcome != Pushed ==> db.data == old(db.data) && text == old(text)
      ensures outcome == Pushed ==>
                && db.data == Appended(old(db.data), RoomPath(room), key, OutgoingRecord(room, old(text), currentUser, now))
                && text == ""
    {
      if IsBlank(text) {
        return Ignored;
      }
      var ok := db.Push(RoomPath(room), key, OutgoingRecord(room, text, currentUser, now));
      if !ok {
        return Thrown;
      }
      text := "";
      return Pushed;
    }
  }
}
