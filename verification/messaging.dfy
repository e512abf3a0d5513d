/**
 * The messaging tables: `messaging_rooms`, one row per (person,
 * institution) pair, and `messages`, each in one room.  Both are only
 * appended to; a row's id is its position.
 */
module Messaging {
  import opened Http
  import opened Store

  /** A message as a room read returns it. */
  datatype Posted = Posted(messageId: nat, text: string, fromPerson: bool)

  /** `SELECT ... FROM messaging_rooms WHERE person_id = ? AND institution_id = ?`:
      the id of the room joining that pair, if there is one. */
  function FindRoom(rooms: seq<Room>, room: Room): (r: Option<RoomId>)
    ensures r.Some? ==> r.value < |rooms| && rooms[r.value] == room
    ensures r.None? <==> room !in rooms
  {
    if rooms == [] then None
    else if rooms[|rooms| - 1] == room then Some(|rooms| - 1)
    else
      var r := FindRoom(rooms[..|rooms| - 1], room);
      assert rooms == rooms[..|rooms| - 1] + [rooms[|rooms| - 1]];
      r
  }

  /** The messages of room `roomId` among the first `n`, newest first
      (`ORDER BY message_id DESC`). */
  function ThreadBelow(messages: seq<Message>, roomId: RoomId, n: nat): (r: seq<Posted>)
    requires n <= |messages|
    ensures forall i :: 0 <= i < |r| ==>
      && r[i].messageId < n
      && messages[r[i].messageId] == Message(roomId, r[i].text, r[i].fromPerson)
  {
    if n == 0 then []
    else
      var rest := ThreadBelow(messages, roomId, n - 1);
      if messages[n - 1].roomId == roomId then
        [Posted(n - 1, messages[n - 1].text, messages[n - 1].fromPerson)] + rest
      else rest
  }

  /** The messages of room `roomId`, newest first. */
  function Thread(messages: seq<Message>, roomId: RoomId): seq<Posted>
  {
    ThreadBelow(messages, roomId, |messages|)
  }

  /** A thread lists its messages newest first. */
  lemma {:induction false} ThreadNewestFirst(messages: seq<Message>, roomId: RoomId, n: nat, i: nat, j: nat)
    requires n <= |messages| && i < j < |ThreadBelow(messages, roomId, n)|
    ensures ThreadBelow(messages, roomId, n)[i].messageId > ThreadBelow(messages, roomId, n)[j].messageId
    decreases n
  {
    var r := ThreadBelow(messages, roomId, n);
    var rest := ThreadBelow(messages, roomId, n - 1);
    if messages[n - 1].roomId == roomId {
      assert r[j] == rest[j - 1];
      if i > 0 {
        assert r[i] == rest[i - 1];
        ThreadNewestFirst(messages, roomId, n - 1, i - 1, j - 1);
      }
    } else {
      assert r == rest;
      ThreadNewestFirst(messages, roomId, n - 1, i, j);
    }
  }

  /** No message of the room is left out of its thread. */
  lemma {:induction false} ThreadComplete(messages: seq<Message>, roomId: RoomId, n: nat, k: nat)
    requires n <= |messages| && k < n && messages[k].roomId == roomId
    ensures exists i :: 0 <= i < |ThreadBelow(messages, roomId, n)| && ThreadBelow(messages, roomId, n)[i].messageId == k
    decreases n
  {
    var r := ThreadBelow(messages, roomId, n);
    var rest := ThreadBelow(messages, roomId, n - 1);
    if k == n - 1 {
      assert r[0].messageId == k;
    } else {
      ThreadComplete(messages, roomId, n - 1, k);
      var i :| 0 <= i < |rest| && rest[i].messageId == k;
      var j := if messages[n - 1].roomId == roomId then i + 1 else i;
      assert r[j] == rest[i];
    }
  }

  /** Appending a message changes no earlier prefix's thread. */
  lemma {:induction false} ThreadBelowAppend(messages: seq<Message>, m: Message, roomId: RoomId, n: nat)
    requires n <= |messages|
    ensures ThreadBelow(messages + [m], roomId, n) == ThreadBelow(messages, roomId, n)
    decreases n
  {
    if n > 0 {
      ThreadBelowAppend(messages, m, roomId, n - 1);
      assert (messages + [m])[n - 1] == messages[n - 1];
    }
  }

  /** Appending a message puts it at the head of its own room's thread and
      leaves every other room's thread as it was. */
  lemma {:induction false} ThreadAfterPost(messages: seq<Message>, m: Message, other: RoomId)
    ensures Thread(messages + [m], m.roomId) == [Posted(|messages|, m.text, m.fromPerson)] + Thread(messages, m.roomId)
    ensures other != m.roomId ==> Thread(messages + [m], other) == Thread(messages, other)
  {
    ThreadBelowAppend(messages, m, m.roomId, |messages|);
    ThreadBelowAppend(messages, m, other, |messages|);
  }

  /** Which side of a room a caller is on. */
  datatype Side = PersonSide | InstitutionSide

  predicate Joins(room: Room, side: Side, ownerId: nat)
  {
    match side
    case PersonSide => room.personId == ownerId
    case InstitutionSide => room.institutionId == ownerId
  }

  const NoSuchRoom := "Nem létező chat szoba"

  /** A room read after the caller's profile id `ownerId` was looked up: the
      room's messages when the room exists, joins the caller on `side` and
      holds at least one message; otherwise the same refusal in every case,
      so a caller cannot tell another pair's room from a missing one. */
  function ReadRoom(rooms: seq<Room>, messages: seq<Message>, side: Side, ownerId: nat, param: string)
    : (r: Reply<seq<Posted>>)
    ensures r.Ok? <==>
      && ParamId(param).Some? && ParamId(param).value < |rooms|
      && Joins(rooms[ParamId(param).value], side, ownerId)
      && Thread(messages, ParamId(param).value) != []
    ensures r.Ok? ==> r == Ok(200, Thread(messages, ParamId(param).value))
    ensures r.Fail? ==> r == Error(500, NoSuchRoom)
  {
    match ParamId(param)
    case None => Error(500, NoSuchRoom)
    case Some(id) =>
      if id >= |rooms| || !Joins(rooms[id], side, ownerId) || Thread(messages, id) == [] then
        Error(500, NoSuchRoom)
      else Ok(200, Thread(messages, id))
  }

  /** Get-or-create of the room joining `room`'s pair: an existing room is
      reused; otherwise exactly one room is appended. */
  method OpenRoom(db: Db, room: Room) returns (id: RoomId)
    requires db.MessagingValid()
    modifies db`rooms
    ensures db.MessagingValid()
    ensures id < |db.rooms| && db.rooms[id] == room
    ensures room in old(db.rooms) ==> db.rooms == old(db.rooms) && Some(id) == FindRoom(old(db.rooms), room)
    ensures room !in old(db.rooms) ==> db.rooms == old(db.rooms) + [room] && id == |old(db.rooms)|
  {
    var found := FindRoom(db.rooms, room);
    if found.Some? {
      return found.value;
    }
    id := |db.rooms|;
    db.rooms := db.rooms + [room];
  }

  /** The room a message went to and the new message's id. */
  datatype Sent = Sent(roomId: RoomId, messageId: nat)

  /** `INSERT INTO messages`: one message appended to an existing room. */
  method Post(db: Db, roomId: RoomId, text: string, fromPerson: bool) returns (id: nat)
    requires db.MessagingValid() && roomId < |db.rooms|
    modifies db`messages
    ensures db.MessagingValid()
    ensures db.messages == old(db.messages) + [Message(roomId, text, fromPerson)]
    ensures id == |old(db.messages)|
  {
    id := |db.messages|;
    db.messages := db.messages + [Message(roomId, text, fromPerson)];
  }
}
