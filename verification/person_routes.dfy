/**
 * The person routes that change the social graph and the messaging tables.
 * Each runs behind `StandardChain(Person)`; `caller` is the `req.user_id`
 * that `validToken` stored.  Every handler first reads the caller's
 * `person_id`; a missing person row makes that destructuring throw.
 */
module PersonRoutes {
  import opened Http
  import opened Store
  import opened Pairs
  import opened Messaging

  const DuplicateLike := "Két lájkot nem adhatsz le egy bejegyzésre"
  const AlreadyUnliked := "már vissza van vonva a lájk"
  const DuplicateFollow := "Már követed az inézményt"
  const AlreadyUnfollowed := "már kikövetted"

  /** `SELECT person_id FROM person WHERE user_id = ?`. */
  function PersonOf(persons: map<UserId, PersonRow>, caller: UserId): (r: Option<PersonId>)
    ensures r.Some? <==> caller in persons
    ensures r.Some? ==> r.value == persons[caller].personId
  {
    if caller in persons then Some(persons[caller].personId) else None
  }

  /** `POST /like/:news_id`: the caller's person row, then a non-empty id,
      then no earlier like of that news by that person, then the insert,
      which the foreign key refuses for a news item that does not exist.
      The answer is the news item's like count afterwards. */
  method Like(db: Db, caller: UserId, param: string) returns (r: Reply<nat>)
    modifies db`likes
    ensures caller !in db.persons ==> r == Error(500, RowMissing)
    ensures caller in db.persons && param == "" ==> r == Error(500, BadInput)
    ensures caller in db.persons && ParamId(param).Some? &&
            (db.persons[caller].personId, ParamId(param).value) in old(db.likes) ==>
      r == Error(500, DuplicateLike)
    ensures caller in db.persons && param != "" &&
            (ParamId(param).None? ||
             ((db.persons[caller].personId, ParamId(param).value) !in old(db.likes) && ParamId(param).value !in db.news)) ==>
      r == Error(500, ForeignKeyFails)
    ensures r.Ok? <==>
      && caller in db.persons && ParamId(param).Some? && ParamId(param).value in db.news
      && (db.persons[caller].personId, ParamId(param).value) !in old(db.likes)
    ensures r.Fail? ==> db.likes == old(db.likes)
    ensures r.Ok? ==>
      && db.likes == old(db.likes) + {(db.persons[caller].personId, ParamId(param).value)}
      && r.status == 200
      && r.value == |Fans(db.likes, ParamId(param).value)| == |Fans(old(db.likes), ParamId(param).value)| + 1
  {
    var person := PersonOf(db.persons, caller);
    if person.None? {
      return Error(500, RowMissing);
    }
    if param == "" {
      return Error(500, BadInput);
    }
    var newsId := ParamId(param);
    if newsId.Some? && (person.value, newsId.value) in db.likes {
      return Error(500, DuplicateLike);
    }
    if newsId.None? || newsId.value !in db.news {
      return Error(500, ForeignKeyFails);
    }
    FansAfterInsert(db.likes, person.value, newsId.value, newsId.value);
    db.likes := db.likes + {(person.value, newsId.value)};
    r := Ok(200, |Fans(db.likes, newsId.value)|);
  }

  /** `DELETE /unlike/:news_id`: removes that person's like of that news
      item; no such like is an error and changes nothing.  The answer is
      the like count afterwards. */
  method Unlike(db: Db, caller: UserId, param: string) returns (r: Reply<nat>)
    modifies db`likes
    ensures caller !in db.persons ==> r == Error(500, RowMissing)
    ensures caller in db.persons && param == "" ==> r == Error(500, BadInput)
    ensures caller in db.persons && param != "" &&
            (ParamId(param).None? || (db.persons[caller].personId, ParamId(param).value) !in old(db.likes)) ==>
      r == Error(500, AlreadyUnliked)
    ensures r.Ok? <==>
      caller in db.persons && ParamId(param).Some? &&
      (db.persons[caller].personId, ParamId(param).value) in old(db.likes)
    ensures r.Fail? ==> db.likes == old(db.likes)
    ensures r.Ok? ==>
      && db.likes == old(db.likes) - {(db.persons[caller].personId, ParamId(param).value)}
      && r.status == 200
      && r.value == |Fans(db.likes, ParamId(param).value)| == |Fans(old(db.likes), ParamId(param).value)| - 1
  {
    var person := PersonOf(db.persons, caller);
    if person.None? {
      return Error(500, RowMissing);
    }
    if param == "" {
      return Error(500, BadInput);
    }
    var newsId := ParamId(param);
    if newsId.None? || (person.value, newsId.value) !in db.likes {
      return Error(500, AlreadyUnliked);
    }
    FansAfterRemove(db.likes, person.value, newsId.value, newsId.value);
    db.likes := db.likes - {(person.value, newsId.value)};
    r := Ok(200, |Fans(db.likes, newsId.value)|);
  }

  /** `POST /follow/:institution_id`: as `Like`, over `following`; the
      answer is the institution's follower count afterwards. */
  method Follow(db: Db, caller: UserId, param: string) returns (r: Reply<nat>)
    modifies db`following
    ensures caller !in db.persons ==> r == Error(500, RowMissing)
    ensures caller in db.persons && param == "" ==> r == Error(500, BadInput)
    ensures caller in db.persons && ParamId(param).Some? &&
            (db.persons[caller].personId, ParamId(param).value) in old(db.following) ==>
      r == Error(500, DuplicateFollow)
    ensures caller in db.persons && param != "" &&
            (ParamId(param).None? ||
             ((db.persons[caller].personId, ParamId(param).value) !in old(db.following) &&
              !InstitutionExists(db.institutions, ParamId(param).value))) ==>
      r == Error(500, ForeignKeyFails)
    ensures r.Ok? <==>
      && caller in db.persons && ParamId(param).Some? && InstitutionExists(db.institutions, ParamId(param).value)
      && (db.persons[caller].personId, ParamId(param).value) !in old(db.following)
    ensures r.Fail? ==> db.following == old(db.following)
    ensures r.Ok? ==>
      && db.following == old(db.following) + {(db.persons[caller].personId, ParamId(param).value)}
      && r.status == 200
      && r.value == |Fans(db.following, ParamId(param).value)| == |Fans(old(db.following), ParamId(param).value)| + 1
  {
    var person := PersonOf(db.persons, caller);
    if person.None? {
      return Error(500, RowMissing);
    }
    if param == "" {
      return Error(500, BadInput);
    }
    var institutionId := ParamId(param);
    if institutionId.Some? && (person.value, institutionId.value) in db.following {
      return Error(500, DuplicateFollow);
    }
    if institutionId.None? || !InstitutionExists(db.institutions, institutionId.value) {
      return Error(500, ForeignKeyFails);
    }
    FansAfterInsert(db.following, person.value, institutionId.value, institutionId.value);
    db.following := db.following + {(person.value, institutionId.value)};
    r := Ok(200, |Fans(db.following, institutionId.value)|);
  }

  /** `DELETE /unfollow/:institution_id`: as `Unlike`, over `following`. */
  method Unfollow(db: Db, caller: UserId, param: string) returns (r: Reply<nat>)
    modifies db`following
    ensures caller !in db.persons ==> r == Error(500, RowMissing)
    ensures caller in db.persons && param == "" ==> r == Error(500, BadInput)
    ensures caller in db.persons && param != "" &&
            (ParamId(param).None? || (db.persons[caller].personId, ParamId(param).value) !in old(db.following)) ==>
      r == Error(500, AlreadyUnfollowed)
    ensures r.Ok? <==>
      caller in db.persons && ParamId(param).Some? &&
      (db.persons[caller].personId, ParamId(param).value) in old(db.following)
    ensures r.Fail? ==> db.following == old(db.following)
    ensures r.Ok? ==>
      && db.following == old(db.following) - {(db.persons[caller].personId, ParamId(param).value)}
      && r.status == 200
      && r.value == |Fans(db.following, ParamId(param).value)| == |Fans(old(db.following), ParamId(param).value)| - 1
  {
    var person := PersonOf(db.persons, caller);
    if person.None? {
      return Error(500, RowMissing);
    }
    if param == "" {
      return Error(500, BadInput);
    }
    var institutionId := ParamId(param);
    if institutionId.None? || (person.value, institutionId.value) !in db.following {
      return Error(500, AlreadyUnfollowed);
    }
    FansAfterRemove(db.following, person.value, institutionId.value, institutionId.value);
    db.following := db.following - {(person.value, institutionId.value)};
    r := Ok(200, |Fans(db.following, institutionId.value)|);
  }

  /** `POST /send_message/:institution_id`: a non-empty id and message,
      the caller's person row, then one transaction that reuses the pair's
      room or creates it (refused by the foreign key for an institution that
      does not exist) and appends the message with `from_person = 1`.
      `fault` is a database error inside the transaction; it is rolled back,
      so neither a new room nor the message remains. */
  method SendMessage(db: Db, caller: UserId, param: string, text: string, fault: bool) returns (r: Reply<Sent>)
    requires db.Valid()
    modifies db`rooms, db`messages
    ensures db.Valid()
    ensures param == "" || text == "" ==> r == Error(500, BadInputCap)
    ensures param != "" && text != "" && caller !in db.persons ==> r == Error(500, RowMissing)
    ensures r.Ok? <==>
      && param != "" && text != "" && caller in db.persons && ParamId(param).Some? && !fault
      && (Room(db.persons[caller].personId, ParamId(param).value) in old(db.rooms)
          || InstitutionExists(db.institutions, ParamId(param).value))
    ensures r.Fail? ==> db.rooms == old(db.rooms) && db.messages == old(db.messages)
    ensures r.Ok? ==>
      var room := Room(db.persons[caller].personId, ParamId(param).value);
      && r.status == 200
      && (room in old(db.rooms) ==> db.rooms == old(db.rooms) && Some(r.value.roomId) == FindRoom(old(db.rooms), room))
      && (room !in old(db.rooms) ==> db.rooms == old(db.rooms) + [room] && r.value.roomId == |old(db.rooms)|)
      && db.messages == old(db.messages) + [Message(r.value.roomId, text, true)]
      && r.value.messageId == |old(db.messages)|
  {
    if param == "" || text == "" {
      return Error(500, BadInputCap);
    }
    var person := PersonOf(db.persons, caller);
    if person.None? {
      return Error(500, RowMissing);
    }
    var institutionId := ParamId(param);
    if institutionId.None? {
      return Error(500, ForeignKeyFails);
    }
    var room := Room(person.value, institutionId.value);
    if room !in db.rooms && !InstitutionExists(db.institutions, institutionId.value) {
      return Error(500, ForeignKeyFails);
    }
    if fault {
      return Error(500, DatabaseError);
    }
    var roomId := OpenRoom(db, room);
    var messageId := Post(db, roomId, text, true);
    assert room == Room(db.persons[caller].personId, ParamId(param).value);
    r := Ok(200, Sent(roomId, messageId));
  }

  /** The room a person opened or found, with its messages. */
  datatype Conversation = Conversation(roomId: RoomId, thread: seq<Posted>)

  /** `GET /find_messaging_rooms/:institution_id`: get-or-create of the
      caller's room with that institution, outside a transaction, and its
      messages; it never adds a message. */
  method FindMessagingRoom(db: Db, caller: UserId, param: string) returns (r: Reply<Conversation>)
    requires db.Valid()
    modifies db`rooms
    ensures db.Valid()
    ensures param == "" ==> r == Error(500, BadInputCap)
    ensures param != "" && caller !in db.persons ==> r == Error(500, RowMissing)
    ensures r.Ok? <==>
      && param != "" && caller in db.persons && ParamId(param).Some?
      && (Room(db.persons[caller].personId, ParamId(param).value) in old(db.rooms)
          || InstitutionExists(db.institutions, ParamId(param).value))
    ensures r.Fail? ==> db.rooms == old(db.rooms)
    ensures r.Ok? ==>
      var room := Room(db.persons[caller].personId, ParamId(param).value);
      && r.status == 200
      && r.value.roomId < |db.rooms| && db.rooms[r.value.roomId] == room
      && (room in old(db.rooms) ==> db.rooms == old(db.rooms))
      && (room !in old(db.rooms) ==> db.rooms == old(db.rooms) + [room])
      && r.value.thread == Thread(db.messages, r.value.roomId)
  {
    if param == "" {
      return Error(500, BadInputCap);
    }
    var person := PersonOf(db.persons, caller);
    if person.None? {
      return Error(500, RowMissing);
    }
    var institutionId := ParamId(param);
    if institutionId.None? {
      return Error(500, ForeignKeyFails);
    }
    var room := Room(person.value, institutionId.value);
    if room !in db.rooms && !InstitutionExists(db.institutions, institutionId.value) {
      return Error(500, ForeignKeyFails);
    }
    var roomId := OpenRoom(db, room);
    r := Ok(200, Conversation(roomId, Thread(db.messages, roomId)));
  }

  /** `GET /messaging_rooms/:messaging_room_id` for a person: a non-empty
      id, the caller's person row, then the room read scoped to rooms whose
      `person_id` is the caller's. */
  function PersonReadRoom(persons: map<UserId, PersonRow>, rooms: seq<Room>, messages: seq<Message>,
                          caller: UserId, param: string): (r: Reply<seq<Posted>>)
    ensures param == "" ==> r == Error(500, BadInputCap)
    ensures param != "" && caller !in persons ==> r == Error(500, RowMissing)
    ensures r.Ok? ==>
      && caller in persons && ParamId(param).Some? && ParamId(param).value < |rooms|
      && rooms[ParamId(param).value].personId == persons[caller].personId
      && r.value == Thread(messages, ParamId(param).value) != []
    ensures param != "" && caller in persons ==>
      r == ReadRoom(rooms, messages, PersonSide, persons[caller].personId, param)
  {
    if param == "" then Error(500, BadInputCap)
    else match PersonOf(persons, caller)
      case None => Error(500, RowMissing)
      case Some(p) => ReadRoom(rooms, messages, PersonSide, p, param)
  }

  /** A person who sends a message can read it back at the head of that
      room's thread, and another person cannot read that room at all. */
  lemma {:induction false} SentMessageIsReadable(persons: map<UserId, PersonRow>, rooms: seq<Room>,
                                                 messages: seq<Message>, caller: UserId, other: UserId,
                                                 roomId: RoomId, text: string)
    requires caller in persons && roomId < |rooms| && rooms[roomId].personId == persons[caller].personId
    requires other in persons && persons[other].personId != persons[caller].personId
    ensures var after := messages + [Message(roomId, text, true)];
      var param := IdParam(roomId);
      && PersonReadRoom(persons, rooms, after, caller, param) ==
           Ok(200, [Posted(|messages|, text, true)] + Thread(messages, roomId))
      && PersonReadRoom(persons, rooms, after, other, param) == Error(500, NoSuchRoom)
  {
    var after := messages + [Message(roomId, text, true)];
    IdParamRoundTrip(roomId);
    ThreadAfterPost(messages, Message(roomId, text, true), roomId);
  }
}
