/**
 * The institution routes that replace link sets, delete or update rows the
 * caller owns, replace images and write to existing messaging rooms.  Each
 * handler runs behind its middleware list with `caller` the `req.user_id`
 * that `validToken` stored, and first reads the caller's `institution_id`;
 * a missing institution row makes that destructuring throw.
 */
module InstitutionRoutes {
  import opened Http
  import opened Store
  import opened Auth
  import opened Pairs
  import opened Messaging

  const ImageRequired := "Kötelező képet megadni"
  const InstitutionsCannotStart := "Intézmények nem indíthatnak új beszélgetést"

  /** `SELECT institution_id FROM institutions WHERE user_id = ?`. */
  function InstitutionOf(institutions: map<UserId, InstitutionRow>, caller: UserId): (r: Option<InstitutionId>)
    ensures r.Some? <==> caller in institutions
    ensures r.Some? ==> r.value == institutions[caller].institutionId
  {
    if caller in institutions then Some(institutions[caller].institutionId) else None
  }

  /** `old_image !== null && old_image !== reserved`: the uploaded file a replacement
      removes from disk.  A missing old name and the shared default file
      are never removed. */
  function FileToRemove(previous: Option<string>, reserved: string): (r: Option<string>)
    ensures r.Some? <==> previous.Some? && previous.value != reserved
    ensures r.Some? ==> r == previous
    ensures r != Some(reserved)
  {
    if previous.Some? && previous.value != reserved then previous else None
  }

  /** `PUT /institution_categories`: after the caller's `institution_id`
      is read, a transaction deletes the caller's category links and
      inserts one link per submitted category (no insert for an empty
      list).  The answer is the caller's categories afterwards.  An unknown
      category fails the foreign key of the insert after the delete has
      run; the `catch` does not roll back, so the delete stays pending on
      the connection handed back to the pool.  `committedLater` says
      whether that connection's next transaction commits it (it does
      whenever the connection is reused) or the connection is closed and
      the delete is lost. */
  method ReplaceCategories(db: Db, caller: UserId, chosen: seq<CategoryId>, committedLater: bool)
    returns (r: Reply<set<CategoryId>>)
    modifies db`institutionCategories
    ensures caller !in db.institutions ==> r == Error(500, RowMissing)
    ensures caller in db.institutions && (exists c :: c in chosen && c !in db.categories) ==>
      r == Error(500, ForeignKeyFails)
    ensures r.Ok? <==> caller in db.institutions && forall c :: c in chosen ==> c in db.categories
    ensures r.Fail? ==>
      db.institutionCategories ==
        if caller in db.institutions && committedLater
        then ReplaceAll(old(db.institutionCategories), db.institutions[caller].institutionId, [])
        else old(db.institutionCategories)
    ensures r.Fail? && caller in db.institutions && committedLater ==>
      Image(db.institutionCategories, db.institutions[caller].institutionId) == {}
    ensures r.Ok? ==>
      var id := db.institutions[caller].institutionId;
      && db.institutionCategories == ReplaceAll(old(db.institutionCategories), id, chosen)
      && r == Ok(200, set c | c in chosen)
      && Image(db.institutionCategories, id) == set c | c in chosen
      && forall other :: other != id ==>
           Image(db.institutionCategories, other) == Image(old(db.institutionCategories), other)
  {
    var institution := InstitutionOf(db.institutions, caller);
    if institution.None? {
      return Error(500, RowMissing);
    }
    var id := institution.value;
    var before := db.institutionCategories;
    if exists c :: c in chosen && c !in db.categories {
      if committedLater {
        db.institutionCategories := ReplaceAll(before, id, []);
        ReplaceAllImage(before, id, [], id);
      }
      return Error(500, ForeignKeyFails);
    }
    db.institutionCategories := ReplaceAll(before, id, chosen);
    forall other | other != id
      ensures Image(db.institutionCategories, other) == Image(before, other)
    {
      ReplaceAllImage(before, id, chosen, other);
    }
    ReplaceAllImage(before, id, chosen, id);
    r := Ok(200, Image(db.institutionCategories, id));
  }

  /** The event fields a form submits. */
  datatype EventForm = EventForm(start: string, end: string, title: string, location: string, description: string)

  /** The handler of `PUT /event/:event_id`: a numeric id and an uploaded
      banner are required; the event must belong to the caller, or reading
      the old banner of the empty result throws; then, in one transaction,
      the event row is rewritten and its links are replaced by the submitted
      ones.  The answer names the old banner file that is removed.  An empty
      link list makes the bulk insert invalid SQL after the update and the
      delete have run; the `catch` does not roll back, so both stay pending
      on the pooled connection, and `committedLater` says whether its next
      transaction commits them or the connection is closed and they are
      lost. */
  method UpdateEvent(db: Db, caller: UserId, param: string, form: EventForm, banner: Option<string>,
                     links: seq<Link>, committedLater: bool) returns (r: Reply<Option<string>>)
    modifies db`events, db`eventLinks
    ensures MissingOrNaN(param) ==> r == Error(500, BadInput)
    ensures !MissingOrNaN(param) && banner.None? ==> r == Error(500, ImageRequired)
    ensures r.Ok? <==>
      && !MissingOrNaN(param) && banner.Some? && caller in db.institutions
      && ParamId(param).value in old(db.events)
      && old(db.events)[ParamId(param).value].institutionId == db.institutions[caller].institutionId
      && links != []
    ensures r.Fail? && !(r == Error(500, EmptyBulkInsert) && committedLater) ==>
      db.events == old(db.events) && db.eventLinks == old(db.eventLinks)
    ensures r == Error(500, EmptyBulkInsert) ==>
      && !MissingOrNaN(param) && banner.Some? && caller in db.institutions
      && ParamId(param).value in old(db.events)
      && old(db.events)[ParamId(param).value].institutionId == db.institutions[caller].institutionId
      && links == []
    ensures r == Error(500, EmptyBulkInsert) && committedLater ==>
      var id := ParamId(param).value;
      && db.events == old(db.events)[id := Event(db.institutions[caller].institutionId, form.start, form.end,
                                                 form.title, form.location, form.description, banner)]
      && db.eventLinks == old(db.eventLinks)[id := []]
    ensures r.Ok? ==>
      var id := ParamId(param).value;
      var owner := db.institutions[caller].institutionId;
      && db.events == old(db.events)[id := Event(owner, form.start, form.end, form.title, form.location,
                                                 form.description, banner)]
      && db.eventLinks == old(db.eventLinks)[id := links]
      && r == Ok(200, FileToRemove(old(db.events)[id].banner, DefaultBanner))
  {
    if MissingOrNaN(param) {
      return Error(500, BadInput);
    }
    if banner.None? {
      return Error(500, ImageRequired);
    }
    var institution := InstitutionOf(db.institutions, caller);
    if institution.None? {
      return Error(500, RowMissing);
    }
    var id := ParamId(param).value;
    if id !in db.events || db.events[id].institutionId != institution.value {
      return Error(500, UndefinedProperty);
    }
    var previous := db.events[id].banner;
    var rewritten := Event(institution.value, form.start, form.end, form.title, form.location,
                           form.description, banner);
    if links == [] {
      if committedLater {
        db.events := db.events[id := rewritten];
        db.eventLinks := db.eventLinks[id := []];
      }
      return Error(500, EmptyBulkInsert);
    }
    db.events := db.events[id := rewritten];
    db.eventLinks := db.eventLinks[id := links];
    r := Ok(200, FileToRemove(previous, DefaultBanner));
  }

  /** `PUT /event/:event_id` as registered, with the profile gates ahead of
      `validToken`: the request is refused with 405 before the handler runs,
      whatever it carries. */
  method UpdateEventRoute(db: Db, header: Option<string>, fault: bool, param: string, form: EventForm,
                          banner: Option<string>, links: seq<Link>) returns (r: Reply<Option<string>>)
    modifies db`events, db`eventLinks
    ensures r == Error(405, AccountMissing)
    ensures db.events == old(db.events) && db.eventLinks == old(db.eventLinks)
  {
    var req := new Request(header);
    var verdict := req.Handle(db, fault, ReversedChain(Institution));
    ReversedChainAlwaysRejects(db.Snapshot(), fault, Institution, header);
    match verdict {
      case Answer(s, m) =>
        r := Error(s, m);
      case Pass =>
        assert false;
    }
  }

  /** `PUT /news/:news_id`: a non-empty id; the news item must belong to
      the caller, or reading the old banner of the empty result throws; then
      its text and banner are rewritten.  The answer names the old banner
      file that is removed. */
  method UpdateNews(db: Db, caller: UserId, param: string, description: string, banner: Option<string>)
    returns (r: Reply<Option<string>>)
    modifies db`news
    ensures param == "" ==> r == Error(500, BadInput)
    ensures param != "" && caller !in db.institutions ==> r == Error(500, RowMissing)
    ensures r.Ok? <==>
      && param != "" && caller in db.institutions && ParamId(param).Some?
      && ParamId(param).value in old(db.news)
      && old(db.news)[ParamId(param).value].institutionId == db.institutions[caller].institutionId
    ensures r.Fail? ==> db.news == old(db.news)
    ensures r.Ok? ==>
      var id := ParamId(param).value;
      && db.news == old(db.news)[id := News(db.institutions[caller].institutionId, description, banner)]
      && r == Ok(200, FileToRemove(old(db.news)[id].banner, DefaultBanner))
  {
    if param == "" {
      return Error(500, BadInput);
    }
    var institution := InstitutionOf(db.institutions, caller);
    if institution.None? {
      return Error(500, RowMissing);
    }
    var id := ParamId(param);
    if id.None? || id.value !in db.news || db.news[id.value].institutionId != institution.value {
      return Error(500, UndefinedProperty);
    }
    var previous := db.news[id.value].banner;
    db.news := db.news[id.value := News(institution.value, description, banner)];
    r := Ok(200, FileToRemove(previous, DefaultBanner));
  }

  /** `DELETE /news/:news_id`: a non-empty id; the news item must belong to
      the caller, or destructuring its banner throws; then it is deleted,
      with its likes.  The file-removal guard then names an undeclared
      variable whenever the item had a banner, so such a deletion is
      answered with 500 although it has happened. */
  method DeleteNews(db: Db, caller: UserId, param: string) returns (r: Reply<()>)
    modifies db`news, db`likes
    ensures param == "" ==> r == Error(500, BadInput)
    ensures param != "" && caller !in db.institutions ==> r == Error(500, RowMissing)
    ensures
      var deleted :=
        && param != "" && caller in db.institutions && ParamId(param).Some?
        && ParamId(param).value in old(db.news)
        && old(db.news)[ParamId(param).value].institutionId == db.institutions[caller].institutionId;
      && (deleted ==>
            var id := ParamId(param).value;
            && db.news == old(db.news) - {id}
            && db.likes == set p | p in old(db.likes) && p.1 != id
            && (old(db.news)[id].banner.Some? ==> r == Error(500, UndeclaredVariable))
            && (old(db.news)[id].banner.None? ==> r == Ok(200, ())))
      && (!deleted ==> r.Fail? && db.news == old(db.news) && db.likes == old(db.likes))
  {
    if param == "" {
      return Error(500, BadInput);
    }
    var institution := InstitutionOf(db.institutions, caller);
    if institution.None? {
      return Error(500, RowMissing);
    }
    var id := ParamId(param);
    if id.None? || id.value !in db.news || db.news[id.value].institutionId != institution.value {
      return Error(500, RowMissing);
    }
    var banner := db.news[id.value].banner;
    db.news := db.news - {id.value};
    db.likes := set p | p in db.likes && p.1 != id.value;
    if banner.Some? {
      return Error(500, UndeclaredVariable);
    }
    r := Ok(200, ());
  }

  /** Which image of the caller's profile a route replaces. */
  datatype ImageSlot = AvatarSlot | BannerSlot

  /** The default file of each slot, which is shared and never removed. */
  function Reserved(slot: ImageSlot): string
  {
    match slot
    case AvatarSlot => DefaultAvatar
    case BannerSlot => DefaultBanner
  }

  /** The new and the removed file of an image replacement. */
  datatype ImageChange = ImageChange(current: string, removed: Option<string>)

  /** `PUT /avatar` and `PUT /banner`: an uploaded file is required; the
      caller's profile row then names the new file, and the old file is
      removed unless it is the slot's shared default. */
  method ReplaceImage(db: Db, caller: UserId, slot: ImageSlot, upload: Option<string>) returns (r: Reply<ImageChange>)
    requires db.Valid()
    modifies db`institutions
    ensures db.Valid()
    ensures upload.None? ==> r == Error(500, ImageRequired)
    ensures upload.Some? && caller !in db.institutions ==> r == Error(500, UndefinedProperty)
    ensures r.Ok? <==> upload.Some? && caller in old(db.institutions)
    ensures r.Fail? ==> db.institutions == old(db.institutions)
    ensures r.Ok? ==>
      var row := old(db.institutions)[caller];
      var previous := if slot == AvatarSlot then row.avatar else row.banner;
      && db.institutions == old(db.institutions)[caller :=
           if slot == AvatarSlot then row.(avatar := upload.value) else row.(banner := upload.value)]
      && r == Ok(200, ImageChange(upload.value, FileToRemove(Some(previous), Reserved(slot))))
      && r.value.removed != Some(Reserved(slot))
  {
    if upload.None? {
      return Error(500, ImageRequired);
    }
    if caller !in db.institutions {
      return Error(500, UndefinedProperty);
    }
    var row := db.institutions[caller];
    var previous := if slot == AvatarSlot then row.avatar else row.banner;
    var updated := if slot == AvatarSlot then row.(avatar := upload.value) else row.(banner := upload.value);
    SameIdsKeepConsistent(db.users, db.nextUserId, db.persons, db.persons, db.nextPersonId,
                          db.institutions, db.institutions[caller := updated], db.nextInstitutionId);
    db.institutions := db.institutions[caller := updated];
    r := Ok(200, ImageChange(upload.value, FileToRemove(Some(previous), Reserved(slot))));
  }

  /** The three public contact tables. */
  datatype ContactKind = EmailKind | PhoneKind | WebsiteKind

  /** The message a delete of an id the caller does not own reports; the
      e-mail route spells it differently from the other two. */
  function NotOwnedMessage(kind: ContactKind): string
  {
    if kind == EmailKind then NotDeletable else NotDeletableAlt
  }

  /** The middleware list of a contact route: the e-mail delete and update
      routes list the profile gates before `validToken`. */
  function ContactChain(kind: ContactKind): seq<Gate>
  {
    if kind == EmailKind then ReversedChain(Institution) else StandardChain(Institution)
  }

  function ContactTable(db: Db, kind: ContactKind): map<nat, Contact>
    reads db
  {
    match kind
    case EmailKind => db.emails
    case PhoneKind => db.phones
    case WebsiteKind => db.websites
  }

  /** The rows of a contact table that belong to institution `owner`. */
  function Owned(table: map<nat, Contact>, owner: InstitutionId): (r: map<nat, Contact>)
    ensures forall k :: k in r <==> k in table && table[k].institutionId == owner
    ensures forall k :: k in r ==> r[k] == table[k]
  {
    map k | k in table && table[k].institutionId == owner :: table[k]
  }

  /** Writes one contact table and leaves the other two alone. */
  method SetContactTable(db: Db, kind: ContactKind, table: map<nat, Contact>)
    modifies db`emails, db`phones, db`websites
    ensures ContactTable(db, kind) == table
    ensures forall k :: k != kind ==> ContactTable(db, k) == old(ContactTable(db, k))
  {
    match kind {
      case EmailKind => db.emails := table;
      case PhoneKind => db.phones := table;
      case WebsiteKind => db.websites := table;
    }
  }

  /** What a contact delete by `caller` answers, and what the table of
      `kind` holds after it (`after`) given what it held before (`before`):
      a non-empty id; `DELETE ... WHERE id = ? AND institution_id = ?`
      removes the row only when the caller owns it, and zero affected rows
      is an error.  The answer is the caller's remaining rows of that table. */
  predicate DeletesContact(institutions: map<UserId, InstitutionRow>, caller: UserId, kind: ContactKind,
                           param: string, before: map<nat, Contact>, after: map<nat, Contact>,
                           r: Reply<map<nat, Contact>>)
  {
    && (param == "" ==> r == Error(500, BadInput))
    && (param != "" && caller !in institutions ==> r == Error(500, RowMissing))
    && (r.Ok? <==>
          && param != "" && caller in institutions && ParamId(param).Some?
          && ParamId(param).value in before
          && before[ParamId(param).value].institutionId == institutions[caller].institutionId)
    && (param != "" && caller in institutions && !r.Ok? ==> r == Error(500, NotOwnedMessage(kind)))
    && (r.Fail? ==> after == before)
    && (r.Ok? ==>
          && after == before - {ParamId(param).value}
          && r == Ok(200, Owned(after, institutions[caller].institutionId)))
  }

  /** `DELETE /public/<kind>/:id` for the caller; the other two tables are
      left alone. */
  method DeleteContact(db: Db, caller: UserId, kind: ContactKind, param: string) returns (r: Reply<map<nat, Contact>>)
    modifies db`emails, db`phones, db`websites
    ensures forall k :: k != kind ==> ContactTable(db, k) == old(ContactTable(db, k))
    ensures DeletesContact(db.institutions, caller, kind, param, old(ContactTable(db, kind)), ContactTable(db, kind), r)
  {
    if param == "" {
      return Error(500, BadInput);
    }
    var institution := InstitutionOf(db.institutions, caller);
    if institution.None? {
      return Error(500, RowMissing);
    }
    var table := ContactTable(db, kind);
    var id := ParamId(param);
    if id.None? || id.value !in table || table[id.value].institutionId != institution.value {
      return Error(500, NotOwnedMessage(kind));
    }
    SetContactTable(db, kind, table - {id.value});
    r := Ok(200, Owned(ContactTable(db, kind), institution.value));
  }

  /** `PUT /public/<kind>/:id`: a non-empty title, value and id; the
      `UPDATE ... WHERE id = ? AND institution_id = ?` rewrites the row only
      when the caller owns it, and is answered with success either way. */
  method UpdateContact(db: Db, caller: UserId, kind: ContactKind, param: string, title: string, value: string)
    returns (r: Reply<map<nat, Contact>>)
    modifies db`emails, db`phones, db`websites
    ensures forall k :: k != kind ==> ContactTable(db, k) == old(ContactTable(db, k))
    ensures title == "" || value == "" || param == "" ==> r == Error(500, BadInput)
    ensures title != "" && value != "" && param != "" && caller !in db.institutions ==> r == Error(500, RowMissing)
    ensures r.Ok? <==> title != "" && value != "" && param != "" && caller in db.institutions
    ensures r.Fail? ==> ContactTable(db, kind) == old(ContactTable(db, kind))
    ensures r.Ok? ==>
      var owner := db.institutions[caller].institutionId;
      var before := old(ContactTable(db, kind));
      && (ParamId(param).Some? && ParamId(param).value in before && before[ParamId(param).value].institutionId == owner
          ==> ContactTable(db, kind) == before[ParamId(param).value := Contact(owner, title, value)])
      && (!(ParamId(param).Some? && ParamId(param).value in before && before[ParamId(param).value].institutionId == owner)
          ==> ContactTable(db, kind) == before)
      && r == Ok(200, Owned(ContactTable(db, kind), owner))
  {
    if title == "" || value == "" || param == "" {
      return Error(500, BadInput);
    }
    var institution := InstitutionOf(db.institutions, caller);
    if institution.None? {
      return Error(500, RowMissing);
    }
    var table := ContactTable(db, kind);
    var id := ParamId(param);
    if id.Some? && id.value in table && table[id.value].institutionId == institution.value {
      SetContactTable(db, kind, table[id.value := Contact(institution.value, title, value)]);
    }
    r := Ok(200, Owned(ContactTable(db, kind), institution.value));
  }

  /** A contact delete route as registered: its middleware list, then the
      handler for the user `validToken` resolved.  The e-mail route never
      reaches its handler and changes nothing. */
  method DeleteContactRoute(db: Db, header: Option<string>, fault: bool, kind: ContactKind, param: string)
    returns (r: Reply<map<nat, Contact>>)
    modifies db`emails, db`phones, db`websites
    ensures kind == EmailKind ==> r == Error(405, AccountMissing)
    ensures Run(old(db.Snapshot()), fault, ContactChain(kind), Incoming(header)).Halt? ==>
      var h := Run(old(db.Snapshot()), fault, ContactChain(kind), Incoming(header));
      && r == Error(h.status, h.message)
      && db.emails == old(db.emails) && db.phones == old(db.phones) && db.websites == old(db.websites)
    ensures Run(old(db.Snapshot()), fault, ContactChain(kind), Incoming(header)).Continue? ==>
      && header.Some? && IsValidToken(old(db.tokens), header.value)
      && (forall k :: k != kind ==> ContactTable(db, k) == old(ContactTable(db, k)))
      && DeletesContact(db.institutions, old(db.tokens)[header.value].userId, kind, param,
                        old(ContactTable(db, kind)), ContactTable(db, kind), r)
  {
    var req := new Request(header);
    var verdict := req.Handle(db, fault, ContactChain(kind));
    if kind == EmailKind {
      ReversedChainAlwaysRejects(db.Snapshot(), fault, Institution, header);
    }
    match verdict {
      case Answer(s, m) =>
        r := Error(s, m);
      case Pass =>
        if kind == EmailKind {
          assert false;
        }
        assert ContactChain(kind) == [ValidTokenGate] + StandardChain(Institution)[1..];
        ChainVerdict(db.Snapshot(), fault, StandardChain(Institution)[1..], header);
        r := DeleteContact(db, req.userId.value, kind, param);
    }
  }

  /** `POST /send_message/:person_id` for an institution: a non-empty id
      and message, the caller's institution row, then, in one transaction,
      the message is appended with `from_person = 0` to the existing room of
      that pair.  An institution never creates a room.  `fault` is a
      database error inside the transaction, which is rolled back. */
  method SendMessage(db: Db, caller: UserId, param: string, text: string, fault: bool) returns (r: Reply<Sent>)
    requires db.Valid()
    modifies db`messages
    ensures db.Valid()
    ensures param == "" || text == "" ==> r == Error(500, BadInputCap)
    ensures param != "" && text != "" && caller !in db.institutions ==> r == Error(500, RowMissing)
    ensures param != "" && text != "" && caller in db.institutions &&
            (ParamId(param).None? || Room(ParamId(param).value, db.institutions[caller].institutionId) !in db.rooms) ==>
      r == Error(500, InstitutionsCannotStart)
    ensures r.Ok? <==>
      && param != "" && text != "" && caller in db.institutions && ParamId(param).Some? && !fault
      && Room(ParamId(param).value, db.institutions[caller].institutionId) in db.rooms
    ensures r.Fail? ==> db.messages == old(db.messages)
    ensures r.Ok? ==>
      && r.status == 200
      && Some(r.value.roomId) == FindRoom(db.rooms, Room(ParamId(param).value, db.institutions[caller].institutionId))
      && db.messages == old(db.messages) + [Message(r.value.roomId, text, false)]
      && r.value.messageId == |old(db.messages)|
  {
    if param == "" || text == "" {
      return Error(500, BadInputCap);
    }
    var institution := InstitutionOf(db.institutions, caller);
    if institution.None? {
      return Error(500, RowMissing);
    }
    var personId := ParamId(param);
    if personId.None? {
      return Error(500, InstitutionsCannotStart);
    }
    var found := FindRoom(db.rooms, Room(personId.value, institution.value));
    if found.None? {
      return Error(500, InstitutionsCannotStart);
    }
    if fault {
      return Error(500, DatabaseError);
    }
    var messageId := Post(db, found.value, text, false);
    r := Ok(200, Sent(found.value, messageId));
  }

  /** `GET /messaging_rooms/:messaging_room_id` for an institution: a
      non-empty id, the caller's institution row, then the room read scoped
      to rooms whose `institution_id` is the caller's. */
  function InstitutionReadRoom(institutions: map<UserId, InstitutionRow>, rooms: seq<Room>, messages: seq<Message>,
                               caller: UserId, param: string): (r: Reply<seq<Posted>>)
    ensures param == "" ==> r == Error(500, BadInputCap)
    ensures param != "" && caller !in institutions ==> r == Error(500, RowMissing)
    ensures r.Ok? ==>
      && caller in institutions && ParamId(param).Some? && ParamId(param).value < |rooms|
      && rooms[ParamId(param).value].institutionId == institutions[caller].institutionId
      && r.value == Thread(messages, ParamId(param).value) != []
    ensures param != "" && caller in institutions ==>
      r == ReadRoom(rooms, messages, InstitutionSide, institutions[caller].institutionId, param)
  {
    if param == "" then Error(500, BadInputCap)
    else match InstitutionOf(institutions, caller)
      case None => Error(500, RowMissing)
      case Some(i) => ReadRoom(rooms, messages, InstitutionSide, i, param)
  }

  /** An institution's reply lands in the room the person opened, ahead of
      everything said before, and both sides read the same thread. */
  lemma {:induction false} ReplyIsSharedThread(rooms: seq<Room>, messages: seq<Message>, roomId: RoomId,
                                               text: string, personId: PersonId, institutionId: InstitutionId)
    requires roomId < |rooms| && rooms[roomId] == Room(personId, institutionId)
    ensures var after := messages + [Message(roomId, text, false)];
      var param := IdParam(roomId);
      && ReadRoom(rooms, after, InstitutionSide, institutionId, param) ==
           Ok(200, [Posted(|messages|, text, false)] + Thread(messages, roomId))
      && ReadRoom(rooms, after, PersonSide, personId, param) ==
           ReadRoom(rooms, after, InstitutionSide, institutionId, param)
  {
    IdParamRoundTrip(roomId);
    ThreadAfterPost(messages, Message(roomId, text, false), roomId);
  }
}
