/**
 * The relational store the handlers read and write, as one object whose
 * fields are the tables.  Auto-increment ids are explicit counters; the
 * messaging tables, which are only ever appended to here, are sequences
 * whose positions are the row ids.
 */
module Store {
  import opened Http

  type Token = string
  type UserId = nat
  type PersonId = nat
  type InstitutionId = nat
  type NewsId = nat
  type EventId = nat
  type CategoryId = nat
  type RoomId = nat

  /** The fixed `roles` table. */
  datatype Role = Admin | Person | Institution

  /** `role_id` of each role in the `roles` table. */
  function RoleId(r: Role): (id: nat)
    ensures RoleOfId(id) == Some(r)
  {
    match r
    case Admin => 1
    case Person => 2
    case Institution => 3
  }

  /** Joining `users.role_id` with the `roles` table. */
  function RoleOfId(id: nat): Option<Role>
  {
    if id == 1 then Some(Admin)
    else if id == 2 then Some(Person)
    else if id == 3 then Some(Institution)
    else None
  }

  datatype TokenRow = TokenRow(userId: UserId, isValid: bool)
  datatype User = User(email: string, passwordHash: string, name: string, roleId: nat)
  datatype PersonRow = PersonRow(personId: PersonId, avatar: string, isEnabled: bool, isAccepted: bool)
  datatype InstitutionRow = InstitutionRow(
    institutionId: InstitutionId, avatar: string, banner: string, description: string,
    isEnabled: bool, isAccepted: bool)
  datatype News = News(institutionId: InstitutionId, description: string, banner: Option<string>)
  datatype Event = Event(
    institutionId: InstitutionId, start: string, end: string, title: string,
    location: string, description: string, banner: Option<string>)
  datatype Link = Link(title: string, url: string)
  datatype Contact = Contact(institutionId: InstitutionId, title: string, value: string)
  datatype Room = Room(personId: PersonId, institutionId: InstitutionId)
  datatype Message = Message(roomId: RoomId, text: string, fromPerson: bool)

  /** The tables the authentication and authorization gates read. */
  datatype Accounts = Accounts(
    tokens: map<Token, TokenRow>,
    users: map<UserId, User>,
    persons: map<UserId, PersonRow>,
    institutions: map<UserId, InstitutionRow>)

  /** The file names given to every new profile, which are never deleted. */
  const DefaultAvatar := "default_avatar.jpg"
  const DefaultBanner := "default_banner.jpg"

  predicate EmailInUse(users: map<UserId, User>, email: string)
  {
    exists u :: u in users && users[u].email == email
  }

  predicate InstitutionExists(institutions: map<UserId, InstitutionRow>, id: InstitutionId)
  {
    exists u :: u in institutions && institutions[u].institutionId == id
  }

  predicate TokensOwned(tokens: map<Token, TokenRow>, users: map<UserId, User>)
  {
    forall t :: t in tokens ==> tokens[t].userId in users
  }

  /** Users, their roles and their profile rows agree, e-mail addresses are
      unique and the counters are ahead of every id in use. */
  predicate AccountsConsistent(
    users: map<UserId, User>, nextUserId: UserId,
    persons: map<UserId, PersonRow>, nextPersonId: PersonId,
    institutions: map<UserId, InstitutionRow>, nextInstitutionId: InstitutionId)
  {
    && persons.Keys <= users.Keys && institutions.Keys <= users.Keys
    && (forall u :: u in users ==>
          && u < nextUserId
          && (u in persons <==> users[u].roleId == RoleId(Person))
          && (u in institutions <==> users[u].roleId == RoleId(Institution)))
    && (forall u :: u in persons ==> persons[u].personId < nextPersonId)
    && (forall u :: u in institutions ==> institutions[u].institutionId < nextInstitutionId)
    && (forall u, v :: u in users && v in users && users[u].email == users[v].email ==> u == v)
    && UniquePersonIds(persons)
    && UniqueInstitutionIds(institutions)
  }

  /** `person_id` is the primary key of the person table. */
  predicate UniquePersonIds(persons: map<UserId, PersonRow>)
  {
    forall u, v :: u in persons && v in persons && persons[u].personId == persons[v].personId ==> u == v
  }

  /** `institution_id` is the primary key of the institutions table. */
  predicate UniqueInstitutionIds(institutions: map<UserId, InstitutionRow>)
  {
    forall u, v ::
      u in institutions && v in institutions && institutions[u].institutionId == institutions[v].institutionId
      ==> u == v
  }

  predicate RoomsDistinct(rooms: seq<Room>)
  {
    forall i, j :: 0 <= i < j < |rooms| ==> rooms[i] != rooms[j]
  }

  predicate MessagesInRooms(messages: seq<Message>, rooms: seq<Room>)
  {
    forall k :: 0 <= k < |messages| ==> messages[k].roomId < |rooms|
  }

  /** Registering a person under the next user id, with its person row
      under the next person id and both counters advanced, keeps the
      accounts consistent. */
  lemma {:induction false} AddPersonKeepsConsistent(
    users: map<UserId, User>, nextUserId: UserId,
    persons: map<UserId, PersonRow>, nextPersonId: PersonId,
    institutions: map<UserId, InstitutionRow>, nextInstitutionId: InstitutionId,
    user: User, person: PersonRow)
    requires AccountsConsistent(users, nextUserId, persons, nextPersonId, institutions, nextInstitutionId)
    requires !EmailInUse(users, user.email)
    requires user.roleId == RoleId(Person) && person.personId == nextPersonId
    ensures AccountsConsistent(users[nextUserId := user], nextUserId + 1,
                               persons[nextUserId := person], nextPersonId + 1,
                               institutions, nextInstitutionId)
  {
    assert nextUserId !in users;
    assert nextUserId !in persons && nextUserId !in institutions;
  }

  /** The same for an institution and its institution row. */
  lemma {:induction false} AddInstitutionKeepsConsistent(
    users: map<UserId, User>, nextUserId: UserId,
    persons: map<UserId, PersonRow>, nextPersonId: PersonId,
    institutions: map<UserId, InstitutionRow>, nextInstitutionId: InstitutionId,
    user: User, institution: InstitutionRow)
    requires AccountsConsistent(users, nextUserId, persons, nextPersonId, institutions, nextInstitutionId)
    requires !EmailInUse(users, user.email)
    requires user.roleId == RoleId(Institution) && institution.institutionId == nextInstitutionId
    ensures AccountsConsistent(users[nextUserId := user], nextUserId + 1,
                               persons, nextPersonId,
                               institutions[nextUserId := institution], nextInstitutionId + 1)
  {
    assert nextUserId !in users;
    assert nextUserId !in persons && nextUserId !in institutions;
  }

  /** The same for a user of any other role, which has no profile row. */
  lemma {:induction false} AddUserKeepsConsistent(
    users: map<UserId, User>, nextUserId: UserId,
    persons: map<UserId, PersonRow>, nextPersonId: PersonId,
    institutions: map<UserId, InstitutionRow>, nextInstitutionId: InstitutionId,
    user: User)
    requires AccountsConsistent(users, nextUserId, persons, nextPersonId, institutions, nextInstitutionId)
    requires !EmailInUse(users, user.email)
    requires user.roleId != RoleId(Person) && user.roleId != RoleId(Institution)
    ensures AccountsConsistent(users[nextUserId := user], nextUserId + 1,
                               persons, nextPersonId, institutions, nextInstitutionId)
  {
    assert nextUserId !in users;
    assert nextUserId !in persons && nextUserId !in institutions;
  }

  /** Rewriting profile rows in place, each keeping its key and its id,
      keeps the accounts consistent. */
  lemma {:induction false} SameIdsKeepConsistent(
    users: map<UserId, User>, nextUserId: UserId,
    persons: map<UserId, PersonRow>, persons': map<UserId, PersonRow>, nextPersonId: PersonId,
    institutions: map<UserId, InstitutionRow>, institutions': map<UserId, InstitutionRow>,
    nextInstitutionId: InstitutionId)
    requires AccountsConsistent(users, nextUserId, persons, nextPersonId, institutions, nextInstitutionId)
    requires persons'.Keys == persons.Keys
    requires forall u :: u in persons ==> persons'[u].personId == persons[u].personId
    requires institutions'.Keys == institutions.Keys
    requires forall u :: u in institutions ==> institutions'[u].institutionId == institutions[u].institutionId
    ensures AccountsConsistent(users, nextUserId, persons', nextPersonId, institutions', nextInstitutionId)
  {
  }

  /** A user added under a fresh id owns no token, so every token still
      belongs to a user. */
  lemma {:induction false} AddUserKeepsTokensOwned(tokens: map<Token, TokenRow>, users: map<UserId, User>,
                                                   u: UserId, user: User)
    requires TokensOwned(tokens, users)
    ensures TokensOwned(tokens, users[u := user])
  {
    forall t | t in tokens
      ensures tokens[t].userId in users[u := user]
    {
      assert tokens[t].userId in users;
    }
  }

  class Db {
    var tokens: map<Token, TokenRow>
    var users: map<UserId, User>
    var nextUserId: UserId
    var persons: map<UserId, PersonRow>
    var nextPersonId: PersonId
    var institutions: map<UserId, InstitutionRow>
    var nextInstitutionId: InstitutionId
    var news: map<NewsId, News>
    var likes: set<(PersonId, NewsId)>
    var following: set<(PersonId, InstitutionId)>
    var categories: set<CategoryId>
    var institutionCategories: set<(InstitutionId, CategoryId)>
    var events: map<EventId, Event>
    var eventLinks: map<EventId, seq<Link>>
    var emails: map<nat, Contact>
    var phones: map<nat, Contact>
    var websites: map<nat, Contact>
    var rooms: seq<Room>
    var messages: seq<Message>

    /** The constraints the schema and the handlers keep: every token belongs
        to a user; a person-role user has exactly a person row, an
        institution-role user exactly an institution row, an admin neither;
        e-mail addresses are unique; the auto-increment counters are ahead of
        every id in use; no two messaging rooms join the same pair; every
        message belongs to a room. */
    ghost predicate Valid()
      reads this
    {
      TokensValid() && AccountsValid() && MessagingValid()
    }

    /** Every token belongs to a user. */
    ghost predicate TokensValid()
      reads this`tokens, this`users
    {
      TokensOwned(tokens, users)
    }

    /** The account tables agree with each other and with their counters. */
    ghost predicate AccountsValid()
      reads this`users, this`nextUserId, this`persons, this`nextPersonId, this`institutions, this`nextInstitutionId
    {
      AccountsConsistent(users, nextUserId, persons, nextPersonId, institutions, nextInstitutionId)
    }

    /** Rooms are distinct and every message is in one. */
    ghost predicate MessagingValid()
      reads this`rooms, this`messages
    {
      RoomsDistinct(rooms) && MessagesInRooms(messages, rooms)
    }

    /** An empty store over the given reference table of categories. */
    constructor (categoryIds: set<CategoryId>)
      ensures Valid()
      ensures tokens == map[] && users == map[] && persons == map[] && institutions == map[]
      ensures news == map[] && likes == {} && following == {} && events == map[] && eventLinks == map[]
      ensures categories == categoryIds && institutionCategories == {}
      ensures emails == map[] && phones == map[] && websites == map[]
      ensures rooms == [] && messages == []
    {
      tokens, users, persons, institutions := map[], map[], map[], map[];
      nextUserId, nextPersonId, nextInstitutionId := 1, 1, 1;
      news, likes, following := map[], {}, {};
      categories, institutionCategories := categoryIds, {};
      events, eventLinks := map[], map[];
      emails, phones, websites := map[], map[], map[];
      rooms, messages := [], [];
    }

    /** The tables the gates read, as one value. */
    function Snapshot(): (a: Accounts)
      reads this
      ensures a.tokens == tokens && a.users == users
      ensures a.persons == persons && a.institutions == institutions
    {
      Accounts(tokens, users, persons, institutions)
    }
  }
}
