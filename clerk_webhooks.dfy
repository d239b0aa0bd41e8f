/**
 * The identity provider's webhook: a verified user event is mapped to a
 * User record and creates, updates or deletes that user in the store.
 */
module ClerkWebhooks {
  import opened Wrappers
  import opened Strings

  const UserCreated: string := "user.created"
  const UserUpdated: string := "user.updated"
  const UserDeleted: string := "user.deleted"

  datatype EmailAddress = EmailAddress(emailAddress: Option<string>)

  /** The event's `data`: every field but `id` may be missing. */
  datatype UserPayload = UserPayload(
    id: string,
    emailAddresses: Option<seq<EmailAddress>>,
    firstName: Option<string>,
    lastName: Option<string>,
    imageUrl: Option<string>)

  /** A verified event; `data` is `None` when the payload has none. */
  datatype ClerkEvent = ClerkEvent(eventType: string, data: Option<UserPayload>)

  datatype User = User(id: string, email: string, username: string, image: string)

  /** `v || ""`: a missing or empty string gives "". */
  function OrEmpty(v: Option<string>): (r: string)
    ensures v.None? ==> r == ""
    ensures v.Some? ==> r == v.value
  {
    match v
    case None => ""
    case Some(s) => if s == "" then "" else s
  }

  /** `email_addresses?.[0]?.email_address || ""`. */
  function FirstEmail(addresses: Option<seq<EmailAddress>>): (r: string)
    ensures r == "" || (addresses.Some? && |addresses.value| > 0 && addresses.value[0].emailAddress == Some(r))
    ensures addresses.Some? && |addresses.value| > 0 && addresses.value[0].emailAddress.Some?
            ==> r == addresses.value[0].emailAddress.value
  {
    if addresses.None? || |addresses.value| == 0 then "" else OrEmpty(addresses.value[0].emailAddress)
  }

  /** `` `${first_name || ""} ${last_name || ""}`.trim() ``. */
  function Username(firstName: Option<string>, lastName: Option<string>): (r: string)
    ensures Trimmed(r)
    ensures IsTrimOf(r, OrEmpty(firstName) + " " + OrEmpty(lastName))
  {
    Trim(OrEmpty(firstName) + " " + OrEmpty(lastName))
  }

  /** `userData`: the User record built from the event payload. */
  function UserData(data: UserPayload): (u: User)
    ensures u.id == data.id
    ensures u.email == "" || (data.emailAddresses.Some? && |data.emailAddresses.value| > 0
                              && data.emailAddresses.value[0].emailAddress == Some(u.email))
    ensures data.emailAddresses.Some? && |data.emailAddresses.value| > 0
            && data.emailAddresses.value[0].emailAddress.Some?
            ==> u.email == data.emailAddresses.value[0].emailAddress.value
    ensures u.image == "" || data.imageUrl == Some(u.image)
    ensures data.imageUrl.Some? ==> u.image == data.imageUrl.value
    ensures u.username == Username(data.firstName, data.lastName) && Trimmed(u.username)
  {
    User(data.id, FirstEmail(data.emailAddresses), Username(data.firstName, data.lastName), OrEmpty(data.imageUrl))
  }

  /** With both names missing the username is empty. */
  lemma UsernameWithoutNames(firstName: Option<string>, lastName: Option<string>)
    requires OrEmpty(firstName) == "" && OrEmpty(lastName) == ""
    ensures Username(firstName, lastName) == ""
  {
    assert OrEmpty(firstName) + " " + OrEmpty(lastName) == " ";
    TrimOfWhitespace(" ");
  }

  /** Two names without white space around them are joined by one space. */
  lemma UsernameJoinsNames(first: string, last: string)
    requires first != "" && last != "" && Trimmed(first) && Trimmed(last)
    ensures Username(Some(first), Some(last)) == first + " " + last
  {
    var s := first + " " + last;
    assert s[0] == first[0] && s[|s| - 1] == last[|last| - 1];
    TrimOfTrimmed(s);
  }

  /** With the last name missing, the space the template adds is trimmed away. */
  lemma UsernameOfFirstNameOnly(name: string)
    requires Trimmed(name)
    ensures Username(Some(name), None) == name
  {
    assert OrEmpty(Some(name)) + " " + OrEmpty(None) == name + " ";
    assert AllWhitespace(" ");
    TrimDropsTrailingWhitespace(name, " ");
    if name == "" {
      TrimOfWhitespace(" ");
    } else {
      assert (name + " ")[0] == name[0];
      TrimOfTrimmed(name);
    }
  }

  /** With the first name missing, the space the template adds is trimmed away. */
  lemma UsernameOfLastNameOnly(name: string)
    requires Trimmed(name)
    ensures Username(None, Some(name)) == name
  {
    assert OrEmpty(None) + " " + OrEmpty(Some(name)) == " " + name;
    assert AllWhitespace(" ");
    TrimDropsLeadingWhitespace(" ", name);
  }

  /** Every user is stored under its own id. */
  predicate KeyedById(users: map<string, User>)
  {
    forall id :: id in users ==> users[id].id == id
  }

  /** The store after the event, and the HTTP status of the reply. */
  datatype WebhookResult = WebhookResult(users: map<string, User>, status: int)

  /**
   * `clerkWebhooks` as a transition of the user store. `event` is the result
   * of signature verification (`None` when it throws). Any exception, from
   * verification, from a missing payload or from a duplicate id on create,
   * ends in a 400 reply before the store changes.
   */
  function HandleUserEvent(users: map<string, User>, event: Option<ClerkEvent>): (r: WebhookResult)
    ensures r.status == 200 || r.status == 400
    ensures r.status == 400 ==> r.users == users
    ensures r.users.Keys <= users.Keys + (if event.Some? && event.value.data.Some? then {event.value.data.value.id} else {})
    ensures r.users == users
            || (event.Some? && event.value.data.Some? &&
                var data := event.value.data.value;
                r.users == users[data.id := UserData(data)] || r.users == users - {data.id})
  {
    match event
    case None => WebhookResult(users, 400)
    case Some(e) =>
      match e.data
      case None => WebhookResult(users, 400)
      case Some(data) =>
        var userData := UserData(data);
        if e.eventType == UserCreated then
          if data.id in users then WebhookResult(users, 400)
          else WebhookResult(users[data.id := userData], 200)
        else if e.eventType == UserUpdated then
          WebhookResult(if data.id in users then users[data.id := userData] else users, 200)
        else if e.eventType == UserDeleted then
          WebhookResult(users - {data.id}, 200)
        else
          WebhookResult(users, 200)
  }

  /** All three transitions keep users keyed by their own id. */
  lemma HandleUserEventKeepsKeys(users: map<string, User>, event: Option<ClerkEvent>)
    requires KeyedById(users)
    ensures KeyedById(HandleUserEvent(users, event).users)
  {
  }

  /** No event touches a user other than the one its payload names. */
  lemma OtherUsersUntouched(users: map<string, User>, e: ClerkEvent, data: UserPayload)
    requires e.data == Some(data)
    ensures var r := HandleUserEvent(users, Some(e)).users;
            forall id :: id != data.id ==> (id in r <==> id in users) && (id in users ==> r[id] == users[id])
  {
    var r := HandleUserEvent(users, Some(e)).users;
    assert r == users || r == users[data.id := UserData(data)] || r == users - {data.id};
  }

  /** `user.created` for a new id adds exactly the mapped user. */
  lemma CreatedAddsOneUser(users: map<string, User>, data: UserPayload)
    requires data.id !in users
    ensures var r := HandleUserEvent(users, Some(ClerkEvent(UserCreated, Some(data))));
            && r.status == 200 && r.users.Keys == users.Keys + {data.id} && r.users[data.id] == UserData(data)
            && r.users == users[data.id := UserData(data)]
  {
  }

  /** `user.updated` replaces the stored user with the mapped one; an unknown id changes nothing. */
  lemma UpdatedReplacesUser(users: map<string, User>, data: UserPayload)
    ensures var r := HandleUserEvent(users, Some(ClerkEvent(UserUpdated, Some(data))));
            && r.status == 200
            && (data.id in users ==> r.users.Keys == users.Keys && r.users[data.id] == UserData(data))
            && (data.id !in users ==> r.users == users)
  {
    assert UserUpdated != UserCreated;
  }

  /** `user.deleted` removes the user with the payload's id. */
  lemma DeletedRemovesUser(users: map<string, User>, data: UserPayload)
    ensures var r := HandleUserEvent(users, Some(ClerkEvent(UserDeleted, Some(data))));
            r.status == 200 && r.users.Keys == users.Keys - {data.id} && r.users == users - {data.id}
  {
  }

  /** An unknown event type, or a failed verification, leaves the store unchanged. */
  lemma UnhandledEventChangesNothing(users: map<string, User>, event: Option<ClerkEvent>)
    requires event.None? || event.value.eventType !in {UserCreated, UserUpdated, UserDeleted}
    ensures HandleUserEvent(users, event).users == users
    ensures event.None? ==> HandleUserEvent(users, event).status == 400
    ensures event.Some? && event.value.data.Some? ==> HandleUserEvent(users, event).status == 200
  {
  }

  /** Deleting a user that was just created restores the store. */
  lemma CreateThenDeleteRestores(users: map<string, User>, data: UserPayload, other: UserPayload)
    requires data.id !in users && other.id == data.id
    ensures var created := HandleUserEvent(users, Some(ClerkEvent(UserCreated, Some(data))));
            HandleUserEvent(created.users, Some(ClerkEvent(UserDeleted, Some(other)))).users == users
  {
    var created := HandleUserEvent(users, Some(ClerkEvent(UserCreated, Some(data))));
    CreatedAddsOneUser(users, data);
    DeletedRemovesUser(created.users, other);
    MapPutThenRemove(users, data.id, UserData(data));
  }

  lemma MapPutThenRemove(users: map<string, User>, id: string, u: User)
    requires id !in users
    ensures users[id := u] - {id} == users
  {
  }

  /** The identity provider's User collection. */
  class UserStore {
    var users: map<string, User>

    predicate Valid()
      reads this
    {
      KeyedById(users)
    }

    constructor ()
      ensures Valid() && users == map[]
    {
      users := map[];
    }

    /** `clerkWebhooks`: verify, map the payload, and dispatch on the event type. */
    method ClerkWebhook(event: Option<ClerkEvent>) returns (status: int)
      requires Valid()
      modifies this
      ensures Valid()
      ensures WebhookResult(users, status) == HandleUserEvent(old(users), event)
    {
      if event.None? {
        return 400;
      }
      var e := event.value;
      if e.data.None? {
        return 400;
      }
      var data := e.data.value;
      var userData := UserData(data);
      if e.eventType == UserCreated {
        if data.id in users {
          return 400;
        }
        users := users[data.id := userData];
      } else if e.eventType == UserUpdated {
        if data.id in users {
          users := users[data.id := userData];
        }
      } else if e.eventType == UserDeleted {
        users := users - {data.id};
      }
      return 200;
    }
  }
}
