/** The users route: lists the first page of the sign-in directory and
    flattens each user to an id, a display name and an e-mail address. The
    directory call is a parameter. */
module UsersList {
  import opened Wrappers
  import opened Text

  /** A directory user. A name entry that is missing or not a nonempty
      string is `None`. */
  datatype DirectoryUser = DirectoryUser(id: string, email: Option<string>, firstName: Option<string>,
                                         lastName: Option<string>)

  /** One row of the route's answer. */
  datatype UserRecord = UserRecord(id: string, fullName: Option<string>, email: Option<string>)

  /** How the directory call ended: an error (with its message), no user
      list, the users, or a thrown exception. */
  datatype Listing = ListError(message: Option<string>) | NoUsers | Users(users: seq<DirectoryUser>) | ListThrew

  datatype Response = Ok(records: seq<UserRecord>) | Failure(status: int, error: string)

  const ListFailed := "Failed to list users"
  const Unexpected := "Unexpected error listing users"

  /** The display name: the nonempty name parts joined by a space, else
      the e-mail address, else none. */
  function FullName(u: DirectoryUser): (r: Option<string>)
    ensures r.Some? ==> r.value != ""
    ensures JoinNames(u.firstName.GetOr(""), u.lastName.GetOr("")) != "" ==>
              r == Some(JoinNames(u.firstName.GetOr(""), u.lastName.GetOr("")))
    ensures u.firstName.GetOr("") == "" && u.lastName.GetOr("") == "" ==>
              r == if u.email.GetOr("") == "" then None else u.email
  {
    var first := u.firstName.GetOr("");
    var last := u.lastName.GetOr("");
    var joined := JoinNames(first, last);
    var fullName := if joined != "" then joined else u.email.GetOr("");
    if fullName == "" then None else Some(fullName)
  }

  function Flatten(u: DirectoryUser): (r: UserRecord)
    ensures r.id == u.id && r.email == u.email && r.fullName == FullName(u)
  {
    UserRecord(u.id, FullName(u), u.email)
  }

  /** `GET /api/users/list`. */
  function Get(listing: Listing): (r: Response)
    ensures listing.Users? <==> r.Ok?
    ensures listing.Users? ==> |r.records| == |listing.users|
    ensures listing.Users? ==> forall i :: 0 <= i < |listing.users| ==> r.records[i] == Flatten(listing.users[i])
    ensures listing.ListError? ==> r == Failure(500, listing.message.GetOr(ListFailed))
    ensures listing.NoUsers? ==> r == Failure(500, ListFailed)
    ensures listing.ListThrew? ==> r == Failure(500, Unexpected)
  {
    match listing
    case ListError(message) => Failure(500, message.GetOr(ListFailed))
    case NoUsers => Failure(500, ListFailed)
    case ListThrew => Failure(500, Unexpected)
    case Users(users) => Ok(seq(|users|, i requires 0 <= i < |users| => Flatten(users[i])))
  }

  /** A user with a name is shown by that name, both parts with one space
      between them. */
  lemma NamedUserKeepsBothParts(u: DirectoryUser)
    requires u.firstName.Some? && u.firstName.value != "" && u.lastName.Some? && u.lastName.value != ""
    ensures FullName(u) == Some(u.firstName.value + " " + u.lastName.value)
  {
  }

  /** A display name is absent exactly when the user has no name parts and
      no e-mail address. */
  lemma NoNameIff(u: DirectoryUser)
    ensures FullName(u).None? <==> u.firstName.GetOr("") == "" && u.lastName.GetOr("") == "" && u.email.GetOr("") == ""
  {
  }

  /** Listing more users appends their records: the order is kept and one
      user's record does not depend on the others. */
  lemma GetAppend(a: seq<DirectoryUser>, b: seq<DirectoryUser>)
    ensures Get(Users(a + b)).records == Get(Users(a)).records + Get(Users(b)).records
  {
  }
}
