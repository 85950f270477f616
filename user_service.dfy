/**
 * The backend's user service: registration, look-up, partial profile update, full update,
 * creation and deletion over the user table, which is a map from document id to `User`.
 * The password encoder (BCrypt) is an uninterpreted function, and the ids the database
 * generates on insert are passed in.
 */
module Users {
  import opened Wrappers

  /** A user document; Java leaves every field `null` until it is set. */
  datatype User = User(
    id: Option<string>,
    username: Option<string>,
    email: Option<string>,
    password: Option<string>,
    name: Option<string>,
    title: Option<string>,
    course: Option<string>,
    specialization: Option<string>,
    graduationYear: Option<string>,
    frontendTechnologies: Option<string>,
    backendTechnologies: Option<string>,
    databaseTechnologies: Option<string>,
    devopsTools: Option<string>,
    programmingLanguages: Option<seq<string>>,
    skills: Option<seq<string>>,
    role: Option<string>,
    roles: Option<set<string>>)

  /** `new User()`. */
  const BlankUser := User(None, None, None, None, None, None, None, None, None, None, None, None, None, None, None, None, None)

  /** The profile fields a user may change about themselves; `None` means "leave as it is". */
  datatype ProfileUpdateRequest = ProfileUpdateRequest(
    name: Option<string>,
    title: Option<string>,
    course: Option<string>,
    specialization: Option<string>,
    graduationYear: Option<string>,
    frontendTechnologies: Option<string>,
    backendTechnologies: Option<string>,
    databaseTechnologies: Option<string>,
    devopsTools: Option<string>,
    programmingLanguages: Option<seq<string>>,
    skills: Option<seq<string>>)

  /** The fields of a sign-up request that registration reads. */
  datatype SignupRequest = SignupRequest(username: string, email: string, password: string)

  /** `NoSuchElementException` and its message. */
  datatype ServiceError = NoSuchElement(message: string)

  function UserNotFound(id: string): ServiceError
  {
    NoSuchElement("User not found with id: " + id)
  }

  /** The eleven profile fields of a user, as a request. */
  function ProfileOf(u: User): ProfileUpdateRequest
  {
    ProfileUpdateRequest(u.name, u.title, u.course, u.specialization, u.graduationYear,
                         u.frontendTechnologies, u.backendTechnologies, u.databaseTechnologies,
                         u.devopsTools, u.programmingLanguages, u.skills)
  }

  /** A request that changes nothing. */
  const EmptyProfileUpdate := ProfileUpdateRequest(None, None, None, None, None, None, None, None, None, None, None)

  /** The user document a sign-up creates before it is saved. */
  function NewAccount(req: SignupRequest, encode: string -> string): User
  {
    BlankUser.(username := Some(req.username), email := Some(req.email),
               password := Some(encode(req.password)), roles := Some({"ROLE_USER"}))
  }

  /** A request field: the given value when there is one, else the current value. */
  function Pick<T>(given: Option<T>, current: Option<T>): (r: Option<T>)
    ensures given.Some? ==> r == given
    ensures given.None? ==> r == current
  {
    if given.Some? then given else current
  }

  /** `updateUserProfile`'s edit: each profile field is replaced when the request gives a value. */
  function ApplyProfileUpdate(u: User, req: ProfileUpdateRequest): User
  {
    u.(name := Pick(req.name, u.name),
       title := Pick(req.title, u.title),
       course := Pick(req.course, u.course),
       specialization := Pick(req.specialization, u.specialization),
       graduationYear := Pick(req.graduationYear, u.graduationYear),
       frontendTechnologies := Pick(req.frontendTechnologies, u.frontendTechnologies),
       backendTechnologies := Pick(req.backendTechnologies, u.backendTechnologies),
       databaseTechnologies := Pick(req.databaseTechnologies, u.databaseTechnologies),
       devopsTools := Pick(req.devopsTools, u.devopsTools),
       programmingLanguages := Pick(req.programmingLanguages, u.programmingLanguages),
       skills := Pick(req.skills, u.skills))
  }

  /** `updateUser`'s edit: username, email and every profile field are copied, nulls included; the
      password is re-encoded only when a new one is given. */
  function Overwrite(existing: User, incoming: User, encode: string -> string): User
  {
    existing.(username := incoming.username,
              email := incoming.email,
              password := if incoming.password.Some? then Some(encode(incoming.password.value)) else existing.password,
              name := incoming.name,
              title := incoming.title,
              course := incoming.course,
              specialization := incoming.specialization,
              graduationYear := incoming.graduationYear,
              frontendTechnologies := incoming.frontendTechnologies,
              backendTechnologies := incoming.backendTechnologies,
              databaseTechnologies := incoming.databaseTechnologies,
              devopsTools := incoming.devopsTools,
              programmingLanguages := incoming.programmingLanguages,
              skills := incoming.skills)
  }

  /** The document `repository.save` stores: a user without an id gets the generated one. */
  function Saved(u: User, generatedId: string): User
  {
    if u.id.Some? then u else u.(id := Some(generatedId))
  }

  /** A partial update never touches the identity and credential fields. */
  lemma ProfileUpdateKeepsIdentity(u: User, req: ProfileUpdateRequest)
    ensures var r := ApplyProfileUpdate(u, req);
      r.id == u.id && r.username == u.username && r.email == u.email && r.password == u.password
      && r.role == u.role && r.roles == u.roles
  {
  }

  /** Applying the same partial update twice stores the same user as applying it once. */
  lemma ProfileUpdateIdempotent(u: User, req: ProfileUpdateRequest)
    ensures ApplyProfileUpdate(ApplyProfileUpdate(u, req), req) == ApplyProfileUpdate(u, req)
  {
  }

  /** An all-null request leaves the user as it is. */
  lemma EmptyProfileUpdateIsIdentity(u: User)
    ensures ApplyProfileUpdate(u, EmptyProfileUpdate) == u
  {
  }

  /** The later of two partial updates wins field by field. */
  lemma ProfileUpdatesCompose(u: User, first: ProfileUpdateRequest, second: ProfileUpdateRequest)
    ensures ApplyProfileUpdate(ApplyProfileUpdate(u, first), second)
         == ApplyProfileUpdate(u, ProfileUpdateRequest(
              if second.name.Some? then second.name else first.name,
              if second.title.Some? then second.title else first.title,
              if second.course.Some? then second.course else first.course,
              if second.specialization.Some? then second.specialization else first.specialization,
              if second.graduationYear.Some? then second.graduationYear else first.graduationYear,
              if second.frontendTechnologies.Some? then second.frontendTechnologies else first.frontendTechnologies,
              if second.backendTechnologies.Some? then second.backendTechnologies else first.backendTechnologies,
              if second.databaseTechnologies.Some? then second.databaseTechnologies else first.databaseTechnologies,
              if second.devopsTools.Some? then second.devopsTools else first.devopsTools,
              if second.programmingLanguages.Some? then second.programmingLanguages else first.programmingLanguages,
              if second.skills.Some? then second.skills else first.skills))
  {
  }

  /** A full update copies the incoming profile fields as they are, nulls included, keeps id, role and
      roles, and keeps the stored password when no new one is given. */
  lemma OverwriteCopiesProfile(existing: User, incoming: User, encode: string -> string)
    ensures var r := Overwrite(existing, incoming, encode);
      && ProfileOf(r) == ProfileOf(incoming)
      && r.username == incoming.username && r.email == incoming.email
      && r.id == existing.id && r.role == existing.role && r.roles == existing.roles
      && (incoming.password.None? ==> r.password == existing.password)
      && (incoming.password.Some? ==> r.password == Some(encode(incoming.password.value)))
  {
  }

  /** Partial against full update: they agree on the profile when the incoming user has every
      profile field set; on a null field the partial update keeps the stored value while the full
      update stores the null. */
  lemma PartialVersusFullUpdate(existing: User, incoming: User, encode: string -> string)
    ensures ProfileOf(incoming) == ProfileOf(ApplyProfileUpdate(incoming, EmptyProfileUpdate))
    ensures var partial := ApplyProfileUpdate(existing, ProfileOf(incoming));
      var full := Overwrite(existing, incoming, encode);
      && (incoming.name.Some? ==> partial.name == full.name)
      && (incoming.name.None? ==> partial.name == existing.name && full.name == None)
      && (incoming.skills.Some? ==> partial.skills == full.skills)
      && (incoming.skills.None? ==> partial.skills == existing.skills && full.skills == None)
      && partial.username == existing.username && partial.password == existing.password
  {
  }

  /** The user service over the repository's table. */
  class UserService {
    var users: map<string, User>
    const encode: string -> string

    /** Every stored document carries its own key as its id. */
    ghost predicate Valid()
      reads this
    {
      forall id :: id in users ==> users[id].id == Some(id)
    }

    constructor (encode: string -> string)
      ensures Valid() && users == map[] && this.encode == encode
    {
      users := map[];
      this.encode := encode;
    }

    predicate ExistsByUsername(username: string)
      reads this
    {
      exists id | id in users :: users[id].username == Some(username)
    }

    predicate ExistsByEmail(email: string)
      reads this
    {
      exists id | id in users :: users[id].email == Some(email)
    }

    /** `registerNewUserAccount`: save one new user with the encoded password and the single role
        ROLE_USER; `newId` is the id the database assigns. */
    method RegisterNewUserAccount(req: SignupRequest, newId: string)
      requires Valid() && newId !in users
      modifies this
      ensures Valid()
      ensures users == old(users)[newId := NewAccount(req, encode).(id := Some(newId))]
      ensures ExistsByUsername(req.username) && ExistsByEmail(req.email)
    {
      var user := BlankUser;
      user := user.(username := Some(req.username));
      user := user.(email := Some(req.email));
      user := user.(password := Some(encode(req.password)));
      user := user.(roles := Some({"ROLE_USER"}));
      user := Saved(user, newId);
      users := users[newId := user];
    }

    function FindUserById(id: string): (r: Result<User, ServiceError>)
      reads this
      ensures r.Success? <==> id in users
      ensures r.Success? ==> r.value == users[id]
      ensures r.Failure? ==> r.error == UserNotFound(id)
    {
      if id in users then Success(users[id]) else Failure(UserNotFound(id))
    }

    method FindUserByUsername(username: string) returns (r: Result<User, ServiceError>)
      ensures r.Success? <==> ExistsByUsername(username)
      ensures r.Success? ==> r.value in users.Values && r.value.username == Some(username)
      ensures r.Failure? ==> r.error == NoSuchElement("User not found with username: " + username)
    {
      if ExistsByUsername(username) {
        var id :| id in users && users[id].username == Some(username);
        r := Success(users[id]);
      } else {
        r := Failure(NoSuchElement("User not found with username: " + username));
      }
    }

    function GetUserById(id: string): (r: Option<User>)
      reads this
      ensures r.Some? <==> id in users
      ensures r.Some? ==> r.value == users[id]
    {
      if id in users then Some(users[id]) else None
    }

    /** `getAllUsers`: every stored user and nothing else. */
    function GetAllUsers(): (r: set<User>)
      reads this
      ensures forall u :: u in r <==> exists id | id in users :: users[id] == u
    {
      users.Values
    }

    /** `updateUserProfile`: load, set each non-null field, save. */
    method UpdateUserProfile(userId: string, req: ProfileUpdateRequest) returns (r: Result<User, ServiceError>)
      requires Valid()
      modifies this
      ensures Valid()
      ensures userId in old(users) ==>
                r == Success(ApplyProfileUpdate(old(users)[userId], req)) && users == old(users)[userId := r.value]
      ensures userId !in old(users) ==> r == Failure(UserNotFound(userId)) && users == old(users)
    {
      var found := FindUserById(userId);
      if found.Failure? {
        r := Failure(found.error);
        return;
      }
      var user := found.value;
      user := user.(name := Pick(req.name, user.name));
      user := user.(title := Pick(req.title, user.title));
      user := user.(course := Pick(req.course, user.course));
      user := user.(specialization := Pick(req.specialization, user.specialization));
      user := user.(graduationYear := Pick(req.graduationYear, user.graduationYear));
      user := user.(frontendTechnologies := Pick(req.frontendTechnologies, user.frontendTechnologies));
      user := user.(backendTechnologies := Pick(req.backendTechnologies, user.backendTechnologies));
      user := user.(databaseTechnologies := Pick(req.databaseTechnologies, user.databaseTechnologies));
      user := user.(devopsTools := Pick(req.devopsTools, user.devopsTools));
      user := user.(programmingLanguages := Pick(req.programmingLanguages, user.programmingLanguages));
      user := user.(skills := Pick(req.skills, user.skills));
      users := users[user.id.value := user];
      r := Success(user);
    }

    /** `createUser`: encode a given password, then save (an existing id is overwritten). */
    method CreateUser(user: User, newId: string) returns (saved: User)
      requires Valid() && newId !in users
      modifies this
      ensures Valid()
      ensures saved == Saved(if user.password.Some? then user.(password := Some(encode(user.password.value))) else user, newId)
      ensures users == old(users)[saved.id.value := saved]
    {
      var u := user;
      if u.password.Some? {
        u := u.(password := Some(encode(u.password.value)));
      }
      saved := Saved(u, newId);
      users := users[saved.id.value := saved];
    }

    /** `updateUser`: load, overwrite, save. */
    method UpdateUser(id: string, user: User) returns (r: Result<User, ServiceError>)
      requires Valid()
      modifies this
      ensures Valid()
      ensures id in old(users) ==> r == Success(Overwrite(old(users)[id], user, encode)) && users == old(users)[id := r.value]
      ensures id !in old(users) ==> r == Failure(UserNotFound(id)) && users == old(users)
    {
      var found := FindUserById(id);
      if found.Failure? {
        r := Failure(found.error);
        return;
      }
      var existing := found.value;
      existing := existing.(username := user.username);
      existing := existing.(email := user.email);
      if user.password.Some? {
        existing := existing.(password := Some(encode(user.password.value)));
      }
      existing := existing.(name := user.name);
      existing := existing.(title := user.title);
      existing := existing.(course := user.course);
      existing := existing.(specialization := user.specialization);
      existing := existing.(graduationYear := user.graduationYear);
      existing := existing.(frontendTechnologies := user.frontendTechnologies);
      existing := existing.(backendTechnologies := user.backendTechnologies);
      existing := existing.(databaseTechnologies := user.databaseTechnologies);
      existing := existing.(devopsTools := user.devopsTools);
      existing := existing.(programmingLanguages := user.programmingLanguages);
      existing := existing.(skills := user.skills);
      users := users[existing.id.value := existing];
      r := Success(existing);
    }

    /** `deleteUser`: a missing id raises and removes nothing; otherwise exactly that id goes. */
    method DeleteUser(id: string) returns (r: Result<(), ServiceError>)
      requires Valid()
      modifies this
      ensures Valid()
      ensures id in old(users) ==> r == Success(()) && users == old(users) - {id}
      ensures id !in old(users) ==> r == Failure(UserNotFound(id)) && users == old(users)
    {
      if id !in users {
        r := Failure(UserNotFound(id));
        return;
      }
      users := users - {id};
      r := Success(());
    }
  }
}
