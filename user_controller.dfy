/**
 * The backend's `/api/users` controller: list, fetch, create, replace and delete users by id,
 * and read or edit the profile of the signed-in user. An exception the controller does not
 * catch is returned as the `Failure` of a `Result`; Spring turns it into an error reply.
 */
module UserController {
  import opened Wrappers
  import opened Web
  import opened Users

  /** The response bodies of this controller. */
  datatype Body =
    | UserJson(user: User)
    | UserList(users: set<User>)
    | Message(message: string)   // `new MessageResponse()` carries ""
    | NoBody

  /** `getCurrentUserId`: the id of a `UserDetailsImpl` principal, or null. */
  function CurrentUserId(authentication: Option<Authentication>): (id: Option<string>)
    ensures id.Some? <==> authentication.Some? && authentication.value.principal.UserDetailsImpl?
    ensures id.Some? ==> id.value == authentication.value.principal.id
  {
    if authentication.Some? && authentication.value.principal.UserDetailsImpl? then Some(authentication.value.principal.id)
    else None
  }

  /** `GET /api/users`. */
  function GetAllUsers(service: UserService): (r: Response<Body>)
    reads service
    ensures r.status == 200 && r.body.UserList?
    ensures forall id :: id in service.users ==> service.users[id] in r.body.users
    ensures forall u :: u in r.body.users ==> exists id | id in service.users :: service.users[id] == u
    ensures r.body.users == service.users.Values
  {
    Response(200, UserList(service.GetAllUsers()))
  }

  /** `GET /api/users/{id}`. */
  function GetUserById(service: UserService, id: string): (r: Response<Body>)
    reads service
    ensures r.status == 200 <==> id in service.users
    ensures r.status == 200 ==> r.body == UserJson(service.users[id])
    ensures r.status != 200 ==> r == Response(404, NoBody)
  {
    match service.GetUserById(id)
    case Some(user) => Response(200, UserJson(user))
    case None => Response(404, NoBody)
  }

  /** `POST /api/users`. */
  method CreateUser(service: UserService, user: User, newId: string) returns (r: Response<Body>)
    requires service.Valid() && newId !in service.users
    modifies service
    ensures service.Valid()
    ensures r.status == 200 && r.body.UserJson? && r.body.user.id.Some?
    ensures service.users == old(service.users)[r.body.user.id.value := r.body.user]
  {
    var saved := service.CreateUser(user, newId);
    r := Response(200, UserJson(saved));
  }

  /** `PUT /api/users/{id}`. Its not-found branch cannot be taken: an unknown id makes the service
      throw before the null test, so the reply is either 200 or the uncaught exception. */
  method UpdateUser(service: UserService, id: string, user: User) returns (r: Result<Response<Body>, ServiceError>)
    requires service.Valid()
    modifies service
    ensures service.Valid()
    ensures id in old(service.users) ==>
      r == Success(Response(200, UserJson(Overwrite(old(service.users)[id], user, service.encode))))
      && service.users == old(service.users)[id := Overwrite(old(service.users)[id], user, service.encode)]
    ensures id !in old(service.users) ==> r == Failure(UserNotFound(id)) && service.users == old(service.users)
    ensures r.Success? ==> r.value.status == 200
  {
    var updated := service.UpdateUser(id, user);
    if updated.Failure? {
      return Failure(updated.error);
    }
    r := Success(Response(200, UserJson(updated.value)));
  }

  /** `DELETE /api/users/{id}`. */
  method DeleteUser(service: UserService, id: string) returns (r: Result<Response<Body>, ServiceError>)
    requires service.Valid()
    modifies service
    ensures service.Valid()
    ensures id in old(service.users) ==> r == Success(Response(200, NoBody)) && service.users == old(service.users) - {id}
    ensures id !in old(service.users) ==> r == Failure(UserNotFound(id)) && service.users == old(service.users)
  {
    var deleted := service.DeleteUser(id);
    if deleted.Failure? {
      return Failure(deleted.error);
    }
    r := Success(Response(200, NoBody));
  }

  /** `GET /api/users/me`: 401 without a signed-in user, 404 when their document is gone. */
  function GetCurrentUserProfile(context: SecurityContext, service: UserService): (r: Response<Body>)
    reads context, service
    ensures var id := CurrentUserId(context.authentication);
      && (r.status == 401 <==> id.None?)
      && (r.status == 404 <==> id.Some? && id.value !in service.users)
      && (r.status == 200 <==> id.Some? && id.value in service.users)
      && (r.status == 200 ==> r.body == UserJson(service.users[id.value]))
      && (r.status != 200 ==> r.body == Message(""))
  {
    match CurrentUserId(context.authentication)
    case None => Response(401, Message(""))
    case Some(userId) =>
      match service.FindUserById(userId)
      case Success(user) => Response(200, UserJson(user))
      case Failure(_) => Response(404, Message(""))
  }

  /** `PUT /api/users/me`: 401 without a signed-in user, 400 when the update throws, else 200;
      every reply carries an empty message. */
  method UpdateUserProfile(context: SecurityContext, service: UserService, req: ProfileUpdateRequest)
    returns (r: Response<Body>)
    requires service.Valid()
    modifies service
    ensures service.Valid()
    ensures r.body == Message("")
    ensures var id := CurrentUserId(context.authentication);
      && (id.None? ==> r.status == 401 && service.users == old(service.users))
      && (id.Some? && id.value !in old(service.users) ==> r.status == 400 && service.users == old(service.users))
      && (id.Some? && id.value in old(service.users) ==>
            r.status == 200
            && service.users == old(service.users)[id.value := ApplyProfileUpdate(old(service.users)[id.value], req)])
  {
    var userId := CurrentUserId(context.authentication);
    if userId.None? {
      return Response(401, Message(""));
    }
    var updated := service.UpdateUserProfile(userId.value, req);
    if updated.Failure? {
      return Response(400, Message(""));
    }
    r := Response(200, Message(""));
  }
}
