/**
 * The user endpoints: log in, create a user, assign permissions and read users. Password
 * hashing is a parameter (`hash`, `verify`), as is the fresh Uid of a new user; the session is
 * the HttpContext, whose sign-ins and sign-outs are recorded.
 */
module UserControllers {
  import opened Wrappers
  import opened Enums
  import opened Strings
  import opened ApiOffences
  import opened ValidationResults
  import opened Models
  import opened Store
  import opened UserValidation
  import opened UserDomain
  import UserModelTransformer
  import opened Web

  /** The answer to an unknown username or a wrong password: the two cases are not told apart. */
  const LoginRefused := ValidationResult([Entry("Username_Password", "invalid_username_or_password")], TeapotStatus)

  /** The answer to a username that is already taken. */
  const NameTaken := ValidationResult([Entry("Username", "name_already_exists")], TeapotStatus)

  /** The user a client gets back: no password. */
  function Public(u: UserDto): UserModel {
    UserModelTransformer.ToModel(Some(u)).value
  }

  class UserController {
    const userBLL: UserBLL
    const validator: UserModelValidationProvider

    constructor(userBLL: UserBLL, validator: UserModelValidationProvider)
      ensures this.userBLL == userBLL && this.validator == validator
    {
      this.userBLL := userBLL;
      this.validator := validator;
    }

    /**
     * Login. Invalid credentials are answered with their validation result; an unknown name or
     * a password the hasher rejects with the same refusal. Otherwise the session is signed out
     * and signed in again with the name and the stored permissions, and the user is returned.
     * `verify(hashed, provided)` is the hasher's verdict that is not Failed.
     */
    method Login(model: UserModel, context: HttpContext, verify: (Option<string>, Option<string>) -> bool)
      returns (result: ActionResult<UserModel>)
      modifies context
      ensures context.user == old(context.user) && userBLL.db.users == old(userBLL.db.users)
      ensures UserEntries(model) != [] ==>
                result == Teapot(ValidationResult(UserEntries(model), TeapotStatus)) && context.events == old(context.events)
      ensures UserEntries(model) == [] ==>
                var u := userBLL.GetUserByUsername(model.username);
                if u.None? || !verify(u.value.password, model.password) then
                  result == Teapot(LoginRefused) && context.events == old(context.events)
                else
                  && result == Ok(Public(u.value))
                  && context.events == old(context.events) + [SignedOut, SignedIn(LoginPrincipal(model.username.value, u.value.permissions))]
    {
      var validationResult := validator.Validate(model);
      if validationResult.Some? {
        return Teapot(validationResult.value);
      }
      var userDto := userBLL.GetUserByUsername(model.username);
      if userDto.None? {
        var refused := ToTeapotResult(InvalidUsernameOrPassword, Some("Username_Password"));
        return Teapot(refused.value);
      }
      if !verify(userDto.value.password, model.password) {
        var refused := ToTeapotResult(InvalidUsernameOrPassword, Some("Username_Password"));
        return Teapot(refused.value);
      }
      context.events := context.events + [SignedOut];
      var userPrincipal := LoginPrincipal(model.username.value, userDto.value.permissions);
      context.events := context.events + [SignedIn(userPrincipal)];
      return Ok(Public(userDto.value));
    }

    /**
     * CreateUser. Invalid credentials are answered with their validation result, a taken name
     * with name_already_exists; otherwise a user with the fresh Uid, the name, the hashed
     * password and the requested permissions is stored, and returned, or 500 if the store fails.
     */
    method CreateUser(model: UserModel, newUid: string, hash: string -> string) returns (result: ActionResult<UserModel>)
      modifies userBLL.db
      ensures userBLL.db.payments == old(userBLL.db.payments)
      ensures UserEntries(model) != [] ==>
                result == Teapot(ValidationResult(UserEntries(model), TeapotStatus)) && userBLL.db.users == old(userBLL.db.users)
      ensures UserEntries(model) == [] && old(userBLL.GetUserByUsername(model.username)).Some? ==>
                result == Teapot(NameTaken) && userBLL.db.users == old(userBLL.db.users)
      ensures UserEntries(model) == [] && old(userBLL.GetUserByUsername(model.username)).None? ==>
                var dto := UserDto(0, Some(newUid), model.username, Some(hash(model.password.value)), model.permissions);
                && (result.Ok? <==> userBLL.db.users == old(userBLL.db.users) + [dto])
                && (result.Ok? ==> result.value == Public(dto))
                && (!result.Ok? ==> result == ServerError && userBLL.db.users == old(userBLL.db.users))
    {
      var validationResult := validator.Validate(model);
      if validationResult.Some? {
        return Teapot(validationResult.value);
      }
      if userBLL.GetUserByUsername(model.username).Some? {
        var taken := ToTeapotResult(NameAlreadyExists, Some("Username"));
        return Teapot(taken.value);
      }
      var hashedPassword := hash(model.password.value);
      var userDto := UserDto(0, Some(newUid), model.username, Some(hashedPassword), model.permissions);
      var res := userBLL.CreateUser(userDto);
      if !res {
        return ServerError;
      }
      return Ok(Public(userDto));
    }

    /**
     * SetPermissions. An unknown Uid is 404. Otherwise the user's permissions are replaced and
     * the update stored, or 500 if the store fails. When the caller is that user (the name
     * claims match), the caller's permission claim is replaced and the session re-issued.
     */
    method SetPermissions(uid: Option<string>, permissions: Option<seq<Permission>>, context: HttpContext)
      returns (result: ActionResult<UserModel>)
      modifies userBLL.db, context
      ensures userBLL.db.payments == old(userBLL.db.payments)
      ensures old(userBLL.GetByUserUid(uid)).None? ==>
                result == NotFound && userBLL.db.users == old(userBLL.db.users)
                && context.user == old(context.user) && context.events == old(context.events)
      ensures old(userBLL.GetByUserUid(uid)).Some? ==>
                var updated := old(userBLL.GetByUserUid(uid)).value.(permissions := permissions);
                var name := FindName(old(context.user));
                && (result.Ok? ==> userBLL.db.users == Replaced(old(userBLL.db.users), updated))
                && (!result.Ok? ==>
                      && result == ServerError && userBLL.db.users == old(userBLL.db.users)
                      && context.user == old(context.user) && context.events == old(context.events))
                && (result.Ok? ==> result.value == Public(updated))
                && (result.Ok? && name.Some? && Some(name.value) == updated.username ==>
                      && context.user == Reissued(old(context.user), permissions)
                      && context.events == old(context.events) + [SignedOut, SignedIn(context.user)])
                && (result.Ok? && !(name.Some? && Some(name.value) == updated.username) ==>
                      context.user == old(context.user) && context.events == old(context.events))
    {
      var found := userBLL.GetByUserUid(uid);
      if found.None? {
        return NotFound;
      }
      var userDto := found.value.(permissions := permissions);
      var hasUpdated := userBLL.UpdateUser(userDto);
      if !hasUpdated {
        return ServerError;
      }
      var claimantsName := FindName(context.user);
      if claimantsName.Some? && Some(claimantsName.value) == userDto.username {
        context.user := Reissued(context.user, userDto.permissions);
        context.events := context.events + [SignedOut];
        context.events := context.events + [SignedIn(context.user)];
      }
      return Ok(Public(userDto));
    }

    /** GetUserByUid: 404 when no user has that Uid, else the first such user without the password. */
    function GetUserByUid(uid: Option<string>): (r: ActionResult<UserModel>)
      reads this, userBLL, userBLL.db
      ensures r.NotFound? || r.Ok?
      ensures r.NotFound? <==> forall i | 0 <= i < |userBLL.db.users| :: userBLL.db.users[i].uid != uid
      ensures r.Ok? ==> exists u | u in userBLL.db.users :: u.uid == uid && r.value == Public(u) && r.value.password.None?
    {
      var userDto := userBLL.GetByUserUid(uid);
      if userDto.None? then NotFound else Ok(Public(userDto.value))
    }

    /** GetAllUsers: every stored user without the password, in store order. */
    function GetAllUsers(): (r: ActionResult<seq<UserModel>>)
      reads this, userBLL, userBLL.db
      ensures r.Ok? && |r.value| == |userBLL.db.users|
      ensures forall i | 0 <= i < |r.value| :: r.value[i] == Public(userBLL.db.users[i]) && r.value[i].password.None?
    {
      var users := userBLL.GetAllUsers();
      Ok(seq(|users|, i requires 0 <= i < |users| => Public(users[i])))
    }
  }

  /** The refusals are the teapot results the offences make. */
  lemma RefusalsAreTeapotResults()
    ensures ToTeapotResult(InvalidUsernameOrPassword, Some("Username_Password")) == Some(LoginRefused)
    ensures ToTeapotResult(NameAlreadyExists, Some("Username")) == Some(NameTaken)
  {
  }
}
