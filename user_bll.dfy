/** The user business layer: thin writes to the store and lookups over the stored users. */
module UserDomain {
  import opened Wrappers
  import opened Models
  import opened Linq
  import opened Store

  class UserBLL {
    const db: DatabaseContext

    constructor(db: DatabaseContext)
      ensures this.db == db
    {
      this.db := db;
    }

    /** CreateUser: true exactly when the insert reported an id above zero, which stores the user. */
    method CreateUser(userDto: UserDto) returns (res: bool)
      modifies db
      ensures res <==> db.users == old(db.users) + [userDto]
      ensures !res ==> db.users == old(db.users)
      ensures db.payments == old(db.payments)
    {
      var id := db.InsertUser(userDto);
      res := id > 0;
    }

    /** UpdateUser: the store's answer; on success the records with the same id are replaced. */
    method UpdateUser(userDto: UserDto) returns (res: bool)
      modifies db
      ensures res ==> db.users == Replaced(old(db.users), userDto)
      ensures !res ==> db.users == old(db.users)
      ensures db.payments == old(db.payments)
    {
      res := db.UpdateUser(userDto);
    }

    /** GetAllUsers: every stored user, in store order. */
    function GetAllUsers(): (r: seq<UserDto>)
      reads this, db
      ensures r == db.users
    {
      db.users
    }

    /** GetByUserUid: the first stored user with that Uid. */
    function GetByUserUid(uid: Option<string>): (r: Option<UserDto>)
      reads this, db
      ensures r.None? <==> forall i | 0 <= i < |db.users| :: db.users[i].uid != uid
      ensures r.Some? ==> r.value in db.users && r.value.uid == uid
    {
      db.GetUserByUid(uid)
    }

    /** GetUserByUsername: the first stored user whose Username equals `username` exactly, else null. */
    function GetUserByUsername(username: Option<string>): (r: Option<UserDto>)
      reads this, db
      ensures r.None? <==> forall i | 0 <= i < |db.users| :: db.users[i].username != username
      ensures r.Some? ==> exists i | 0 <= i < |db.users| ::
                            db.users[i] == r.value && r.value.username == username
                            && forall j | 0 <= j < i :: db.users[j].username != username
    {
      FirstOrDefault(GetAllUsers(), (dto: UserDto) => dto.username == username)
    }
  }

  /** Once a name is taken, creating another user with it leaves the lookup on the first. */
  lemma UsernameLookupStable(users: seq<UserDto>, u: UserDto, username: Option<string>)
    requires FirstOrDefault(users, (dto: UserDto) => dto.username == username).Some?
    ensures FirstOrDefault(users + [u], (dto: UserDto) => dto.username == username)
              == FirstOrDefault(users, (dto: UserDto) => dto.username == username)
  {
    FirstOrDefaultAppend(users, u, (dto: UserDto) => dto.username == username);
  }
}
