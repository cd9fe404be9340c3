/** Model of src/user_manager.py. Python's `UserManager(BaseManager)`
    inherits the store; here the manager owns a `BaseManager` and works on
    its store, which is what `self.users` (an alias of `_storage`) shows.
    Arguments that may be `None` are `Option`s. */
module Users {
  import opened Wrappers
  import opened Utils
  import opened Base

  const UserEntity := "User"

  /** The dict `create_user` passes to `_create_record`. */
  function UserFields(username: string, email: string, password: string): Record {
    map["username" := Text(username), "email" := Text(email), "password" := Text(password)]
  }

  /** The dict `update_user` passes to `_update_record`. */
  function UserUpdates(username: Option<string>, email: Option<string>, password: Option<string>): Updates {
    map["username" := TextUpdate(username), "email" := TextUpdate(email), "password" := TextUpdate(password)]
  }

  /** The three validations of `create_user`, in order; the first failure
      is the one raised. */
  function CreateUserChecks(username: Option<string>, email: Option<string>, password: Option<string>): (o: Outcome)
    ensures o.Pass? <==> username.Some? && |username.value| >= 3 && email.Some? && '@' in email.value
                         && password.Some? && |password.value| >= 8
    ensures ValidateMinLength(username, 3, "Username").Fail? ==> o == ValidateMinLength(username, 3, "Username")
  {
    var a := ValidateMinLength(username, 3, "Username");
    var b := ValidateEmail(email);
    var c := ValidateMinLength(password, 8, "Password");
    FirstFailureOfThree(a, b, c);
    FirstFailure([a, b, c])
  }

  /** The validations of `update_user`: only the fields given are checked,
      with the same rules as on creation. */
  function UpdateUserChecks(username: Option<string>, email: Option<string>, password: Option<string>): (o: Outcome)
    ensures o.Pass? <==> (username.Some? ==> |username.value| >= 3) && (email.Some? ==> '@' in email.value)
                         && (password.Some? ==> |password.value| >= 8)
    ensures username.Some? && |username.value| < 3 ==> o == ValidateMinLength(username, 3, "Username")
  {
    var a := IfGiven(username, ValidateMinLength(username, 3, "Username"));
    var b := IfGiven(email, ValidateEmail(email));
    var c := IfGiven(password, ValidateMinLength(password, 8, "Password"));
    FirstFailureOfThree(a, b, c);
    FirstFailure([a, b, c])
  }

  /** A new user passes exactly the update checks for the same three fields. */
  lemma CreateChecksAreUpdateChecks(username: string, email: string, password: string)
    ensures CreateUserChecks(Some(username), Some(email), Some(password)).Pass?
        <==> UpdateUserChecks(Some(username), Some(email), Some(password)).Pass?
  {
  }

  class UserManager {
    const base: BaseManager

    ghost predicate Valid()
      reads this, base
    {
      base.Valid()
    }

    constructor ()
      ensures Valid() && fresh(base)
      ensures base.storage == map[] && base.idCounter == 0
    {
      base := new BaseManager();
    }

    /** `create_user`: a failed validation raises its ValueError and stores
        nothing; otherwise the user is stored under a fresh id. */
    method CreateUser(username: Option<string>, email: Option<string>, password: Option<string>,
                      createdAt: string, updatedAt: string) returns (r: Result<Record>)
      requires Valid()
      modifies base
      ensures Valid()
      ensures CreateUserChecks(username, email, password).Fail? ==>
                r == Err(CreateUserChecks(username, email, password).error)
                && base.storage == old(base.storage) && base.idCounter == old(base.idCounter)
      ensures CreateUserChecks(username, email, password).Pass? ==>
                base.idCounter == old(base.idCounter) + 1 && base.idCounter !in old(base.storage)
                && r == Ok(NewRecord(base.idCounter, UserFields(username.value, email.value, password.value),
                                     createdAt, updatedAt))
                && base.storage == old(base.storage)[base.idCounter := r.value]
    {
      FirstFailureOfThree(ValidateMinLength(username, 3, "Username"), ValidateEmail(email),
                          ValidateMinLength(password, 8, "Password"));
      var check := ValidateMinLength(username, 3, "Username");
      if check.Fail? {
        return Err(check.error);
      }
      check := ValidateEmail(email);
      if check.Fail? {
        return Err(check.error);
      }
      check := ValidateMinLength(password, 8, "Password");
      if check.Fail? {
        return Err(check.error);
      }
      var record := base.CreateRecord(UserFields(username.value, email.value, password.value), createdAt, updatedAt);
      return Ok(record);
    }

    /** `update_user`: the given fields are validated first, so an invalid
        value raises even for an unknown id; then the record is updated with
        the given fields only, or "User not found" is raised. */
    method UpdateUser(userId: int, username: Option<string>, email: Option<string>, password: Option<string>,
                      now: string) returns (r: Result<Record>)
      requires Valid()
      modifies base
      ensures Valid()
      ensures base.idCounter == old(base.idCounter) && base.storage.Keys == old(base.storage).Keys
      ensures UpdateUserChecks(username, email, password).Fail? ==>
                r == Err(UpdateUserChecks(username, email, password).error) && base.storage == old(base.storage)
      ensures UpdateUserChecks(username, email, password).Pass? && userId !in old(base.storage) ==>
                r == Err(NotFound(UserEntity)) && base.storage == old(base.storage)
      ensures UpdateUserChecks(username, email, password).Pass? && userId in old(base.storage) ==>
                r == Ok(Updated(old(base.storage)[userId], UserUpdates(username, email, password), now))
                && base.storage == old(base.storage)[userId := r.value]
    {
      FirstFailureOfThree(IfGiven(username, ValidateMinLength(username, 3, "Username")),
                          IfGiven(email, ValidateEmail(email)),
                          IfGiven(password, ValidateMinLength(password, 8, "Password")));
      var check := IfGiven(username, ValidateMinLength(username, 3, "Username"));
      if check.Fail? {
        return Err(check.error);
      }
      check := IfGiven(email, ValidateEmail(email));
      if check.Fail? {
        return Err(check.error);
      }
      check := IfGiven(password, ValidateMinLength(password, 8, "Password"));
      if check.Fail? {
        return Err(check.error);
      }
      r := base.UpdateRecord(userId, UserUpdates(username, email, password), UserEntity, now);
    }
  }

  /** A field left out of `update_user` keeps its stored value. */
  lemma OmittedFieldKept(record: Record, username: Option<string>, email: Option<string>,
                         password: Option<string>, now: string, field: string)
    requires field in record && field != "updated_at"
    requires field == "username" ==> username.None?
    requires field == "email" ==> email.None?
    requires field == "password" ==> password.None?
    ensures Updated(record, UserUpdates(username, email, password), now)[field] == record[field]
  {
    assert field !in Assigned(UserUpdates(username, email, password));
  }

  /** A username given to `update_user` is the stored username afterwards. */
  lemma GivenUsernameStored(record: Record, username: string, email: Option<string>,
                            password: Option<string>, now: string)
    ensures Updated(record, UserUpdates(Some(username), email, password), now)["username"] == Text(username)
  {
    var updates := UserUpdates(Some(username), email, password);
    assert updates["username"] == Some(Text(username));
    assert "username" in Assigned(updates);
    assert "username" != "updated_at" by {
      assert |"username"| != |"updated_at"|;
    }
  }

  /** tests/test_user_manager.py: a valid user is stored with id 1 and the
      given fields. */
  method CreateUserScenario(t: string) returns (user: Result<Record>)
    ensures user.Ok? && user.value.Keys == {"username", "email", "password", "id", "created_at", "updated_at"}
    ensures user.value["username"] == Text("testuser") && user.value["email"] == Text("test@example.com")
    ensures user.value["id"] == Int(1)
  {
    var manager := new UserManager();
    user := manager.CreateUser(Some("testuser"), Some("test@example.com"), Some("password123"), t, t);
  }

  /** tests/test_user_manager.py: a short username, an address without '@'
      and a short password are refused with the messages the tests look for. */
  lemma ShortUsernameRefused()
    ensures CreateUserChecks(Some("ab"), Some("test@example.com"), Some("password123"))
         == Fail(ValueError(MinLengthMessage("Username", 3)))
  {
    UsernameMessage();
  }

  lemma InvalidEmailRefused()
    ensures CreateUserChecks(Some("testuser"), Some("invalid-email"), Some("password123"))
         == Fail(ValueError("Invalid email address"))
  {
    assert ValidateMinLength(Some("testuser"), 3, "Username") == Pass;
    assert ValidateEmail(Some("invalid-email")) == Fail(ValueError(InvalidEmail)) by {
      assert '@' !in "invalid-email";
    }
  }

  lemma ShortPasswordRefused()
    ensures CreateUserChecks(Some("testuser"), Some("test@example.com"), Some("short"))
         == Fail(ValueError(MinLengthMessage("Password", 8)))
  {
    ExampleEmailAccepted();
    PasswordMessage();
    assert ValidateMinLength(Some("testuser"), 3, "Username") == Pass;
  }

  lemma ExampleEmailAccepted()
    ensures ValidateEmail(Some("test@example.com")) == Pass
  {
    assert "test@example.com"[4] == '@';
  }

  /** tests/test_user_manager.py: renaming a stored user. */
  method RenameUserScenario(t: string, now: string) returns (renamed: Result<Record>)
    ensures renamed.Ok? && "username" in renamed.value && renamed.value["username"] == Text("newname")
  {
    var manager := new UserManager();
    ExampleEmailAccepted();
    var user := manager.CreateUser(Some("testuser"), Some("test@example.com"), Some("password123"), t, t);
    assert 1 in manager.base.storage;
    ghost var stored := manager.base.storage[1];
    renamed := manager.UpdateUser(1, Some("newname"), None, None, now);
    GivenUsernameStored(stored, "newname", None, None, now);
  }

  /** tests/test_user_manager.py: renaming an id that was never handed out. */
  method UnknownUserScenario(now: string) returns (unknown: Result<Record>)
    ensures unknown == Err(ValueError("User not found"))
  {
    var manager := new UserManager();
    unknown := manager.UpdateUser(999, Some("newname"), None, None, now);
    assert UserEntity + " not found" == "User not found";
  }

  /** tests/test_user_manager.py: an invalid new name is refused before the
      store is touched. */
  method InvalidRenameScenario(t: string, now: string) returns (invalid: Result<Record>)
    ensures invalid == Err(ValueError(MinLengthMessage("Username", 3)))
  {
    var manager := new UserManager();
    var user := manager.CreateUser(Some("testuser"), Some("test@example.com"), Some("password123"), t, t);
    UsernameMessage();
    invalid := manager.UpdateUser(1, Some("ab"), None, None, now);
  }
}
