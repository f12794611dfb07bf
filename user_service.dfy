/** User accounts: registration of customers and administrators, login,
    profile update and deletion, over a user store keyed by id. */
module Users {
  import opened Common

  datatype UserRole = ADMIN | CUSTOMER

  /** Loyalty tier of a customer; administrators have none. */
  datatype CustomerCategory = REGULAR | SILVER | GOLD | PLATINUM | PREMIUM

  /** The enum constant's name, as string concatenation prints it. */
  function CategoryName(c: CustomerCategory): string {
    match c
    case REGULAR => "REGULAR"
    case SILVER => "SILVER"
    case GOLD => "GOLD"
    case PLATINUM => "PLATINUM"
    case PREMIUM => "PREMIUM"
  }

  /** Contact and address fields, copied on registration and overwritten on
      update; `dob` is an epoch day. */
  datatype Profile = Profile(phone: string, address1: string, address2: Option<string>,
                             city: string, state: string, zipCode: string, dob: int)

  /** A stored user. */
  datatype User = User(userId: int, userName: string, password: string, role: UserRole,
                       customerCategory: Option<CustomerCategory>, emailId: string, profile: Profile)

  /** The fields of a `UserDTO` that the service reads; role and category may be absent. */
  datatype UserForm = UserForm(userName: string, password: string, role: Option<UserRole>,
                               customerCategory: Option<CustomerCategory>, emailId: string, profile: Profile)

  datatype LoginResponse = LoginResponse(userId: int, userName: string, role: UserRole, message: string)

  const InvalidLogin := RuntimeError("Invalid username or password")

  /** The user service over its store. Ids are handed out in increasing
      order; user names and e-mail addresses are unique columns. */
  class UserService {
    var users: map<int, User>
    var nextUserId: int

    ghost predicate Valid()
      reads this
    {
      && (forall id | id in users :: users[id].userId == id && id < nextUserId)
      && (forall i, j | i in users && j in users && i != j ::
            users[i].userName != users[j].userName && users[i].emailId != users[j].emailId)
    }

    constructor ()
      ensures Valid() && users == map[]
    {
      users := map[];
      nextUserId := 1;
    }

    predicate UserNameTaken(userName: string)
      reads this
    {
      exists id | id in users :: users[id].userName == userName
    }

    predicate EmailTaken(emailId: string)
      reads this
    {
      exists id | id in users :: users[id].emailId == emailId
    }

    /** The duplicate checks shared by both registrations: the user name
        first, then the e-mail address. */
    function DuplicateCheck(userName: string, emailId: string): (r: Option<Error>)
      reads this
      ensures r.None? <==> !UserNameTaken(userName) && !EmailTaken(emailId)
      ensures UserNameTaken(userName) ==>
                r == Some(RuntimeError("Username already exists: " + userName))
      ensures !UserNameTaken(userName) && EmailTaken(emailId) ==>
                r == Some(RuntimeError("Email already exists: " + emailId))
    {
      if UserNameTaken(userName) then Some(RuntimeError("Username already exists: " + userName))
      else if EmailTaken(emailId) then Some(RuntimeError("Email already exists: " + emailId))
      else None
    }

    /** Stores a new user under a fresh id. */
    method Insert(userName: string, password: string, role: UserRole,
                  customerCategory: Option<CustomerCategory>, emailId: string, profile: Profile)
      returns (user: User)
      requires Valid() && !UserNameTaken(userName) && !EmailTaken(emailId)
      modifies this
      ensures Valid()
      ensures user == User(old(nextUserId), userName, password, role, customerCategory, emailId, profile)
      ensures old(nextUserId) !in old(users) && users == old(users)[user.userId := user]
    {
      user := User(nextUserId, userName, password, role, customerCategory, emailId, profile);
      users := users[nextUserId := user];
      nextUserId := nextUserId + 1;
    }

    /** Registers a customer: a missing role becomes CUSTOMER and a missing
        category REGULAR; supplied values are kept. */
    method RegisterUser(form: UserForm) returns (r: Result<User>)
      requires Valid()
      modifies this
      ensures Valid()
      ensures r.Err? ==> users == old(users) &&
                         Some(r.error) == old(DuplicateCheck(form.userName, form.emailId))
      ensures r.Ok? <==> old(DuplicateCheck(form.userName, form.emailId)).None?
      ensures r.Ok? ==>
        && r.value.userId !in old(users)
        && users == old(users)[r.value.userId := r.value]
        && r.value == User(r.value.userId, form.userName, form.password, form.role.GetOr(CUSTOMER),
                           Some(form.customerCategory.GetOr(REGULAR)), form.emailId, form.profile)
    {
      var dup := DuplicateCheck(form.userName, form.emailId);
      if dup.Some? {
        return Err(dup.value);
      }
      var role := if form.role.None? then CUSTOMER else form.role.value;
      var category := if form.customerCategory.None? then REGULAR else form.customerCategory.value;
      var user := Insert(form.userName, form.password, role, Some(category), form.emailId, form.profile);
      r := Ok(user);
    }

    /** Registers an administrator: the role is always ADMIN and the
        category always absent, whatever the form says. */
    method RegisterAdmin(form: UserForm) returns (r: Result<User>)
      requires Valid()
      modifies this
      ensures Valid()
      ensures r.Err? ==> users == old(users) &&
                         Some(r.error) == old(DuplicateCheck(form.userName, form.emailId))
      ensures r.Ok? <==> old(DuplicateCheck(form.userName, form.emailId)).None?
      ensures r.Ok? ==>
        && r.value.userId !in old(users)
        && users == old(users)[r.value.userId := r.value]
        && r.value == User(r.value.userId, form.userName, form.password, ADMIN, None,
                           form.emailId, form.profile)
    {
      var dup := DuplicateCheck(form.userName, form.emailId);
      if dup.Some? {
        return Err(dup.value);
      }
      var user := Insert(form.userName, form.password, ADMIN, None, form.emailId, form.profile);
      r := Ok(user);
    }

    /** Login: one and the same error for an unknown name and for a wrong
        password; on success the stored user's id, name and role. */
    method ValidateLogin(userName: string, password: string) returns (r: Result<LoginResponse>)
      requires Valid()
      ensures r.Err? ==> r.error == InvalidLogin
      ensures r.Ok? <==> exists id :: id in users && users[id].userName == userName &&
                                      users[id].password == password
      ensures r.Ok? ==> && r.value.userId in users
                        && users[r.value.userId].userName == userName
                        && users[r.value.userId].password == password
                        && r.value == LoginResponse(r.value.userId, userName,
                                                    users[r.value.userId].role, "Login successful")
    {
      if !UserNameTaken(userName) {
        return Err(InvalidLogin);
      }
      var id :| id in users && users[id].userName == userName;
      var user := users[id];
      if user.password != password {
        return Err(InvalidLogin);
      }
      r := Ok(LoginResponse(user.userId, user.userName, user.role, "Login successful"));
    }

    /** Overwrites the name, e-mail, profile and category of a stored user;
        the password and role stay. The store refuses a name or e-mail that
        another user already has. */
    method UpdateUser(userId: int, form: UserForm) returns (r: Result<User>)
      requires Valid()
      modifies this
      ensures Valid()
      ensures userId !in old(users) ==>
                r == Err(RuntimeError("User not found with ID: " + IntToString(userId)))
      ensures r.Err? ==> users == old(users)
      ensures r.Ok? ==>
        && userId in old(users)
        && r.value == old(users[userId]).(userName := form.userName, emailId := form.emailId,
                                          profile := form.profile,
                                          customerCategory := form.customerCategory)
        && r.value.password == old(users[userId].password) && r.value.role == old(users[userId].role)
        && users == old(users)[userId := r.value]
      ensures userId in old(users) ==>
                (r.Ok? <==> forall id :: id in old(users) && id != userId ==>
                              old(users[id].userName) != form.userName &&
                              old(users[id].emailId) != form.emailId)
    {
      if userId !in users {
        return Err(RuntimeError("User not found with ID: " + IntToString(userId)));
      }
      var updated := users[userId].(userName := form.userName, emailId := form.emailId,
                                    profile := form.profile, customerCategory := form.customerCategory);
      if exists id | id in users && id != userId ::
           users[id].userName == form.userName || users[id].emailId == form.emailId {
        return Err(DataIntegrityViolation);
      }
      users := users[userId := updated];
      r := Ok(updated);
    }

    /** Removes exactly the given user. */
    method DeleteUser(userId: int) returns (r: Option<Error>)
      requires Valid()
      modifies this
      ensures Valid()
      ensures userId !in old(users) ==>
                r == Some(RuntimeError("User not found with ID: " + IntToString(userId))) &&
                users == old(users)
      ensures userId in old(users) ==> r == None && users == old(users) - {userId}
    {
      if userId !in users {
        return Some(RuntimeError("User not found with ID: " + IntToString(userId)));
      }
      users := users - {userId};
      r := None;
    }
  }
}
