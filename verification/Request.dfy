/** The authentication state a request carries through the middlewares (request/context.go). */
module Request {
  import opened Wrappers
  import opened Domain

  datatype Admin = Admin(id: int, token: string)

  /** The state of a Context as a value. */
  datatype Ctx = Ctx(app: Option<AppAuthData>, user: Option<UserAuthData>, admin: Option<Admin>) {
    predicate SkipAppAuth() { user.Some? && user.value.skipAppAuth }
  }

  const ANONYMOUS := Ctx(None, None, None)

  class Context {
    var authenticated: bool
    var authData: Option<AppAuthData>
    var userAuthenticated: bool
    var userAuthData: Option<UserAuthData>
    var adminAuthenticated: bool
    var adminId: int
    var adminToken: string

    /** The flags and the data they guard are set together. */
    ghost predicate Valid()
      reads this
    {
      && (authenticated <==> authData.Some?)
      && (userAuthenticated <==> userAuthData.Some?)
    }

    ghost function View(): Ctx
      reads this
    {
      Ctx(authData, userAuthData, if adminAuthenticated then Some(Admin(adminId, adminToken)) else None)
    }

    constructor ()
      ensures Valid() && View() == ANONYMOUS
    {
      authenticated, authData := false, None;
      userAuthenticated, userAuthData := false, None;
      adminAuthenticated, adminId, adminToken := false, 0, "";
    }

    method Authenticate(data: AppAuthData)
      requires Valid()
      modifies this
      ensures Valid() && View() == old(View()).(app := Some(data))
    {
      authenticated := true;
      authData := Some(data);
    }

    /** None is ErrNotAuthenticated. */
    method GetAuthData() returns (data: Option<AppAuthData>)
      requires Valid()
      ensures data == View().app
    {
      if !authenticated {
        return None;
      }
      data := Some(authData.value);
    }

    method AuthenticateUser(data: UserAuthData)
      requires Valid()
      modifies this
      ensures Valid() && View() == old(View()).(user := Some(data))
    {
      userAuthenticated := true;
      userAuthData := Some(data);
    }

    method SkipAppAuth() returns (skip: bool)
      ensures skip == View().SkipAppAuth()
    {
      skip := userAuthData.Some? && userAuthData.value.skipAppAuth;
    }

    method AuthenticateAdmin(id: int, token: string)
      requires Valid()
      modifies this
      ensures Valid() && View() == old(View()).(admin := Some(Admin(id, token)))
    {
      adminAuthenticated := true;
      adminId := id;
      adminToken := token;
    }
  }
}
