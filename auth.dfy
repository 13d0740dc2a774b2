/** The Connect interceptor that authenticates every call with a bearer token, and the helpers
    the handlers use to read the caller from the request context. */
module Auth {
  import opened Wrappers
  import opened GoInt
  import opened Text
  import opened Rpc

  /** The fields of the token's user (`claims.User`) that the core reads. */
  datatype UserInfo = UserInfo(userId: int, isAdmin: bool)

  /** `jwtCheck.ParseToken`: the user of a valid token, `None` where it returns an error. */
  type TokenParser = string -> Option<UserInfo>

  /** The three keys of type `authContextKey`. Only this package can build them. */
  datatype Key = UserIdKey | IsAdminKey | UserInfoKey

  /** A value stored in a context, with its dynamic type, which the type assertions test. */
  datatype Value = Int32Value(i: Int32) | BoolValue(b: bool) | UserInfoValue(u: UserInfo) | OtherValue

  /** The entries a request context holds under the package's keys. */
  type AuthContext = map<Key, Value>

  const BearerPrefix: string := "Bearer "

  function Unauthenticated(text: string): RpcError {
    RpcError(CodeUnauthenticated, Message(text))
  }

  /** Steps 1 and 2 of the interceptor: the header must be present, start with exactly
      "Bearer ", and what follows the prefix must be a valid token. */
  function Authenticate(header: string, parse: TokenParser): (r: Result<UserInfo, RpcError>)
    ensures r.Success? <==> header != "" && HasPrefix(header, BearerPrefix) && parse(header[|BearerPrefix|..]).Some?
    ensures r.Success? ==> r.value == parse(header[|BearerPrefix|..]).value
    ensures header == "" ==> r == Failure(Unauthenticated("missing authorization header"))
    ensures header != "" && !HasPrefix(header, BearerPrefix) ==> r == Failure(Unauthenticated("invalid authorization format"))
    ensures header != "" && HasPrefix(header, BearerPrefix) && parse(header[|BearerPrefix|..]).None? ==>
              r == Failure(Unauthenticated("invalid token"))
  {
    if header == "" then Failure(Unauthenticated("missing authorization header"))
    else
      var token := TrimPrefix(header, BearerPrefix);
      if token == header then Failure(Unauthenticated("invalid authorization format"))
      else
        match parse(token)
        case None => Failure(Unauthenticated("invalid token"))
        case Some(u) => Success(u)
  }

  /** Step 3: the context the handler runs with. It keeps whatever else the incoming context
      held, and the handler reads back from it the token's user: its id truncated to 32 bits,
      its admin flag and the whole record. */
  function WithUser(ctx: AuthContext, u: UserInfo): (r: AuthContext)
    ensures r.Keys == ctx.Keys + {UserIdKey, IsAdminKey, UserInfoKey}
    ensures GetUserFromContext(r) == (ToInt32(u.userId), u.isAdmin)
    ensures GetUserInfoFromContext(r) == Some(u)
  {
    ctx[UserIdKey := Int32Value(ToInt32(u.userId))][IsAdminKey := BoolValue(u.isAdmin)][UserInfoKey := UserInfoValue(u)]
  }

  /** The interceptor wrapped around a handler `next`: a refused call never reaches it and is
      answered Unauthenticated; an accepted one is the handler's answer in the context that
      carries the token's user. */
  function Intercept<R>(ctx: AuthContext, header: string, parse: TokenParser, next: AuthContext -> Result<R, RpcError>): (r: Result<R, RpcError>)
    ensures Authenticate(header, parse).Failure? ==>
              r.Failure? && r.error.code == CodeUnauthenticated && r == Failure(Authenticate(header, parse).error)
    ensures Authenticate(header, parse).Success? ==>
              r == next(WithUser(ctx, parse(header[|BearerPrefix|..]).value))
  {
    match Authenticate(header, parse)
    case Failure(e) => Failure(e)
    case Success(u) => next(WithUser(ctx, u))
  }

  /** `GetUserFromContext`: the caller's id and admin flag, 0 and false where the context lacks them. */
  function GetUserFromContext(ctx: AuthContext): (r: (Int32, bool))
    ensures r.0 != 0 ==> UserIdKey in ctx && ctx[UserIdKey] == Int32Value(r.0)
    ensures (UserIdKey in ctx && ctx[UserIdKey].Int32Value?) ==> r.0 == ctx[UserIdKey].i
    ensures r.1 <==> IsAdminKey in ctx && ctx[IsAdminKey] == BoolValue(true)
  {
    var userId := if UserIdKey in ctx && ctx[UserIdKey].Int32Value? then ctx[UserIdKey].i else 0;
    var isAdmin := if IsAdminKey in ctx && ctx[IsAdminKey].BoolValue? then ctx[IsAdminKey].b else false;
    (userId, isAdmin)
  }

  /** `GetUserInfoFromContext`: the token's user, `None` where the context lacks it. */
  function GetUserInfoFromContext(ctx: AuthContext): (r: Option<UserInfo>)
    ensures r.Some? <==> UserInfoKey in ctx && ctx[UserInfoKey].UserInfoValue?
    ensures r.Some? ==> ctx[UserInfoKey] == UserInfoValue(r.value)
  {
    if UserInfoKey in ctx && ctx[UserInfoKey].UserInfoValue? then Some(ctx[UserInfoKey].u) else None
  }

  /** `MustGetUserFromContext`: as `GetUserFromContext`, but a user id of 0 panics (`None`). */
  function MustGetUserFromContext(ctx: AuthContext): (r: Option<(Int32, bool)>)
    ensures r.None? <==> GetUserFromContext(ctx).0 == 0
    ensures r.Some? ==> r.value == GetUserFromContext(ctx) && r.value.0 != 0
  {
    var (userId, isAdmin) := GetUserFromContext(ctx);
    if userId == 0 then None else Some((userId, isAdmin))
  }

  /** A refused call is answered with Unauthenticated, whatever the handler would have done. */
  lemma RefusedNeverReachesHandler<R>(ctx: AuthContext, header: string, parse: TokenParser,
                                      next1: AuthContext -> Result<R, RpcError>, next2: AuthContext -> Result<R, RpcError>)
    requires Authenticate(header, parse).Failure?
    ensures Intercept(ctx, header, parse, next1) == Intercept(ctx, header, parse, next2)
    ensures Intercept(ctx, header, parse, next1).Failure?
    ensures Intercept(ctx, header, parse, next1).error.code == CodeUnauthenticated
  {
  }

  /** An accepted call runs the handler once, in a context from which the handler reads back
      the token's user: its id truncated to 32 bits, its admin flag and the whole record. */
  lemma AcceptedCarriesTokenUser<R>(ctx: AuthContext, header: string, parse: TokenParser,
                                    next: AuthContext -> Result<R, RpcError>)
    requires Authenticate(header, parse).Success?
    ensures var u := parse(header[|BearerPrefix|..]).value;
            && Intercept(ctx, header, parse, next) == next(WithUser(ctx, u))
            && GetUserFromContext(WithUser(ctx, u)) == (ToInt32(u.userId), u.isAdmin)
            && GetUserInfoFromContext(WithUser(ctx, u)) == Some(u)
  {
    var u := parse(header[|BearerPrefix|..]).value;
    var c := WithUser(ctx, u);
    assert c[UserIdKey] == Int32Value(ToInt32(u.userId));
    assert c[IsAdminKey] == BoolValue(u.isAdmin);
  }

  /** After the interceptor every one of the package's keys is set, and what the incoming
      context held under them is replaced: the handler reads the same caller as it would from
      a context that held nothing. */
  lemma WithUserOverrides(ctx: AuthContext, u: UserInfo)
    ensures WithUser(ctx, u).Keys == {UserIdKey, IsAdminKey, UserInfoKey}
    ensures GetUserFromContext(WithUser(ctx, u)) == GetUserFromContext(WithUser(map[], u))
  {
    var c := WithUser(ctx, u);
    forall k | k in c.Keys ensures k in {UserIdKey, IsAdminKey, UserInfoKey} {
      match k
      case UserIdKey =>
      case IsAdminKey =>
      case UserInfoKey =>
    }
    assert UserIdKey in c && IsAdminKey in c && UserInfoKey in c;
  }

  /** After the interceptor, `MustGetUserFromContext` panics exactly for a token whose user id
      is 0 modulo 2^32, because the id is stored as `int32`. */
  lemma MustGetAfterIntercept(ctx: AuthContext, u: UserInfo)
    ensures MustGetUserFromContext(WithUser(ctx, u)).None? <==> u.userId % 0x1_0000_0000 == 0
    ensures 0 < u.userId < 0x8000_0000 ==> MustGetUserFromContext(WithUser(ctx, u)) == Some((u.userId as Int32, u.isAdmin))
  {
    AcceptedCarriesTokenUser(ctx, "Bearer x", (s: string) => Some(u), (c: AuthContext) => Success(0));
    var r := ToInt32(u.userId);
    assert (r as int - u.userId) % 0x1_0000_0000 == 0;
  }

  /** Header examples: the prefix is case-sensitive, and only one "Bearer " is removed. */
  lemma AuthenticateExamples(parse: TokenParser)
    ensures Authenticate("", parse) == Failure(Unauthenticated("missing authorization header"))
    ensures Authenticate("bearer abc", parse) == Failure(Unauthenticated("invalid authorization format"))
    ensures Authenticate("Bearer", parse) == Failure(Unauthenticated("invalid authorization format"))
    ensures parse("").None? ==> Authenticate("Bearer ", parse) == Failure(Unauthenticated("invalid token"))
    ensures Authenticate("Bearer Bearer abc", parse).Success? <==> parse("Bearer abc").Some?
  {
    assert !HasPrefix("bearer abc", BearerPrefix) by {
      assert "bearer abc"[0] != BearerPrefix[0];
    }
    assert "Bearer "[|BearerPrefix|..] == "";
    assert "Bearer Bearer abc"[|BearerPrefix|..] == "Bearer abc";
    assert HasPrefix("Bearer Bearer abc", BearerPrefix) by {
      assert "Bearer Bearer abc"[..|BearerPrefix|] == BearerPrefix;
    }
  }
}
