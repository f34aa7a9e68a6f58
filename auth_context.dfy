/** The authentication context (src/contexts/AuthContext.tsx): the signed-in
    user, the start-up token check, sign-in, registration and sign-out. The
    token itself lives in the `auth_token` storage entry, modelled by
    `Api.TokenStore`. */
module AuthContext {
  import opened Wrappers
  import opened Types
  import opened Api

  const InvalidResponseMessage := "Invalid response from server"
  const OutsideProviderMessage := "useAuth must be used within an AuthProvider"

  /** Why a sign-in or a registration was rejected: the request failed, or
      the server's answer lacked a token or a user. */
  datatype AuthFailure = Rejected(error: ApiError) | InvalidResponse

  /** The user an authentication answer signs in, if it carries both a
      non-empty token and a user. */
  function SignedInUser(response: AuthResponse): (r: Option<User>)
    ensures r.Some? <==> Truthy(response.token) && response.user.Some?
    ensures r.Some? ==> r == response.user
  {
    if Truthy(response.token) && response.user.Some? then response.user else None
  }

  class AuthProvider {
    var user: Option<User>
    var isLoading: bool
    /** The browser storage the token is kept in. */
    const store: TokenStore
    var calls: seq<Call>

    constructor (store: TokenStore)
      ensures this.store == store
      ensures user == None && isLoading && calls == []
    {
      this.store := store;
      user := None;
      isLoading := true;
      calls := [];
    }

    /** `isAuthenticated: !!user`. */
    predicate IsAuthenticated()
      reads this
    {
      user.Some?
    }

    /** The start-up `checkAuth`: with no usable token nothing is sent;
        otherwise the token is verified, and an answer without a user or a
        failed request removes it. Loading has finished in every case. */
    method CheckAuth(outcome: Result<AuthResponse, ApiError>)
      modifies this`user, this`isLoading, this`calls, store
      ensures !isLoading
      ensures !Truthy(old(store.token)) ==>
                calls == old(calls) && user == old(user) && store.token == old(store.token)
      ensures Truthy(old(store.token)) ==> calls == old(calls) + [VerifyToken]
      ensures Truthy(old(store.token)) && outcome.Success? && outcome.value.user.Some? ==>
                user == outcome.value.user && store.token == old(store.token)
      ensures Truthy(old(store.token)) && !(outcome.Success? && outcome.value.user.Some?) ==>
                user == old(user) && store.token == None
      ensures IsAuthenticated() ==> old(IsAuthenticated()) || Truthy(old(store.token))
    {
      if !Truthy(store.token) {
        isLoading := false;
        return;
      }
      calls := calls + [VerifyToken];
      var r := store.Intercept(outcome);
      if r.Success? && r.value.user.Some? {
        user := r.value.user;
      } else {
        store.Logout();
      }
      isLoading := false;
    }

    /** Takes the answer of a sign-in or registration: a complete answer signs
        its user in (its token is stored again), anything else is rejected. */
    method Accept(response: AuthResponse) returns (r: Result<(), AuthFailure>)
      requires store.token == Some(StoredText(response.token))
      modifies this`user, store
      ensures store.token == old(store.token)
      ensures r.Success? <==> SignedInUser(response).Some?
      ensures r.Success? ==> user == response.user
      ensures r.Failure? ==> r.error == InvalidResponse && user == old(user)
    {
      if Truthy(response.token) && response.user.Some? {
        store.token := Some(response.token.value);
        user := response.user;
        r := Success(());
      } else {
        r := Failure(InvalidResponse);
      }
    }

    /** `login`: the request goes through `authApi.login`, which stores the
        answer's token before this checks it; a successful sign-in leaves the
        user authenticated and every later request authorised with the new
        token. */
    method Login(outcome: Result<AuthResponse, ApiError>) returns (r: Result<(), AuthFailure>)
      modifies this`user, this`calls, store
      ensures calls == old(calls) + [Api.Login]
      ensures outcome.Failure? ==>
                r == Failure(Rejected(outcome.error)) && user == old(user)
                && store.token == (if Unauthorized(outcome) then None else old(store.token))
      ensures outcome.Success? ==> store.token == Some(StoredText(outcome.value.token))
      ensures outcome.Success? ==> (r.Success? <==> SignedInUser(outcome.value).Some?)
      ensures outcome.Success? && r.Failure? ==> r.error == InvalidResponse && user == old(user)
      ensures r.Success? ==>
                user == outcome.value.user && IsAuthenticated()
                && store.Authorization() == Some("Bearer " + outcome.value.token.value)
    {
      calls := calls + [Api.Login];
      var answer := store.Login(outcome);
      if answer.Failure? {
        return Failure(Rejected(answer.error));
      }
      r := Accept(answer.value);
    }

    /** `register`: the same as `login`, through `authApi.register`. */
    method Register(outcome: Result<AuthResponse, ApiError>) returns (r: Result<(), AuthFailure>)
      modifies this`user, this`calls, store
      ensures calls == old(calls) + [Api.Register]
      ensures outcome.Failure? ==>
                r == Failure(Rejected(outcome.error)) && user == old(user)
                && store.token == (if Unauthorized(outcome) then None else old(store.token))
      ensures outcome.Success? ==> store.token == Some(StoredText(outcome.value.token))
      ensures outcome.Success? ==> (r.Success? <==> SignedInUser(outcome.value).Some?)
      ensures outcome.Success? && r.Failure? ==> r.error == InvalidResponse && user == old(user)
      ensures r.Success? ==>
                user == outcome.value.user && IsAuthenticated()
                && store.Authorization() == Some("Bearer " + outcome.value.token.value)
    {
      calls := calls + [Api.Register];
      var answer := store.Register(outcome);
      if answer.Failure? {
        return Failure(Rejected(answer.error));
      }
      r := Accept(answer.value);
    }

    /** `logout`: the token and the user are gone, so later requests carry no
        authorisation; nothing is sent. */
    method Logout()
      modifies this`user, store
      ensures user == None && store.token == None
      ensures !IsAuthenticated() && store.Authorization() == None
    {
      store.Logout();
      user := None;
    }
  }

  /** `useAuth`: the provider's value, or an error outside a provider. */
  function UseAuth(context: Option<AuthProvider>): (r: Result<AuthProvider, string>)
    ensures r.Success? <==> context.Some?
    ensures r.Success? ==> r.value == context.value
    ensures r.Failure? ==> r.error == OutsideProviderMessage
  {
    if context.Some? then Success(context.value) else Failure(OutsideProviderMessage)
  }
}
