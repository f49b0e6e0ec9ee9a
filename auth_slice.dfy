/**
 * The client's authentication store (`authSlice`): whether a user is signed in and that
 * user's data, changed by the `login` and `logout` reducers. The slice's own
 * `persist/REHYDRATE` case only logs; the restoring of the stored state that wraps
 * the reducer in the store is not part of this module.
 */
module AuthSlice {
  import opened Wrappers

  /** The slice's state; `userData` is absent (null) when nobody is signed in. */
  datatype AuthState<U> = AuthState(status: bool, userData: Option<U>)

  datatype Action<U> = LoginAction(payload: U) | LogoutAction | RehydrateAction

  /** `initialState`. */
  function Initial<U>(): AuthState<U> {
    AuthState(false, None)
  }

  /** The reducers as one function of the state and the action. */
  function Reduce<U>(s: AuthState<U>, a: Action<U>): AuthState<U> {
    match a
    case LoginAction(p) => AuthState(true, Some(p))
    case LogoutAction => AuthState(false, None)
    case RehydrateAction => s
  }

  /** The state after the actions, one after the other. */
  function Run<U>(s: AuthState<U>, actions: seq<Action<U>>): AuthState<U> {
    if |actions| == 0 then s else Reduce(Run(s, actions[..|actions| - 1]), actions[|actions| - 1])
  }

  /** The last login or logout among the actions. */
  function LastSession<U>(actions: seq<Action<U>>): Option<Action<U>> {
    if |actions| == 0 then None
    else if actions[|actions| - 1].RehydrateAction? then LastSession(actions[..|actions| - 1])
    else Some(actions[|actions| - 1])
  }

  /** `logout` returns to the initial state, and a second `logout` changes nothing. */
  lemma LogoutIdempotent<U>(s: AuthState<U>)
    ensures Reduce(s, LogoutAction) == Initial()
    ensures Reduce(Reduce(s, LogoutAction), LogoutAction) == Reduce(s, LogoutAction)
  {
  }

  /** A login followed by a logout leaves the initial state, whatever the payload. */
  lemma LoginThenLogout<U>(s: AuthState<U>, payload: U)
    ensures Reduce(Reduce(s, LoginAction(payload)), LogoutAction) == Initial()
  {
  }

  /** Rehydration leaves the state as it is. */
  lemma RehydrateKeeps<U>(s: AuthState<U>)
    ensures Reduce(s, RehydrateAction) == s
  {
  }

  /**
   * From the initial state, a user is signed in exactly when the last login or logout was a
   * login, and the stored data is that login's payload; otherwise the state is the initial one.
   */
  lemma {:induction false} RunFromInitial<U>(actions: seq<Action<U>>)
    ensures LastSession(actions).Some? && LastSession(actions).value.LoginAction? ==>
              Run(Initial(), actions) == AuthState(true, Some(LastSession(actions).value.payload))
    ensures !(LastSession(actions).Some? && LastSession(actions).value.LoginAction?) ==>
              Run(Initial(), actions) == Initial()
  {
    if |actions| > 0 {
      RunFromInitial(actions[..|actions| - 1]);
    }
  }

  /** The store itself: the reducers assign its two fields in place. */
  class AuthStore<U> {
    var status: bool
    var userData: Option<U>

    function State(): AuthState<U>
      reads this
    {
      AuthState(status, userData)
    }

    constructor ()
      ensures State() == Initial()
    {
      status := false;
      userData := None;
    }

    /** `login`: signed in, with the payload as the user's data. */
    method Login(payload: U)
      modifies this
      ensures State() == Reduce(old(State()), LoginAction(payload))
    {
      status := true;
      userData := Some(payload);
    }

    /** `logout`: back to the initial state. */
    method Logout()
      modifies this
      ensures State() == Reduce(old(State()), LogoutAction)
    {
      status := false;
      userData := None;
    }

    /** The `persist/REHYDRATE` case, which only logs the payload. */
    method Rehydrate()
      ensures State() == Reduce(old(State()), RehydrateAction)
    {
    }
  }
}
