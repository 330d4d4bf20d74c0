/**
 * The settings page that hosts the Discord login: the callback that stores
 * the token, leaves the page once, and toasts failures, and the reset of the
 * stored token.
 */
module DiscordLoginPage {
  import opened Wrappers

  /** A `Throwable` as the page reads it: only its message. */
  datatype Throwable = Throwable(message: Option<string>)

  /** `Result<String?>`: a token (possibly null), or the error. */
  datatype AuthResult = AuthSuccess(token: Option<string>) | AuthFailure(error: Throwable)

  /**
   * What the callback affects: the remembered `exited` flag, the stored
   * `discord_auth` string, how many times `goBack` was called, and the
   * toasts sent.
   */
  datatype PageState = PageState(exited: bool, auth: string, backs: nat, toasts: seq<string>)

  /** The page as it is first composed, over the stored token `auth`. */
  function Initial(auth: string): PageState
  {
    PageState(false, auth, 0, [])
  }

  /**
   * The login callback. Once exited it does nothing. A null result leaves
   * the page; a success stores its token when there is one and leaves; a
   * failure toasts its message when there is one and stays.
   */
  function Callback(s: PageState, info: Option<AuthResult>): PageState
  {
    if s.exited then s
    else match info
      case None => s.(backs := s.backs + 1, exited := true)
      case Some(AuthSuccess(token)) =>
        s.(auth := if token.Some? then token.value else s.auth, backs := s.backs + 1, exited := true)
      case Some(AuthFailure(error)) =>
        s.(toasts := s.toasts + if error.message.Some? then [error.message.value] else [])
  }

  /** The callback applied to each result in turn. */
  function Run(s: PageState, infos: seq<Option<AuthResult>>): PageState
    decreases |infos|
  {
    if |infos| == 0 then s else Run(Callback(s, infos[0]), infos[1..])
  }

  /** `goBack` has been called once if the page has exited and never otherwise. */
  predicate LeftOnce(s: PageState)
  {
    s.backs == if s.exited then 1 else 0
  }

  /** Once the page has exited, no further result changes anything. */
  lemma {:induction false} RunLatched(s: PageState, infos: seq<Option<AuthResult>>)
    requires s.exited
    ensures Run(s, infos) == s
    decreases |infos|
  {
    if |infos| > 0 {
      RunLatched(Callback(s, infos[0]), infos[1..]);
    }
  }

  /** Whatever the results, the page goes back at most once, and exactly when it has exited. */
  lemma {:induction false} RunLeavesOnce(s: PageState, infos: seq<Option<AuthResult>>)
    requires LeftOnce(s)
    ensures LeftOnce(Run(s, infos)) && Run(s, infos).backs <= 1
    decreases |infos|
  {
    if |infos| > 0 {
      RunLeavesOnce(Callback(s, infos[0]), infos[1..]);
    }
  }

  /**
   * The stored token is the one before, or the token of a successful
   * result; failures only add toasts, so the toasts sent before are kept in
   * order.
   */
  lemma {:induction false} RunAuth(s: PageState, infos: seq<Option<AuthResult>>)
    ensures Run(s, infos).auth == s.auth
      || exists i :: 0 <= i < |infos| && infos[i] == Some(AuthSuccess(Some(Run(s, infos).auth)))
    ensures s.toasts <= Run(s, infos).toasts
    decreases |infos|
  {
    if |infos| > 0 {
      var next := Callback(s, infos[0]);
      RunAuth(next, infos[1..]);
      var r := Run(s, infos);
      assert r == Run(next, infos[1..]);
      if r.auth != next.auth {
        var i :| 0 <= i < |infos[1..]| && infos[1..][i] == Some(AuthSuccess(Some(r.auth)));
        assert infos[i + 1] == Some(AuthSuccess(Some(r.auth)));
      } else if r.auth != s.auth {
        assert infos[0] == Some(AuthSuccess(Some(r.auth)));
      }
    }
  }

  /** The first result that is not a failure decides the stored token: a success's token if it has one. */
  lemma FirstExitDecides(auth: string, failures: seq<Throwable>, last: Option<AuthResult>, rest: seq<Option<AuthResult>>)
    requires last.None? || last.value.AuthSuccess?
    ensures var infos := Failures(failures) + [last] + rest;
      Run(Initial(auth), infos).exited
      && Run(Initial(auth), infos).auth
         == if last.Some? && last.value.token.Some? then last.value.token.value else auth
  {
    var infos := Failures(failures) + [last] + rest;
    var s := Run(Initial(auth), Failures(failures));
    RunFailures(Initial(auth), failures);
    RunConcat(Initial(auth), Failures(failures) + [last], rest);
    RunConcat(Initial(auth), Failures(failures), [last]);
    RunLatched(Callback(s, last), rest);
  }

  /** Failure results for the given errors. */
  function Failures(errors: seq<Throwable>): (r: seq<Option<AuthResult>>)
    ensures |r| == |errors|
    ensures forall i :: 0 <= i < |r| ==> r[i] == Some(AuthFailure(errors[i]))
  {
    seq(|errors|, i requires 0 <= i < |errors| => Some(AuthFailure(errors[i])))
  }

  /** Failures never exit and never touch the stored token. */
  lemma {:induction false} RunFailures(s: PageState, errors: seq<Throwable>)
    requires !s.exited
    ensures !Run(s, Failures(errors)).exited
    ensures Run(s, Failures(errors)).auth == s.auth
    decreases |errors|
  {
    if |errors| > 0 {
      assert Failures(errors)[1..] == Failures(errors[1..]);
      RunFailures(Callback(s, Failures(errors)[0]), errors[1..]);
    }
  }

  /** Running two batches of results is running the first, then the second. */
  lemma {:induction false} RunConcat(s: PageState, a: seq<Option<AuthResult>>, b: seq<Option<AuthResult>>)
    ensures Run(s, a + b) == Run(Run(s, a), b)
    decreases |a|
  {
    if |a| > 0 {
      assert (a + b)[1..] == a[1..] + b;
      RunConcat(Callback(s, a[0]), a[1..], b);
    } else {
      assert a + b == b;
    }
  }

  /** The login page: its remembered `exited` flag, and what its callback changes outside it. */
  class LoginPage {
    /** The default `discord_auth` reads after `reset`. */
    const defaultAuth: string
    var exited: bool
    var auth: string
    var backs: nat
    var toasts: seq<string>

    function State(): PageState
      reads this
    {
      PageState(exited, auth, backs, toasts)
    }

    /** The page composed over the stored token `stored`, whose property defaults to `defaultAuth`. */
    constructor (stored: string, defaultAuth: string)
      ensures State() == Initial(stored) && this.defaultAuth == defaultAuth
    {
      this.defaultAuth := defaultAuth;
      exited := false;
      auth := stored;
      backs := 0;
      toasts := [];
    }

    /** The callback given to the login view. */
    method OnAuthInfo(info: Option<AuthResult>)
      modifies this
      ensures State() == Callback(old(State()), info)
    {
      if exited {
        return;
      }
      if info.None? {
        backs := backs + 1;
        exited := true;
        return;
      }
      match info.value
      case AuthSuccess(token) =>
        if token.Some? {
          auth := token.value;
        }
        backs := backs + 1;
        exited := true;
      case AuthFailure(error) =>
        if error.message.Some? {
          toasts := toasts + [error.message.value];
        }
    }

    /** `resetKeys`: the stored token returns to its default; nothing else changes. */
    method ResetKeys()
      modifies this
      ensures State() == old(State()).(auth := defaultAuth)
    {
      auth := defaultAuth;
    }
  }
}
