/** Refresh-token rotation (section 10.4 of RFC 6749): the token store, the session endpoints that use
    it, and what holds of every run of them, concurrent refreshes included. */
module RefreshTokens {
  import opened Wrappers

  type Id = nat
  type Time = nat

  /** A row of auth.refresh_tokens; a token's id is its position, fresh for every token minted. */
  datatype Token = Token(user: Id, expires: Time, revoked: bool)

  datatype AuthError = InvalidCredentials | InvalidToken | EmailTaken

  // ---------- The store as functions ----------

  function Revoked(t: Token): Token {
    t.(revoked := true)
  }

  predicate IsActive(tokens: seq<Token>, id: Id, now: Time) {
    id < |tokens| && !tokens[id].revoked && tokens[id].expires > now
  }

  function RevokedAll(tokens: seq<Token>, user: Id): seq<Token> {
    seq(|tokens|, i requires 0 <= i < |tokens| => if tokens[i].user == user then Revoked(tokens[i]) else tokens[i])
  }

  /** How many of a user's tokens could still be presented, expiry aside. */
  function Unrevoked(tokens: seq<Token>, user: Id): nat {
    if tokens == [] then 0
    else
      var n := |tokens| - 1;
      Unrevoked(tokens[..n], user) + (if tokens[n].user == user && !tokens[n].revoked then 1 else 0)
  }

  /** Every token of the user is revoked, and nothing else differs. */
  predicate AllRevokedOf(before: seq<Token>, after: seq<Token>, user: Id) {
    && |after| == |before|
    && forall i :: 0 <= i < |before| ==>
         after[i] == Token(before[i].user, before[i].expires, before[i].revoked || before[i].user == user)
  }

  // ---------- Operations ----------

  /** `users` maps each account to its password; `tokens` are all refresh tokens ever issued. */
  datatype State = State(users: map<Id, string>, tokens: seq<Token>)

  /** A decoded refresh token names its own id and its subject. */
  datatype Claims = Claims(jti: Id, sub: Id)

  /** Only tokens this server minted, and that have not expired, pass the signature and expiry checks. */
  predicate Decodes(tokens: seq<Token>, c: Claims, now: Time) {
    c.jti < |tokens| && tokens[c.jti].user == c.sub && tokens[c.jti].expires > now
  }

  datatype Event =
    | SignUp(user: Id, password: string, expires: Time)
    | LogIn(user: Id, password: string, expires: Time)
    | Refresh(claims: Claims, now: Time, expires: Time)
    | LogOut(user: Id)
    | ChangePassword(user: Id, password: string)

  function Issued(s: State, user: Id, expires: Time): State {
    s.(tokens := s.tokens + [Token(user, expires, false)])
  }

  predicate PasswordIs(s: State, user: Id, password: string) {
    user in s.users && s.users[user] == password
  }

  predicate Accepted(s: State, c: Claims, now: Time) {
    Decodes(s.tokens, c, now) && IsActive(s.tokens, c.jti, now) && c.sub in s.users
  }

  function RevokedOne(tokens: seq<Token>, id: Id): seq<Token> {
    if id < |tokens| then tokens[id := Revoked(tokens[id])] else tokens
  }

  /** A login and a refresh make their tests on one state, and write to a later one: the tests and the
      writes are separate transactions. */
  function Step(tested: State, s: State, e: Event): State {
    match e
    case SignUp(user, password, expires) =>
      if user in s.users then s else Issued(s.(users := s.users[user := password]), user, expires)
    case LogIn(user, password, expires) => if PasswordIs(tested, user, password) then Issued(s, user, expires) else s
    case Refresh(c, now, expires) =>
      if Accepted(tested, c, now) then Issued(s.(tokens := RevokedOne(s.tokens, c.jti)), c.sub, expires) else s
    case LogOut(user) => s.(tokens := RevokedAll(s.tokens, user))
    case ChangePassword(user, password) =>
      State(if user in s.users then s.users[user := password] else s.users, RevokedAll(s.tokens, user))
  }

  // ---------- The store and the endpoints ----------

  class AuthStore {
    var users: map<Id, string>
    var tokens: seq<Token>

    constructor ()
      ensures Current() == State(map[], [])
    {
      users, tokens := map[], [];
    }

    function Current(): State
      reads this
    {
      State(users, tokens)
    }

    method StoreRefreshToken(user: Id, expires: Time) returns (id: Id)
      modifies `tokens
      ensures id == |old(tokens)| && tokens == old(tokens) + [Token(user, expires, false)]
    {
      id := |tokens|;
      tokens := tokens + [Token(user, expires, false)];
    }

    method IsRefreshTokenActive(id: Id, now: Time) returns (active: bool)
      ensures active <==> IsActive(tokens, id, now)
    {
      active := id < |tokens| && !tokens[id].revoked && tokens[id].expires > now;
    }

    /** Revoking a revoked token changes nothing. */
    method RevokeRefreshToken(id: Id)
      modifies `tokens
      ensures tokens == RevokedOne(old(tokens), id)
    {
      if id < |tokens| && !tokens[id].revoked {
        tokens := tokens[id := Revoked(tokens[id])];
      }
    }

    method RevokeAllRefreshTokens(user: Id)
      modifies `tokens
      ensures tokens == RevokedAll(old(tokens), user)
      ensures AllRevokedOf(old(tokens), tokens, user)
    {
      ghost var was := tokens;
      for i := 0 to |tokens|
        invariant |tokens| == |was|
        invariant forall k :: 0 <= k < i ==> tokens[k] == RevokedAll(was, user)[k]
        invariant forall k :: i <= k < |was| ==> tokens[k] == was[k]
      {
        if tokens[i].user == user && !tokens[i].revoked {
          tokens := tokens[i := Revoked(tokens[i])];
        }
      }
    }

    method NativeSignUp(user: Id, password: string, expires: Time) returns (r: Result<Id, AuthError>)
      modifies this
      ensures Current() == Step(old(Current()), old(Current()), SignUp(user, password, expires))
      ensures r.Success? <==> user !in old(users)
      ensures r.Success? ==>
                && users == old(users)[user := password] && r.value == |old(tokens)|
                && tokens == old(tokens) + [Token(user, expires, false)]
      ensures r.Failure? ==> r.error == EmailTaken && Current() == old(Current())
    {
      if user in users {
        return Failure(EmailTaken);
      }
      users := users[user := password];
      var id := StoreRefreshToken(user, expires);
      return Success(id);
    }

    method NativeLogin(user: Id, password: string, expires: Time) returns (r: Result<Id, AuthError>)
      modifies this
      ensures Current() == Step(old(Current()), old(Current()), LogIn(user, password, expires))
      ensures r.Success? <==> user in old(users) && old(users)[user] == password
      ensures r.Success? ==>
                users == old(users) && r.value == |old(tokens)| && tokens == old(tokens) + [Token(user, expires, false)]
      ensures r.Failure? ==> r.error == InvalidCredentials && Current() == old(Current())
    {
      if user !in users || users[user] != password {
        return Failure(InvalidCredentials);
      }
      var id := StoreRefreshToken(user, expires);
      return Success(id);
    }

    method NativeRefresh(c: Claims, now: Time, expires: Time) returns (r: Result<Id, AuthError>)
      modifies this
      ensures Current() == Step(old(Current()), old(Current()), Refresh(c, now, expires))
      ensures r.Success? <==>
                && c.jti < |old(tokens)| && c.sub in old(users)
                && var t := old(tokens)[c.jti]; t.user == c.sub && !t.revoked && t.expires > now
      ensures r.Success? ==>
                && users == old(users) && r.value == |old(tokens)|
                && tokens == old(tokens)[c.jti := Token(c.sub, old(tokens)[c.jti].expires, true)]
                             + [Token(c.sub, expires, false)]
      ensures r.Failure? ==> r.error == InvalidToken && Current() == old(Current())
    {
      if !Decodes(tokens, c, now) {
        return Failure(InvalidToken);
      }
      var active := IsRefreshTokenActive(c.jti, now);
      if !active {
        return Failure(InvalidToken);
      }
      if c.sub !in users {
        return Failure(InvalidToken);
      }
      RevokeRefreshToken(c.jti);
      var id := StoreRefreshToken(c.sub, expires);
      return Success(id);
    }

    method SignOut(user: Id)
      modifies this
      ensures Current() == Step(old(Current()), old(Current()), LogOut(user))
      ensures users == old(users) && AllRevokedOf(old(tokens), tokens, user)
    {
      RevokeAllRefreshTokens(user);
    }

    /** UPDATE auth.users SET encrypted_password WHERE id = user */
    method SetPassword(user: Id, password: string)
      modifies `users
      ensures users == if user in old(users) then old(users)[user := password] else old(users)
    {
      if user in users {
        users := users[user := password];
      }
    }

    method UpdatePassword(user: Id, password: string)
      modifies this
      ensures Current() == Step(old(Current()), old(Current()), ChangePassword(user, password))
      ensures users == (if user in old(users) then old(users)[user := password] else old(users))
      ensures AllRevokedOf(old(tokens), tokens, user)
    {
      SetPassword(user, password);
      RevokeAllRefreshTokens(user);
    }
  }

  // ---------- One event ----------

  /** Tokens are never deleted, reassigned or un-revoked. */
  ghost predicate Ages(a: seq<Token>, b: seq<Token>) {
    && |a| <= |b|
    && forall i :: 0 <= i < |a| ==> b[i] == a[i] || b[i] == Revoked(a[i])
  }

  lemma StepAges(tested: State, s: State, e: Event)
    ensures Ages(s.tokens, Step(tested, s, e).tokens)
  {
  }

  lemma UnrevokedMore(tokens: seq<Token>, t: Token, user: Id)
    ensures Unrevoked(tokens + [t], user)
            == Unrevoked(tokens, user) + (if t.user == user && !t.revoked then 1 else 0)
  {
    assert (tokens + [t])[..|tokens|] == tokens;
  }

  lemma {:induction false} UnrevokedLess(tokens: seq<Token>, id: Id, user: Id)
    requires id < |tokens|
    ensures Unrevoked(RevokedOne(tokens, id), user)
            == Unrevoked(tokens, user) - (if tokens[id].user == user && !tokens[id].revoked then 1 else 0)
  {
    var n := |tokens| - 1;
    var after := tokens[id := Revoked(tokens[id])];
    if id < n {
      UnrevokedLess(tokens[..n], id, user);
      assert after[..n] == tokens[..n][id := Revoked(tokens[id])];
    } else {
      assert after[..n] == tokens[..n];
    }
  }

  lemma {:induction false} UnrevokedNone(tokens: seq<Token>, user: Id, other: Id)
    ensures Unrevoked(RevokedAll(tokens, user), other) == if other == user then 0 else Unrevoked(tokens, other)
  {
    if tokens != [] {
      var n := |tokens| - 1;
      UnrevokedNone(tokens[..n], user, other);
      assert RevokedAll(tokens, user)[..n] == RevokedAll(tokens[..n], user);
    }
  }

  /** The event creates the user's account, or logs the user in. */
  predicate SignsIn(tested: State, s: State, e: Event, user: Id) {
    || (e.SignUp? && e.user == user && user !in s.users)
    || (e.LogIn? && e.user == user && PasswordIs(tested, user, e.password))
  }

  /** A refresh leaves every user's number of unrevoked tokens as it was, but for one more when the token
      was revoked since the test; logging out or changing the password brings the user's to none; signing in
      adds one; other users are untouched. */
  lemma UnrevokedAfter(tested: State, s: State, e: Event, user: Id)
    requires Ages(tested.tokens, s.tokens)
    ensures e.Refresh? ==>
              Unrevoked(Step(tested, s, e).tokens, user)
              == Unrevoked(s.tokens, user)
                 + (if Accepted(tested, e.claims, e.now) && e.claims.sub == user && s.tokens[e.claims.jti].revoked
                    then 1 else 0)
    ensures e.LogOut? || e.ChangePassword? ==>
              Unrevoked(Step(tested, s, e).tokens, user) == if user == e.user then 0 else Unrevoked(s.tokens, user)
    ensures e.LogIn? || e.SignUp? ==>
              Unrevoked(Step(tested, s, e).tokens, user)
              == Unrevoked(s.tokens, user) + (if SignsIn(tested, s, e, user) then 1 else 0)
  {
    match e {
      case SignUp(u, _, expires) => UnrevokedMore(s.tokens, Token(u, expires, false), user);
      case LogIn(u, _, expires) => UnrevokedMore(s.tokens, Token(u, expires, false), user);
      case Refresh(c, now, expires) =>
        if Accepted(tested, c, now) {
          UnrevokedLess(s.tokens, c.jti, user);
          UnrevokedMore(RevokedOne(s.tokens, c.jti), Token(c.sub, expires, false), user);
        }
      case LogOut(u) => UnrevokedNone(s.tokens, u, user);
      case ChangePassword(u, _) => UnrevokedNone(s.tokens, u, user);
    }
  }

  // ---------- Runs ----------

  /** Event `n` makes its tests on the state of time `tests[n]`, which may be long past. */
  ghost predicate IsRun(states: seq<State>, events: seq<Event>, tests: seq<nat>) {
    && |states| == |events| + 1 && |tests| == |events| && states[0] == State(map[], [])
    && forall n :: 0 <= n < |events| ==> tests[n] <= n && states[n + 1] == Step(states[tests[n]], states[n], events[n])
  }

  lemma {:induction false} RunAges(states: seq<State>, events: seq<Event>, tests: seq<nat>, i: nat, j: nat)
    requires IsRun(states, events, tests) && i <= j < |states|
    ensures Ages(states[i].tokens, states[j].tokens)
    decreases j - i
  {
    if i < j {
      RunAges(states, events, tests, i, j - 1);
      StepAges(states[tests[j - 1]], states[j - 1], events[j - 1]);
    }
  }

  /** A revoked token is never active again, whatever happens and whenever it is asked about. */
  lemma RevokedForGood(states: seq<State>, events: seq<Event>, tests: seq<nat>, i: nat, j: nat, id: Id, now: Time)
    requires IsRun(states, events, tests) && i <= j < |states|
    requires id < |states[i].tokens| && states[i].tokens[id].revoked
    ensures !IsActive(states[j].tokens, id, now)
  {
    RunAges(states, events, tests, i, j);
  }

  // ---------- Rotation ----------

  ghost predicate Accepts(states: seq<State>, events: seq<Event>, tests: seq<nat>, n: nat, id: Id)
    requires |states| == |events| + 1 == |tests| + 1 && n < |events|
  {
    && events[n].Refresh? && events[n].claims.jti == id
    && tests[n] < |states| && Accepted(states[tests[n]], events[n].claims, events[n].now)
  }

  /** Refresh `m` tests the token before the earlier refresh `n` revokes it. */
  predicate Overlaps(tests: seq<nat>, n: nat, m: nat)
    requires m < |tests|
  {
    n < m && tests[m] <= n
  }

  /** A token accepted twice was tested the second time before the first refresh had revoked it. */
  lemma AcceptedTwiceOverlaps(states: seq<State>, events: seq<Event>, tests: seq<nat>, n: nat, m: nat, id: Id)
    requires IsRun(states, events, tests) && n < m < |events|
    requires Accepts(states, events, tests, n, id) && Accepts(states, events, tests, m, id)
    ensures Overlaps(tests, n, m)
  {
    RunAges(states, events, tests, tests[n], n);
    assert states[n + 1].tokens[id].revoked;
    if n < tests[m] {
      RevokedForGood(states, events, tests, n + 1, tests[m], id, events[m].now);
    }
  }

  predicate SignsOut(e: Event, user: Id) {
    (e.LogOut? || e.ChangePassword?) && e.user == user
  }

  /** Some logout or password change of the token's owner commits before state `t`. */
  ghost predicate SignedOutBefore(states: seq<State>, events: seq<Event>, t: nat, id: Id)
    requires |states| == |events| + 1 && t < |states|
  {
    exists k :: 0 <= k < t && id < |states[k].tokens| && SignsOut(events[k], states[k].tokens[id].user)
  }

  ghost predicate AcceptedBefore(states: seq<State>, events: seq<Event>, tests: seq<nat>, t: nat, id: Id)
    requires |states| == |events| + 1 == |tests| + 1 && t < |states|
  {
    exists k :: 0 <= k < t && Accepts(states, events, tests, k, id)
  }

  lemma AcceptedExists(states: seq<State>, events: seq<Event>, tests: seq<nat>, k: nat, id: Id)
    requires IsRun(states, events, tests) && k < |events| && Accepts(states, events, tests, k, id)
    ensures id < |states[k].tokens| && id < |states[k + 1].tokens| && states[k + 1].tokens[id].revoked
  {
    RunAges(states, events, tests, tests[k], k);
  }

  /** The history of a token: it is revoked exactly when a refresh of it was accepted or its owner signed out. */
  lemma {:induction false} RevokedIs(states: seq<State>, events: seq<Event>, tests: seq<nat>, j: nat, id: Id)
    requires IsRun(states, events, tests) && j < |states| && id < |states[j].tokens|
    ensures states[j].tokens[id].revoked
            <==> AcceptedBefore(states, events, tests, j, id) || SignedOutBefore(states, events, j, id)
  {
    if j > 0 {
      var k := j - 1;
      RevokedNext(states, events, tests, k, id);
      if id < |states[k].tokens| {
        RevokedIs(states, events, tests, k, id);
      } else {
        NothingBefore(states, events, tests, k, id);
      }
    }
  }

  lemma RevokedNext(states: seq<State>, events: seq<Event>, tests: seq<nat>, k: nat, id: Id)
    requires IsRun(states, events, tests) && k < |events| && id < |states[k + 1].tokens|
    ensures states[k + 1].tokens[id].revoked
            <==> id < |states[k].tokens| && (states[k].tokens[id].revoked || Accepts(states, events, tests, k, id)
                                             || SignsOut(events[k], states[k].tokens[id].user))
  {
    if Accepts(states, events, tests, k, id) {
      AcceptedExists(states, events, tests, k, id);
    }
    assert states[k + 1] == Step(states[tests[k]], states[k], events[k]);
  }

  lemma NothingBefore(states: seq<State>, events: seq<Event>, tests: seq<nat>, k: nat, id: Id)
    requires IsRun(states, events, tests) && k < |events| && id >= |states[k].tokens|
    ensures !AcceptedBefore(states, events, tests, k + 1, id) && !SignedOutBefore(states, events, k + 1, id)
  {
    forall n | 0 <= n <= k ensures id >= |states[n].tokens| && !Accepts(states, events, tests, n, id) {
      RunAges(states, events, tests, n, k);
      if Accepts(states, events, tests, n, id) {
        AcceptedExists(states, events, tests, n, id);
      }
    }
  }

  /** Refresh `n` presents the token, unexpired and of an existing user, and when it tests it no logout or
      password change of its owner has committed. */
  ghost predicate Eligible(states: seq<State>, events: seq<Event>, tests: seq<nat>, n: nat, id: Id)
    requires |states| == |events| + 1 == |tests| + 1 && n < |events|
  {
    && events[n].Refresh? && events[n].claims.jti == id && tests[n] < |states|
    && Decodes(states[tests[n]].tokens, events[n].claims, events[n].now)
    && events[n].claims.sub in states[tests[n]].users
    && !SignedOutBefore(states, events, tests[n], id)
  }

  /** A refresh is accepted exactly when it is eligible and none is accepted before it tests. */
  lemma AcceptsIs(states: seq<State>, events: seq<Event>, tests: seq<nat>, n: nat, id: Id)
    requires IsRun(states, events, tests) && n < |events|
    ensures Accepts(states, events, tests, n, id)
            <==> Eligible(states, events, tests, n, id) && !AcceptedBefore(states, events, tests, tests[n], id)
  {
    if id < |states[tests[n]].tokens| {
      RevokedIs(states, events, tests, tests[n], id);
    }
  }

  /** The earliest refresh of the token to commit that is eligible. */
  ghost predicate FirstEligible(states: seq<State>, events: seq<Event>, tests: seq<nat>, n: nat, id: Id)
    requires |states| == |events| + 1 == |tests| + 1 && n < |events|
  {
    && Eligible(states, events, tests, n, id)
    && forall k :: 0 <= k < n ==> !Eligible(states, events, tests, k, id)
  }

  lemma {:induction false} FindFirstEligible(states: seq<State>, events: seq<Event>, tests: seq<nat>, m: nat, id: Id)
    returns (n: nat)
    requires |states| == |events| + 1 == |tests| + 1 && m < |events| && Eligible(states, events, tests, m, id)
    ensures n <= m && FirstEligible(states, events, tests, n, id)
  {
    if k: nat :| k < m && Eligible(states, events, tests, k, id) {
      n := FindFirstEligible(states, events, tests, k, id);
    } else {
      n := m;
    }
  }

  /** The first eligible refresh is accepted; a later one exactly when it is eligible and tests before the
      first has revoked the token. */
  lemma LaterAccepted(states: seq<State>, events: seq<Event>, tests: seq<nat>, n: nat, m: nat, id: Id)
    requires IsRun(states, events, tests) && n < m < |events| && FirstEligible(states, events, tests, n, id)
    ensures Accepts(states, events, tests, n, id)
    ensures Accepts(states, events, tests, m, id)
            <==> Eligible(states, events, tests, m, id) && Overlaps(tests, n, m)
  {
    forall k | 0 <= k < n ensures !Accepts(states, events, tests, k, id) {
      AcceptsIs(states, events, tests, k, id);
    }
    AcceptsIs(states, events, tests, n, id);
    AcceptsIs(states, events, tests, m, id);
  }

  ghost predicate AcceptedOnce(states: seq<State>, events: seq<Event>, tests: seq<nat>, id: Id)
    requires |states| == |events| + 1 == |tests| + 1
  {
    forall n, m :: 0 <= n < m < |events| && Accepts(states, events, tests, n, id) ==> !Accepts(states, events, tests, m, id)
  }

  /** Rotation: in every run a token is accepted at most once if and only if no eligible refresh tests it
      before the first eligible one revokes it. */
  lemma AcceptedAtMostOnceExactly(states: seq<State>, events: seq<Event>, tests: seq<nat>, id: Id)
    requires IsRun(states, events, tests)
    ensures AcceptedOnce(states, events, tests, id)
            <==> forall n, m ::
                   0 <= n < m < |events| && FirstEligible(states, events, tests, n, id) && Overlaps(tests, n, m) ==>
                     !Eligible(states, events, tests, m, id)
  {
    if AcceptedOnce(states, events, tests, id) {
      forall n, m | 0 <= n < m < |events| && FirstEligible(states, events, tests, n, id) && Overlaps(tests, n, m)
        ensures !Eligible(states, events, tests, m, id)
      {
        LaterAccepted(states, events, tests, n, m, id);
      }
    } else {
      var n, m :| 0 <= n < m < |events| && Accepts(states, events, tests, n, id) && Accepts(states, events, tests, m, id);
      AcceptsIs(states, events, tests, n, id);
      var first := FindFirstEligible(states, events, tests, n, id);
      LaterAccepted(states, events, tests, first, m, id);
    }
  }

  /** So when each refresh runs alone, a token is accepted at most once. */
  lemma AcceptedAtMostOnce(states: seq<State>, events: seq<Event>, tests: seq<nat>, n: nat, m: nat, id: Id)
    requires IsRun(states, events, tests) && n < |events| && m < |events|
    requires forall k :: 0 <= k < |tests| ==> tests[k] == k
    requires Accepts(states, events, tests, n, id) && Accepts(states, events, tests, m, id)
    ensures n == m
  {
    if n < m {
      AcceptedTwiceOverlaps(states, events, tests, n, m, id);
    } else if m < n {
      AcceptedTwiceOverlaps(states, events, tests, m, n, id);
    }
  }

  lemma SessionsOf(user: Id, spent: Token, live: Token)
    requires spent.revoked && live.user == user && !live.revoked
    ensures Unrevoked([live], user) == 1 && Unrevoked([spent, live, live], user) == 2
  {
    UnrevokedMore([], live, user);
    UnrevokedMore([], spent, user);
    UnrevokedMore([spent], live, user);
    UnrevokedMore([spent, live], live, user);
    assert [] + [live] == [live] && [] + [spent] == [spent] && [spent] + [live] == [spent, live];
    assert [spent, live] + [live] == [spent, live, live];
  }

  /** Two overlapping refreshes of one token both succeed, and leave the user two sessions for one. */
  lemma OverlappingRefreshesBothSucceed(user: Id, password: string, expires: Time)
    returns (states: seq<State>, events: seq<Event>, tests: seq<nat>)
    requires expires > 0
    ensures IsRun(states, events, tests) && |events| == 3
    ensures Accepts(states, events, tests, 1, 0) && Accepts(states, events, tests, 2, 0)
    ensures Unrevoked(states[1].tokens, user) == 1 && Unrevoked(states[3].tokens, user) == 2
  {
    var again, users := Refresh(Claims(0, user), 0, expires), map[user := password];
    var live, spent := Token(user, expires, false), Token(user, expires, true);
    var s0, s1 := State(map[], []), State(users, [live]);
    var s2, s3 := State(users, [spent, live]), State(users, [spent, live, live]);
    assert Step(s0, s0, SignUp(user, password, expires)) == s1;
    assert RevokedOne([live], 0) == [spent] && RevokedOne([spent, live], 0) == [spent, live];
    assert Step(s1, s1, again) == s2 && Step(s1, s2, again) == s3;
    states, events, tests := [s0, s1, s2, s3], [SignUp(user, password, expires), again, again], [0, 1, 1];
    SessionsOf(user, spent, live);
  }

  // ---------- Signing out ----------

  /** Event `n` is an accepted refresh of the user that made its tests at state `i` or earlier. */
  ghost predicate RefreshesLate(states: seq<State>, events: seq<Event>, tests: seq<nat>, i: nat, n: nat, user: Id)
    requires |states| == |events| + 1 == |tests| + 1 && n < |events|
  {
    events[n].Refresh? && events[n].claims.sub == user && Accepts(states, events, tests, n, events[n].claims.jti)
    && tests[n] <= i
  }

  lemma LateRefreshSignsIn(states: seq<State>, events: seq<Event>, tests: seq<nat>, i: nat, n: nat, user: Id)
    requires IsRun(states, events, tests) && n < |events| && RefreshesLate(states, events, tests, i, n, user)
    ensures Unrevoked(states[n + 1].tokens, user) > 0
  {
    var c := events[n].claims;
    UnrevokedMore(RevokedOne(states[n].tokens, c.jti), Token(c.sub, events[n].expires, false), user);
  }

  lemma {:induction false} SignedOutUntilLate(states: seq<State>, events: seq<Event>, tests: seq<nat>, i: nat, j: nat, user: Id)
    requires IsRun(states, events, tests) && i < j <= |events| && SignsOut(events[i], user)
    requires forall n :: i < n < j ==> !SignsIn(states[tests[n]], states[n], events[n], user) && !RefreshesLate(states, events, tests, i, n, user)
    ensures forall m :: i < m <= j ==> Unrevoked(states[m].tokens, user) == 0
    decreases j
  {
    RunAges(states, events, tests, tests[j - 1], j - 1);
    UnrevokedAfter(states[tests[j - 1]], states[j - 1], events[j - 1], user);
    assert states[j] == Step(states[tests[j - 1]], states[j - 1], events[j - 1]);
    if j > i + 1 {
      SignedOutUntilLate(states, events, tests, i, j - 1, user);
      assert !SignsIn(states[tests[j - 1]], states[j - 1], events[j - 1], user);
      assert !RefreshesLate(states, events, tests, i, j - 1, user);
      if events[j - 1].Refresh? && i < tests[j - 1] {
        NoneUnrevoked(states[tests[j - 1]].tokens, user);
      }
    }
  }

  /** From a logout or password change to the user's next sign-in all the user's tokens stay revoked if and
      only if no refresh tested before it commits after it. */
  lemma SignedOutStaysOutExactly(states: seq<State>, events: seq<Event>, tests: seq<nat>, i: nat, j: nat, user: Id)
    requires IsRun(states, events, tests) && i < j <= |events| && SignsOut(events[i], user)
    requires forall n :: i < n < j ==> !SignsIn(states[tests[n]], states[n], events[n], user)
    ensures (forall m, id :: i < m <= j && 0 <= id < |states[m].tokens| && states[m].tokens[id].user == user ==>
               states[m].tokens[id].revoked)
            <==> (forall n :: i < n < j ==> !RefreshesLate(states, events, tests, i, n, user))
  {
    if forall n :: i < n < j ==> !RefreshesLate(states, events, tests, i, n, user) {
      SignedOutUntilLate(states, events, tests, i, j, user);
      forall m | i < m <= j
        ensures forall id :: 0 <= id < |states[m].tokens| && states[m].tokens[id].user == user ==> states[m].tokens[id].revoked
      {
        NoneUnrevoked(states[m].tokens, user);
      }
    } else {
      var n :| i < n < j && RefreshesLate(states, events, tests, i, n, user);
      LateRefreshSignsIn(states, events, tests, i, n, user);
      var id := SomeUnrevoked(states[n + 1].tokens, user);
    }
  }

  lemma {:induction false} NoneUnrevoked(tokens: seq<Token>, user: Id)
    requires Unrevoked(tokens, user) == 0
    ensures forall id :: 0 <= id < |tokens| && tokens[id].user == user ==> tokens[id].revoked
  {
    if tokens != [] {
      NoneUnrevoked(tokens[..|tokens| - 1], user);
    }
  }

  lemma {:induction false} SomeUnrevoked(tokens: seq<Token>, user: Id) returns (id: Id)
    requires Unrevoked(tokens, user) > 0
    ensures id < |tokens| && tokens[id].user == user && !tokens[id].revoked
  {
    var n := |tokens| - 1;
    if tokens[n].user == user && !tokens[n].revoked {
      id := n;
    } else {
      id := SomeUnrevoked(tokens[..n], user);
    }
  }

  /** A refresh that was tested before a logout and commits after it signs the user in again. */
  lemma LogoutOvertaken(user: Id, password: string, expires: Time)
    returns (states: seq<State>, events: seq<Event>, tests: seq<nat>)
    requires expires > 0
    ensures IsRun(states, events, tests) && |events| == 3 && events[1] == LogOut(user)
    ensures Unrevoked(states[2].tokens, user) == 0 && Unrevoked(states[3].tokens, user) == 1
  {
    var again := Refresh(Claims(0, user), 0, expires);
    var s0 := State(map[], []);
    var s1 := Step(s0, s0, SignUp(user, password, expires));
    var s2 := Step(s1, s1, LogOut(user));
    states, events, tests :=
      [s0, s1, s2, Step(s1, s2, again)], [SignUp(user, password, expires), LogOut(user), again], [0, 1, 1];
    UnrevokedAfter(s1, s1, LogOut(user), user);
    UnrevokedAfter(s1, s2, again, user);
  }

  // ---------- Passwords ----------

  predicate Changes(e: Event, user: Id) {
    e.ChangePassword? && e.user == user
  }

  /** After a password change, up to the next one, the stored password is the new one. */
  lemma {:induction false} NewPasswordOnly(states: seq<State>, events: seq<Event>, tests: seq<nat>, i: nat, j: nat,
                                           user: Id, password: string)
    requires IsRun(states, events, tests) && i < j < |states| && user in states[i].users
    requires Changes(events[i], user) && forall n :: i < n < j ==> !Changes(events[n], user)
    ensures PasswordIs(states[j], user, password) <==> password == events[i].password
    ensures user in states[j].users
    decreases j
  {
    assert states[j] == Step(states[tests[j - 1]], states[j - 1], events[j - 1]);
    if j > i + 1 {
      NewPasswordOnly(states, events, tests, i, j - 1, user, password);
    }
  }

  /** After a password change, up to the next one, a login succeeds with the new password, or with the old
      one if and only if it tested that before the change. */
  lemma LoginAfterChangeExactly(states: seq<State>, events: seq<Event>, tests: seq<nat>, i: nat, m: nat, user: Id)
    requires IsRun(states, events, tests) && i < m < |events| && user in states[i].users
    requires Changes(events[i], user) && forall n :: i < n < m ==> !Changes(events[n], user)
    requires events[m].LogIn? && events[m].user == user
    ensures SignsIn(states[tests[m]], states[m], events[m], user)
            <==> if i < tests[m] then events[m].password == events[i].password
                 else PasswordIs(states[tests[m]], user, events[m].password)
  {
    if i < tests[m] {
      NewPasswordOnly(states, events, tests, i, tests[m], user, events[m].password);
    }
  }

  /** A login that tested the old password before a change completes after it. */
  lemma LoginOvertakesChange(user: Id, before: string, password: string, expires: Time)
    returns (states: seq<State>, events: seq<Event>, tests: seq<nat>)
    requires before != password
    ensures IsRun(states, events, tests) && |events| == 3
    ensures events[1] == ChangePassword(user, password) && events[2] == LogIn(user, before, expires)
    ensures !PasswordIs(states[2], user, before)
    ensures Unrevoked(states[2].tokens, user) == 0 && Unrevoked(states[3].tokens, user) == 1
  {
    var change, login := ChangePassword(user, password), LogIn(user, before, expires);
    var s0 := State(map[], []);
    var s1 := Step(s0, s0, SignUp(user, before, expires));
    var s2 := Step(s1, s1, change);
    states, events, tests := [s0, s1, s2, Step(s1, s2, login)], [SignUp(user, before, expires), change, login], [0, 1, 1];
    UnrevokedAfter(s1, s1, change, user);
    UnrevokedAfter(s1, s2, login, user);
  }
}
