/** Validity of access tokens over time: login, logout, session revocation, blacklist
    pruning and user deletion, as atomic service calls against one clock. */
module Tokens {
  import opened Basics

  type Jti = nat

  datatype Role = UserRole | StaffRole | AdminRole

  datatype User = User(email: string, passwordHash: string, role: Role, tokenVersion: int)

  /** The signed payload; exp is in seconds. */
  datatype Token = Token(sub: nat, jti: Jti, tokenVersion: int, exp: int)

  /** An `update` or `setRole` under way: the entity it read and changed, and the row its save
      loads to see which columns differ. findOne does not select the password hash. */
  datatype Edit = Edit(user: nat, entity: User, loaded: Option<User>)

  datatype Change = NewRole(role: Role) | NewEmail(email: string) | Nothing

  /** A `login` between its findByEmail and its sign, while the password is compared. */
  datatype Attempt = Attempt(user: nat, tokenVersion: int)

  datatype Block = Block(userId: nat, expiresAt: Millis)

  /** issued and loggedOut record the past; no call reads them. */
  datatype State = State(users: map<nat, User>, nextUser: nat, edits: map<nat, Edit>, nextEdit: nat,
                         logins: map<nat, Attempt>, nextLogin: nat,
                         blacklist: map<Jti, Block>, clock: Millis, lifetime: int,
                         issued: map<Jti, Token>, loggedOut: set<Jti>)

  datatype Call =
    | CreateUser(email: string, hash: string)
    | BeginLogin(user: nat)                  // findByEmail
    | Sign(login: nat, jti: Jti)             // the password was right
    | Refuse(login: nat)                     // the password was wrong
    | Logout(token: Jti)
    | RevokeAll(user: nat)
    | BeginEdit(user: nat, change: Change)   // findOne, and the change to the entity
    | LoadEdit(edit: nat)                    // save loads the row to compare it with the entity
    | WriteEdit(edit: nat)                   // save writes the columns that differ
    | UpdatePassword(user: nat, newHash: string)
    | Remove(user: nat)
    | Prune
    | Pass(time: Millis)

  function Init(clock: Millis, lifetime: int): State {
    State(map[], 1, map[], 0, map[], 0, map[], clock, lifetime, map[], {})
  }

  predicate EmailFree(users: map<nat, User>, email: string) {
    forall u :: u in users ==> users[u].email != email
  }

  predicate Enabled(s: State, call: Call) {
    match call
    case CreateUser(email, _) => EmailFree(s.users, email)
    case Sign(l, jti) => l in s.logins && jti !in s.issued
    case Refuse(l) => l in s.logins
    case Logout(jti) => jti in s.issued
    case LoadEdit(e) => e in s.edits && s.edits[e].loaded.None?
    case WriteEdit(e) => e in s.edits && s.edits[e].loaded.Some?
    case Prune => true
    case Pass(time) => s.clock <= time
    case _ => call.user in s.users
  }

  /** The version is the one read before the password was compared. */
  function NewToken(s: State, attempt: Attempt, jti: Jti): Token {
    Token(attempt.user, jti, attempt.tokenVersion, s.clock / 1000 + s.lifetime)
  }

  /** Both the unique index on jti and the foreign key to users must let the row in. */
  predicate LogoutStored(s: State, jti: Jti)
    requires jti in s.issued
  {
    jti !in s.blacklist && s.issued[jti].sub in s.users
  }

  function PruneExpired(blacklist: map<Jti, Block>, now: Millis): map<Jti, Block> {
    map j | j in blacklist && blacklist[j].expiresAt >= now :: blacklist[j]
  }

  /** Deleting a user deletes the blacklist rows that refer to it. */
  function Cascade(blacklist: map<Jti, Block>, u: nat): map<Jti, Block> {
    map j | j in blacklist && blacklist[j].userId != u :: blacklist[j]
  }

  function Changed(user: User, change: Change): User {
    match change
    case NewRole(role) => user.(role := role)
    case NewEmail(email) => user.(email := email)
    case Nothing => user
  }

  /** The row after the save: a column is written when the entity differs from the loaded
      row in it, and is otherwise as it has become. */
  function Saved(current: User, edit: Edit): User
    requires edit.loaded.Some?
  {
    var loaded := edit.loaded.value;
    current.(email := if edit.entity.email != loaded.email then edit.entity.email else current.email,
             role := if edit.entity.role != loaded.role then edit.entity.role else current.role,
             tokenVersion := if edit.entity.tokenVersion != loaded.tokenVersion then edit.entity.tokenVersion
                             else current.tokenVersion)
  }

  /** The user is still there and the unique index on email lets the row in. */
  predicate EditStored(users: map<nat, User>, edit: Edit)
    requires edit.loaded.Some?
  {
    edit.user in users && EmailFree(users - {edit.user}, Saved(users[edit.user], edit).email)
  }

  function Step(s: State, call: Call): State
    requires Enabled(s, call)
  {
    match call
    case CreateUser(email, hash) =>
      s.(users := s.users[s.nextUser := User(email, hash, UserRole, 1)], nextUser := s.nextUser + 1)
    case BeginLogin(u) =>
      s.(logins := s.logins[s.nextLogin := Attempt(u, s.users[u].tokenVersion)], nextLogin := s.nextLogin + 1)
    case Sign(l, jti) =>
      s.(logins := s.logins - {l}, issued := s.issued[jti := NewToken(s, s.logins[l], jti)])
    case Refuse(l) => s.(logins := s.logins - {l})
    case Logout(jti) =>
      if LogoutStored(s, jti) then
        var token := s.issued[jti];
        s.(blacklist := s.blacklist[jti := Block(token.sub, token.exp * 1000)], loggedOut := s.loggedOut + {jti})
      else s
    case RevokeAll(u) => s.(users := s.users[u := s.users[u].(tokenVersion := s.users[u].tokenVersion + 1)])
    case BeginEdit(u, change) =>
      s.(edits := s.edits[s.nextEdit := Edit(u, Changed(s.users[u], change), None)], nextEdit := s.nextEdit + 1)
    case LoadEdit(e) =>
      var edit := s.edits[e];
      // without its row the save fails
      s.(edits := if edit.user in s.users then s.edits[e := edit.(loaded := Some(s.users[edit.user]))]
         else s.edits - {e})
    case WriteEdit(e) =>
      var edit := s.edits[e];
      s.(edits := s.edits - {e},
         users := if EditStored(s.users, edit) then s.users[edit.user := Saved(s.users[edit.user], edit)] else s.users)
    case UpdatePassword(u, hash) => s.(users := s.users[u := s.users[u].(passwordHash := hash)])
    case Remove(u) => s.(users := s.users - {u}, blacklist := Cascade(s.blacklist, u))
    case Prune => s.(blacklist := PruneExpired(s.blacklist, s.clock))
    case Pass(time) => s.(clock := time)
  }

  // ---- the check ----

  predicate IsBlocked(blacklist: map<Jti, Block>, jti: Jti, now: Millis) {
    jti in blacklist && blacklist[jti].expiresAt >= now
  }

  /** Section 4.1.4 of RFC 7519: not on or after exp, on a clock of whole seconds. */
  predicate Expired(token: Token, now: Millis) {
    now / 1000 >= token.exp
  }

  datatype Verdict = Accepted(user: User) | Unauthorized | UserNotFound

  function Check(s: State, token: Token, now: Millis): Verdict {
    if Expired(token, now) || IsBlocked(s.blacklist, token.jti, now) then Unauthorized
    else if token.sub !in s.users then UserNotFound
    else if s.users[token.sub].tokenVersion != token.tokenVersion then Unauthorized
    else Accepted(s.users[token.sub])
  }

  // ---- runs ----

  predicate CanRun(s: State, calls: seq<Call>)
    decreases |calls|
  {
    calls == [] || (Enabled(s, calls[0]) && CanRun(Step(s, calls[0]), calls[1..]))
  }

  function Run(s: State, calls: seq<Call>): State
    requires CanRun(s, calls)
    decreases |calls|
  {
    if calls == [] then s else Run(Step(s, calls[0]), calls[1..])
  }

  lemma {:induction false} Extend(s0: State, calls: seq<Call>, s: State, call: Call, s': State)
    requires CanRun(s0, calls) && Run(s0, calls) == s && Enabled(s, call) && Step(s, call) == s'
    ensures CanRun(s0, calls + [call]) && Run(s0, calls + [call]) == s'
    decreases |calls|
  {
    if calls == [] {
      assert CanRun(s', []) && Run(s', []) == s' && ([] + [call])[1..] == [];
    } else {
      Extend(Step(s0, calls[0]), calls[1..], s, call, s');
      assert (calls + [call])[1..] == calls[1..] + [call];
    }
  }

  ghost predicate Reachable(s: State) {
    exists clock, lifetime, calls :: CanRun(Init(clock, lifetime), calls) && Run(Init(clock, lifetime), calls) == s
  }

  // ---- the invariant ----

  ghost predicate TokenOk(s: State, jti: Jti)
    requires jti in s.issued
  {
    var token := s.issued[jti];
    && token.jti == jti && token.sub < s.nextUser
    && (jti in s.loggedOut ==> jti in s.blacklist || token.sub !in s.users || token.exp * 1000 < s.clock)
  }

  ghost predicate Inv(s: State) {
    && (forall u :: u in s.users ==> u < s.nextUser)
    && (forall j :: j in s.issued ==> TokenOk(s, j))
    && (forall j :: j in s.blacklist ==>
          j in s.loggedOut && j in s.issued && s.blacklist[j] == Block(s.issued[j].sub, s.issued[j].exp * 1000))
    && s.loggedOut <= s.issued.Keys
    && (forall l :: l in s.logins ==> s.logins[l].user < s.nextUser)
    && (forall e :: e in s.edits ==> e < s.nextEdit && s.edits[e].user < s.nextUser)
  }

  lemma StepKeeps(s: State, call: Call)
    requires Inv(s) && Enabled(s, call)
    ensures Inv(Step(s, call))
  {
    var s' := Step(s, call);
    forall j | j in s'.issued
      ensures TokenOk(s', j)
    {
      assert j in s.issued ==> TokenOk(s, j);
    }
  }

  lemma {:induction false} RunKeeps(s: State, calls: seq<Call>)
    requires Inv(s) && CanRun(s, calls)
    ensures Inv(Run(s, calls))
    decreases |calls|
  {
    if calls != [] {
      StepKeeps(s, calls[0]);
      RunKeeps(Step(s, calls[0]), calls[1..]);
    }
  }

  lemma ReachableInv(s: State)
    requires Reachable(s)
    ensures Inv(s)
  {
    var clock, lifetime, calls :| CanRun(Init(clock, lifetime), calls) && Run(Init(clock, lifetime), calls) == s;
    RunKeeps(Init(clock, lifetime), calls);
  }

  // ---- acceptance ----

  /** An issued token is accepted exactly when it is unexpired, was never logged out, its
      user exists and its version is the user's current one, although prunes and user
      deletions keep removing blacklist rows. */
  lemma AcceptedExactly(s: State, jti: Jti, now: Millis)
    requires Reachable(s) && jti in s.issued && s.clock <= now
    ensures var token := s.issued[jti];
            Check(s, token, now).Accepted? <==>
              && now < token.exp * 1000
              && jti !in s.loggedOut
              && token.sub in s.users && s.users[token.sub].tokenVersion == token.tokenVersion
  {
    ReachableInv(s);
    assert TokenOk(s, jti);
  }

  /** A token lives for the configured seconds from the second it was signed in: signed at
      clock t it is accepted until then, whatever is called in between, as long as it is not
      logged out and its user stays and keeps the version. */
  lemma TokenLife(s: State, login: nat, jti: Jti, calls: seq<Call>, now: Millis)
    requires Reachable(s) && Enabled(s, Sign(login, jti)) && CanRun(Step(s, Sign(login, jti)), calls)
    requires Run(Step(s, Sign(login, jti)), calls).clock <= now
    ensures var s' := Run(Step(s, Sign(login, jti)), calls);
            && jti in s'.issued
            && var token := s'.issued[jti];
            && token.sub == s.logins[login].user && token.tokenVersion == s.logins[login].tokenVersion
            && (jti !in s'.loggedOut
                && token.sub in s'.users && s'.users[token.sub].tokenVersion == token.tokenVersion ==>
                  (Check(s', token, now).Accepted? <==> now < (s.clock / 1000 + s.lifetime) * 1000))
  {
    var signed := Step(s, Sign(login, jti));
    ReachableInv(s);
    StepKeeps(s, Sign(login, jti));
    IssuedStays(signed, calls, jti);
    RunKeeps(signed, calls);
    assert TokenOk(Run(signed, calls), jti);
  }

  lemma {:induction false} IssuedStays(s: State, calls: seq<Call>, jti: Jti)
    requires CanRun(s, calls) && jti in s.issued
    ensures jti in Run(s, calls).issued && Run(s, calls).issued[jti] == s.issued[jti]
    decreases |calls|
  {
    if calls != [] { IssuedStays(Step(s, calls[0]), calls[1..], jti); }
  }

  /** Logged out, or without a user, which no call brings back. */
  ghost predicate Dead(s: State, jti: Jti)
    requires jti in s.issued
  {
    jti in s.loggedOut || s.issued[jti].sub !in s.users
  }

  lemma DeadStep(s: State, call: Call, jti: Jti)
    requires Inv(s) && Enabled(s, call) && jti in s.issued && Dead(s, jti)
    ensures jti in Step(s, call).issued && Step(s, call).issued[jti] == s.issued[jti] && Dead(Step(s, call), jti)
  {
    assert TokenOk(s, jti);
  }

  lemma {:induction false} DeadRun(s: State, calls: seq<Call>, jti: Jti)
    requires Inv(s) && CanRun(s, calls) && jti in s.issued && Dead(s, jti)
    ensures var s' := Run(s, calls); jti in s'.issued && s'.issued[jti] == s.issued[jti] && Dead(s', jti)
    decreases |calls|
  {
    if calls != [] {
      DeadStep(s, calls[0], jti);
      StepKeeps(s, calls[0]);
      DeadRun(Step(s, calls[0]), calls[1..], jti);
    }
  }

  /** A token once logged out or without its user is refused at every later time, whatever is
      called or saved in between. */
  lemma NeverAcceptedAgain(s: State, calls: seq<Call>, jti: Jti, now: Millis)
    requires Reachable(s) && CanRun(s, calls) && jti in s.issued && Dead(s, jti) && Run(s, calls).clock <= now
    ensures !Check(Run(s, calls), s.issued[jti], now).Accepted?
  {
    ReachableInv(s);
    DeadRun(s, calls, jti);
    RunKeeps(s, calls);
    assert TokenOk(Run(s, calls), jti);
  }

  /** A logout and a user's deletion make the token such a one at once; a logout that cannot
      be stored finds it so, and a revocation refuses every token of the current version. */
  lemma RevokingCalls(s: State, jti: Jti, now: Millis)
    requires Reachable(s) && jti in s.issued
    ensures LogoutStored(s, jti) ==> Dead(Step(s, Logout(jti)), jti)
    ensures !LogoutStored(s, jti) ==> Dead(s, jti)
    ensures var token := s.issued[jti]; token.sub in s.users ==>
              && Dead(Step(s, Remove(token.sub)), jti)
              && (Check(s, token, now).Accepted? ==> !Check(Step(s, RevokeAll(token.sub)), token, now).Accepted?)
  {
    ReachableInv(s);
    assert TokenOk(s, jti);
  }

  // ---- how long a revocation stands ----

  /** The version of u is beyond v, if u exists. */
  predicate Beyond(s: State, u: nat, v: int) {
    u in s.users ==> s.users[u].tokenVersion > v
  }

  ghost predicate BeyondAlong(s: State, calls: seq<Call>, u: nat, v: int)
    requires CanRun(s, calls)
    decreases |calls|
  {
    Beyond(s, u, v) && (calls == [] || BeyondAlong(Step(s, calls[0]), calls[1..], u, v))
  }

  /** The call is a save of u that writes a version up to v over the one it loaded. */
  predicate Restores(s: State, call: Call, u: nat, v: int)
    requires Enabled(s, call)
  {
    call.WriteEdit? &&
    var edit := s.edits[call.edit];
    && edit.user == u && EditStored(s.users, edit)
    && edit.entity.tokenVersion != edit.loaded.value.tokenVersion && edit.entity.tokenVersion <= v
  }

  ghost predicate NoneRestores(s: State, calls: seq<Call>, u: nat, v: int)
    requires CanRun(s, calls)
    decreases |calls|
  {
    calls == [] || (!Restores(s, calls[0], u, v) && NoneRestores(Step(s, calls[0]), calls[1..], u, v))
  }

  lemma BeyondStep(s: State, call: Call, u: nat, v: int)
    requires Inv(s) && Enabled(s, call) && Beyond(s, u, v) && u < s.nextUser
    ensures Beyond(Step(s, call), u, v) <==> !Restores(s, call, u, v)
  {
  }

  lemma {:induction false} BeyondRun(s: State, calls: seq<Call>, u: nat, v: int)
    requires Inv(s) && CanRun(s, calls) && Beyond(s, u, v) && u < s.nextUser
    ensures BeyondAlong(s, calls, u, v) <==> NoneRestores(s, calls, u, v)
    ensures BeyondAlong(s, calls, u, v) ==> Beyond(Run(s, calls), u, v)
    decreases |calls|
  {
    if calls != [] {
      BeyondStep(s, calls[0], u, v);
      StepKeeps(s, calls[0]);
      if Beyond(Step(s, calls[0]), u, v) { BeyondRun(Step(s, calls[0]), calls[1..], u, v); }
    }
  }

  /** A revocation stands along any calls, the user's version staying beyond the revoked one,
      if and only if no save among them writes a revoked version back. */
  lemma RevocationExactly(s: State, u: nat, calls: seq<Call>)
    requires Reachable(s) && u in s.users && CanRun(Step(s, RevokeAll(u)), calls)
    ensures var v := s.users[u].tokenVersion;
            BeyondAlong(Step(s, RevokeAll(u)), calls, u, v) <==> NoneRestores(Step(s, RevokeAll(u)), calls, u, v)
  {
    ReachableInv(s);
    StepKeeps(s, RevokeAll(u));
    BeyondRun(Step(s, RevokeAll(u)), calls, u, s.users[u].tokenVersion);
  }

  /** Then every token of u up to the revoked version is refused, the ones that logins begun
      before the revocation still sign included. */
  lemma RevokedStaysRefused(s: State, u: nat, calls: seq<Call>, jti: Jti, now: Millis)
    requires Reachable(s) && u in s.users && CanRun(Step(s, RevokeAll(u)), calls)
    requires NoneRestores(Step(s, RevokeAll(u)), calls, u, s.users[u].tokenVersion)
    requires var issued := Run(Step(s, RevokeAll(u)), calls).issued;
             jti in issued && issued[jti].sub == u && issued[jti].tokenVersion <= s.users[u].tokenVersion
    ensures var s' := Run(Step(s, RevokeAll(u)), calls); !Check(s', s'.issued[jti], now).Accepted?
  {
    ReachableInv(s);
    StepKeeps(s, RevokeAll(u));
    BeyondRun(Step(s, RevokeAll(u)), calls, u, s.users[u].tokenVersion);
  }

  /** Edits begun after the revocation read a version beyond it; older ones keep their entity. */
  ghost predicate EditsSince(before: State, s: State, u: nat, v: int) {
    && before.nextEdit <= s.nextEdit
    && (forall e :: e in s.edits && e >= before.nextEdit && s.edits[e].user == u ==> s.edits[e].entity.tokenVersion > v)
    && (forall e :: e in s.edits && e < before.nextEdit ==>
          e in before.edits && s.edits[e].entity == before.edits[e].entity && s.edits[e].user == before.edits[e].user)
  }

  lemma EditsStep(before: State, s: State, call: Call, u: nat, v: int)
    requires Inv(s) && Enabled(s, call) && Beyond(s, u, v) && EditsSince(before, s, u, v)
    ensures EditsSince(before, Step(s, call), u, v)
  {
  }

  lemma {:induction false} EditsRun(before: State, s: State, calls: seq<Call>, u: nat, v: int)
    requires Inv(s) && CanRun(s, calls) && Beyond(s, u, v) && u < s.nextUser
    requires EditsSince(before, s, u, v) && NoneRestores(s, calls, u, v)
    ensures EditsSince(before, Run(s, calls), u, v)
    decreases |calls|
  {
    if calls != [] {
      BeyondStep(s, calls[0], u, v);
      EditsStep(before, s, calls[0], u, v);
      StepKeeps(s, calls[0]);
      EditsRun(before, Step(s, calls[0]), calls[1..], u, v);
    }
  }

  /** The first save that undoes a revocation belongs to an edit that read before it. */
  lemma RestorerReadBefore(s: State, u: nat, calls: seq<Call>, call: Call)
    requires Reachable(s) && u in s.users && CanRun(Step(s, RevokeAll(u)), calls)
    requires NoneRestores(Step(s, RevokeAll(u)), calls, u, s.users[u].tokenVersion)
    requires var s' := Run(Step(s, RevokeAll(u)), calls);
        Enabled(s', call) && Restores(s', call, u, s.users[u].tokenVersion)
    ensures var s' := Run(Step(s, RevokeAll(u)), calls);
            && call.edit in s.edits && s.edits[call.edit].user == u
            && s.edits[call.edit].entity == s'.edits[call.edit].entity
  {
    ReachableInv(s);
    StepKeeps(s, RevokeAll(u));
    EditsRun(s, Step(s, RevokeAll(u)), calls, u, s.users[u].tokenVersion);
  }

  /** Such a save revives every token of the version it writes, unless it has expired or was
      logged out. */
  lemma RestoreRevives(s: State, call: Call, u: nat, v: int, jti: Jti, now: Millis)
    requires Reachable(s) && Enabled(s, call) && Restores(s, call, u, v) && s.clock <= now
    requires jti in s.issued && s.issued[jti].sub == u
    requires s.issued[jti].tokenVersion == s.edits[call.edit].entity.tokenVersion
    ensures Check(Step(s, call), s.issued[jti], now).Accepted? <==>
        now < s.issued[jti].exp * 1000 && jti !in s.loggedOut
  {
    ReachableInv(s);
    StepKeeps(s, call);
    assert TokenOk(s, jti);
  }

  /** User 1 and its token 0, with the given version, role and edits. */
  function Example(version: int, role: Role, edits: map<nat, Edit>): State {
    Init(0, 60).(users := map[1 := User("a", "h", role, version)], nextUser := 2, edits := edits, nextEdit := |edits|,
                 nextLogin := 1,
                 issued := map[0 := Token(1, 0, 1, 60)])
  }

  function Promotion(loaded: Option<User>): map<nat, Edit> {
    map[0 := Edit(1, User("a", "h", StaffRole, 1), loaded)]
  }

  lemma Revokes() returns (calls: seq<Call>)
    ensures |calls| == 5 && calls[4] == RevokeAll(1)
    ensures CanRun(Init(0, 60), calls) && Run(Init(0, 60), calls) == Example(2, UserRole, Promotion(None))
  {
    var s0 := Init(0, 60);
    calls := [];
    var created := Example(1, UserRole, map[]).(nextLogin := 0, issued := map[]);
    Extend(s0, calls, s0, CreateUser("a", "h"), created);
    calls := calls + [CreateUser("a", "h")];
    var found := created.(logins := map[0 := Attempt(1, 1)], nextLogin := 1);
    Extend(s0, calls, created, BeginLogin(1), found);
    calls := calls + [BeginLogin(1)];
    Extend(s0, calls, found, Sign(0, 0), Example(1, UserRole, map[]));
    calls := calls + [Sign(0, 0)];
    Extend(s0, calls, Example(1, UserRole, map[]), BeginEdit(1, NewRole(StaffRole)),
           Example(1, UserRole, Promotion(None)));
    calls := calls + [BeginEdit(1, NewRole(StaffRole))];
    Extend(s0, calls, Example(1, UserRole, Promotion(None)), RevokeAll(1), Example(2, UserRole, Promotion(None)));
    calls := calls + [RevokeAll(1)];
  }

  /** A run in which a role change that read before a revocation and saves after it makes the
      revoked token accepted again. */
  lemma RevokedThenRevived() returns (before: seq<Call>, after: seq<Call>)
    ensures CanRun(Init(0, 60), before) && CanRun(Init(0, 60), after)
    ensures |before| == 5 && before[4] == RevokeAll(1) && after == before + [LoadEdit(0)] + [WriteEdit(0)]
    ensures var token, revoked, saved := Token(1, 0, 1, 60), Run(Init(0, 60), before), Run(Init(0, 60), after);
            && 0 in revoked.issued && revoked.issued[0] == token && !Check(revoked, token, 0).Accepted?
            && Check(saved, token, 0).Accepted?
  {
    var s0 := Init(0, 60);
    before := Revokes();
    var loaded := Example(2, UserRole, Promotion(Some(User("a", "h", UserRole, 2))));
    Extend(s0, before, Example(2, UserRole, Promotion(None)), LoadEdit(0), loaded);
    var saved := Example(1, StaffRole, map[]).(nextEdit := 1);
    assert Saved(loaded.users[1], loaded.edits[0]) == saved.users[1];
    Extend(s0, before + [LoadEdit(0)], loaded, WriteEdit(0), saved);
    after := before + [LoadEdit(0)] + [WriteEdit(0)];
  }

  // ---- pruning ----

  function WithoutPrunes(calls: seq<Call>): seq<Call> {
    if calls == [] then []
    else (if calls[0].Prune? then [] else [calls[0]]) + WithoutPrunes(calls[1..])
  }

  /** u is s had nothing ever been pruned: the rows s lacks have expired. */
  ghost predicate PrunedFrom(s: State, u: State) {
    && s == u.(blacklist := s.blacklist)
    && s.blacklist.Keys <= u.blacklist.Keys
    && (forall j :: j in s.blacklist ==> s.blacklist[j] == u.blacklist[j])
    && (forall j :: j in u.blacklist && j !in s.blacklist ==> u.blacklist[j].expiresAt < u.clock)
  }

  predicate TouchesBlacklist(call: Call) {
    call.Logout? || call.Remove? || call.Prune?
  }

  lemma PrunedOther(s: State, u: State, call: Call)
    requires PrunedFrom(s, u) && Enabled(s, call) && !TouchesBlacklist(call)
    ensures Enabled(u, call) && PrunedFrom(Step(s, call), Step(u, call))
  {
  }

  lemma PrunedLogout(s: State, u: State, jti: Jti)
    requires Inv(s) && Inv(u) && PrunedFrom(s, u) && jti in s.issued
    ensures jti in u.issued && PrunedFrom(Step(s, Logout(jti)), Step(u, Logout(jti)))
  {
  }

  lemma PrunedRemove(s: State, u: State, user: nat)
    requires PrunedFrom(s, u) && user in s.users
    ensures PrunedFrom(Step(s, Remove(user)), Step(u, Remove(user)))
  {
  }

  lemma PrunedPrune(s: State, u: State)
    requires PrunedFrom(s, u)
    ensures PrunedFrom(Step(s, Prune), u)
  {
  }

  lemma PrunedStep(s: State, u: State, call: Call)
    requires Inv(s) && Inv(u) && PrunedFrom(s, u) && Enabled(s, call)
    ensures Enabled(u, call)
    ensures PrunedFrom(Step(s, call), if call.Prune? then u else Step(u, call))
  {
    match call
    case Logout(jti) => PrunedLogout(s, u, jti);
    case Remove(user) => PrunedRemove(s, u, user);
    case Prune => PrunedPrune(s, u);
    case _ => PrunedOther(s, u, call);
  }

  lemma {:induction false} PrunedRun(s: State, u: State, calls: seq<Call>)
    requires Inv(s) && Inv(u) && PrunedFrom(s, u) && CanRun(s, calls)
    ensures CanRun(u, WithoutPrunes(calls)) && PrunedFrom(Run(s, calls), Run(u, WithoutPrunes(calls)))
    decreases |calls|
  {
    if calls != [] {
      var call, u' := calls[0], if calls[0].Prune? then u else Step(u, calls[0]);
      PrunedStep(s, u, call);
      StepKeeps(s, call);
      StepKeeps(u, call);
      PrunedRun(Step(s, call), u', calls[1..]);
      if !call.Prune? { assert WithoutPrunes(calls)[1..] == WithoutPrunes(calls[1..]); }
      assert call.Prune? ==> WithoutPrunes(calls) == WithoutPrunes(calls[1..]);
    }
  }

  /** Any schedule of prunes gives the same answers, at every later time, as never pruning. */
  lemma PruneRefinement(clock: Millis, lifetime: int, calls: seq<Call>)
    requires CanRun(Init(clock, lifetime), calls)
    ensures CanRun(Init(clock, lifetime), WithoutPrunes(calls))
    ensures var s, u := Run(Init(clock, lifetime), calls), Run(Init(clock, lifetime), WithoutPrunes(calls));
            forall jti, now :: s.clock <= now ==>
                (IsBlocked(s.blacklist, jti, now) <==> IsBlocked(u.blacklist, jti, now))
    ensures var s, u := Run(Init(clock, lifetime), calls), Run(Init(clock, lifetime), WithoutPrunes(calls));
            forall token, now :: s.clock <= now ==> Check(s, token, now) == Check(u, token, now)
  {
    PrunedRun(Init(clock, lifetime), Init(clock, lifetime), calls);
  }
}
