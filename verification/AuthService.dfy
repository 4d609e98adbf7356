/** The auth and user services over their tables; each call is one step of module Tokens. */
module AuthService {
  import opened Basics
  import opened Tokens

  /** AddressTaken is the one that throws. */
  datatype SaveResult = Written | NoRow | AddressTaken

  datatype Removal = Removed | Refused | NotFound

  class AuthService {
    var users: map<nat, User>
    var nextUser: nat
    var edits: map<nat, Edit>      // updates and role changes between their awaits
    var nextEdit: nat
    var logins: map<nat, Attempt>  // logins while the password is compared
    var nextLogin: nat
    var blacklist: map<Jti, Block>
    const lifetime: int            // seconds a token lives
    ghost var clock: Millis
    ghost var issued: map<Jti, Token>
    ghost var loggedOut: set<Jti>

    constructor (now: Millis, lifetime: int)
      ensures View() == Init(now, lifetime)
    {
      users, edits, nextEdit, logins, nextLogin := map[], map[], 0, map[], 0;
      blacklist, nextUser, this.lifetime := map[], 1, lifetime;
      clock, issued, loggedOut := now, map[], {};
    }

    ghost function View(): State
      reads this
    {
      State(users, nextUser, edits, nextEdit, logins, nextLogin, blacklist, clock, lifetime, issued, loggedOut)
    }

    method FindByEmail(email: string) returns (id: Option<nat>)
      ensures id.None? <==> forall u :: u in users ==> users[u].email != email
      ensures id.Some? ==> id.value in users && users[id.value].email == email
    {
      if EmailFree(users, email) { return None; }
      var u :| u in users && users[u].email == email;
      return Some(u);
    }

    /** `login` up to the password comparison; fails, changing nothing, for an unknown address. */
    method FindForLogin(email: string) returns (login: Option<nat>)
      modifies this`logins, this`nextLogin
      ensures login.None? <==> forall u :: u in users ==> users[u].email != email
      ensures login.None? ==> View() == old(View())
      ensures login.Some? ==>
        && login.value in logins
        && var u := logins[login.value].user;
        && u in users && users[u].email == email && logins[login.value].tokenVersion == users[u].tokenVersion
        && View() == Step(old(View()), BeginLogin(u))
    {
      var user := FindByEmail(email);
      if user.None? { return None; }
      login := Some(nextLogin);
      logins := logins[nextLogin := Attempt(user.value, users[user.value].tokenVersion)];
      nextLogin := nextLogin + 1;
      assert user.value in users && users[user.value].email == email;
    }

    /** The rest of `login`: with the right password a token is signed, for the version that was
        read; with a wrong one the login is over. */
    method Sign(login: nat, passwordOk: bool, jti: Jti, now: Millis) returns (token: Option<Token>)
      requires login in logins && jti !in issued && now == clock
      modifies this`logins, this`issued
      ensures token.Some? <==> passwordOk
      ensures token.None? ==> View() == Step(old(View()), Refuse(login))
      ensures token.Some? ==>
        && token.value.sub == old(logins)[login].user && token.value.tokenVersion == old(logins)[login].tokenVersion
        && token.value.jti == jti && token.value.exp == now / 1000 + lifetime
        && issued == old(issued)[jti := token.value] && logins == old(logins) - {login}
        && View() == Step(old(View()), Call.Sign(login, jti))
    {
      var attempt := logins[login];
      logins := logins - {login};
      if !passwordOk { return None; }
      var t := Token(attempt.user, jti, attempt.tokenVersion, now / 1000 + lifetime);
      issued := issued[jti := t];
      return Some(t);
    }

    /** Called with the checked token's own claims; fails on a duplicate jti or a deleted user. */
    method Logout(jti: Jti, userId: nat, exp: int) returns (ok: bool)
      requires jti in issued && issued[jti].sub == userId && issued[jti].exp == exp
      modifies this`blacklist, this`loggedOut
      ensures ok <==> jti !in old(blacklist) && userId in users
      ensures ok ==>
        blacklist == old(blacklist)[jti := Block(userId, exp * 1000)] && loggedOut == old(loggedOut) + {jti}
      ensures !ok ==> blacklist == old(blacklist) && loggedOut == old(loggedOut)
      ensures View() == Step(old(View()), Call.Logout(jti))
    {
      if jti in blacklist || userId !in users { return false; }
      blacklist := blacklist[jti := Block(userId, exp * 1000)];
      loggedOut := loggedOut + {jti};
      return true;
    }

    method Blocked(jti: Jti, now: Millis) returns (blocked: bool)
      ensures blocked <==> IsBlocked(blacklist, jti, now)
      ensures blocked <==> jti in blacklist && now <= blacklist[jti].expiresAt
    {
      if jti !in blacklist { return false; }
      if blacklist[jti].expiresAt < now { return false; }
      return true;
    }

    method PruneExpiredBlacklist(now: Millis)
      requires now == clock
      modifies this`blacklist
      ensures View() == Step(old(View()), Prune)
      ensures forall j :: j in blacklist <==> j in old(blacklist) && now <= old(blacklist)[j].expiresAt
      ensures forall j :: j in blacklist ==> blacklist[j] == old(blacklist)[j]
      ensures forall j :: j in old(blacklist) && j !in blacklist ==> !IsBlocked(old(blacklist), j, now)
      ensures forall j, later :: now <= later ==>
          (IsBlocked(blacklist, j, later) <==> IsBlocked(old(blacklist), j, later))
    {
      var expired := set j | j in blacklist && blacklist[j].expiresAt < now;
      blacklist := blacklist - expired;
      assert blacklist == PruneExpired(old(blacklist), now);
    }

    /** The expiry check of the strategy, then its validate. */
    method Validate(token: Token, now: Millis) returns (verdict: Verdict)
      ensures verdict == Check(View(), token, now)
      ensures verdict.Accepted? ==> token.sub in users && verdict.user == users[token.sub]
      ensures verdict.Accepted? <==>
        && now < token.exp * 1000 && !IsBlocked(blacklist, token.jti, now)
        && token.sub in users && users[token.sub].tokenVersion == token.tokenVersion
      ensures verdict == UserNotFound <==>
        now < token.exp * 1000 && !IsBlocked(blacklist, token.jti, now) && token.sub !in users
      ensures verdict == Unauthorized <==>
        || now >= token.exp * 1000
        || (token.jti in blacklist && now <= blacklist[token.jti].expiresAt)
        || (token.sub in users && users[token.sub].tokenVersion != token.tokenVersion)
    {
      if now / 1000 >= token.exp { return Unauthorized; }
      var blocked := Blocked(token.jti, now);
      if blocked { return Unauthorized; }
      if token.sub !in users { return UserNotFound; }
      var user := users[token.sub];
      if user.tokenVersion != token.tokenVersion { return Unauthorized; }
      return Accepted(user);
    }

    /** A new user has the plain role and version 1; a taken address is refused. */
    method Register(email: string, hash: string) returns (id: Option<nat>)
      requires nextUser !in users
      modifies this`users, this`nextUser
      ensures id.None? <==> exists u :: u in old(users) && old(users)[u].email == email
      ensures id.None? ==> View() == old(View())
      ensures id.Some? ==>
        && id.value == old(nextUser) && users == old(users)[id.value := User(email, hash, UserRole, 1)]
        && View() == Step(old(View()), CreateUser(email, hash))
    {
      if !EmailFree(users, email) { return None; }
      id := Some(nextUser);
      users := users[nextUser := User(email, hash, UserRole, 1)];
      nextUser := nextUser + 1;
    }

    /** The password alone changes; sessions stay valid. */
    method ChangePassword(id: nat, hash: string) returns (found: bool)
      modifies this`users
      ensures found <==> id in old(users)
      ensures View() == if found then Step(old(View()), UpdatePassword(id, hash)) else old(View())
      ensures found ==> users == old(users)[id := old(users)[id].(passwordHash := hash)]
    {
      if id !in users { return false; }
      users := users[id := users[id].(passwordHash := hash)];
      return true;
    }

    /** One statement, which increments the column as it is. */
    method RevokeAllSessions(id: nat) returns (found: bool)
      modifies this`users
      ensures found <==> id in old(users)
      ensures View() == if found then Step(old(View()), RevokeAll(id)) else old(View())
      ensures found ==>
        users == old(users)[id := old(users)[id].(tokenVersion := old(users)[id].tokenVersion + 1)]
      ensures forall token: Token, now ::
                found && token.sub == id && token.tokenVersion == old(users)[id].tokenVersion ==>
                  !Check(View(), token, now).Accepted?
    {
      if id !in users { return false; }
      users := users[id := users[id].(tokenVersion := users[id].tokenVersion + 1)];
      return true;
    }

    /** `update` and `setRole` up to their save: the user as read, changed. */
    method ReadForEdit(id: nat, change: Change) returns (edit: Option<nat>)
      modifies this`edits, this`nextEdit
      ensures edit.Some? <==> id in users
      ensures View() == if edit.Some? then Step(old(View()), BeginEdit(id, change)) else old(View())
      ensures edit.Some? ==>
        && edit.value in edits && edits[edit.value].user == id
        && edits[edit.value].loaded == None
        && edits[edit.value].entity == (match change
                                        case NewRole(role) => users[id].(role := role)
                                        case NewEmail(email) => users[id].(email := email)
                                        case Nothing => users[id])
    {
      if id !in users { return None; }
      var user := users[id];
      match change {
        case NewRole(role) => user := user.(role := role);
        case NewEmail(email) => user := user.(email := email);
        case Nothing =>
      }
      edit := Some(nextEdit);
      edits := edits[nextEdit := Edit(id, user, None)];
      nextEdit := nextEdit + 1;
    }

    /** The save's first half; without a row it fails. */
    method LoadForSave(e: nat) returns (found: bool)
      requires e in edits && edits[e].loaded.None?
      modifies this`edits
      ensures found <==> old(edits)[e].user in users
      ensures View() == Step(old(View()), LoadEdit(e))
    {
      var edit := edits[e];
      if edit.user !in users {
        edits := edits - {e};
        return false;
      }
      edits := edits[e := edit.(loaded := Some(users[edit.user]))];
      return true;
    }

    /** The save's second half. On a row that is still as loaded it leaves the entity; what it
        read and does not find in the loaded row, the version included, it writes back. When
        the row is gone it touches nothing and returns all the same. */
    method Save(e: nat) returns (result: SaveResult)
      requires e in edits && edits[e].loaded.Some?
      modifies this`edits, this`users
      ensures result == NoRow <==> old(edits)[e].user !in old(users)
      ensures result == Written <==> EditStored(old(users), old(edits)[e])
      ensures result == AddressTaken <==>
        var edit := old(edits)[e];
        && edit.user in old(users)
        && var email := if edit.entity.email != edit.loaded.value.email then edit.entity.email
                        else old(users)[edit.user].email;
        exists u :: u in old(users) && u != edit.user && old(users)[u].email == email
      ensures View() == Step(old(View()), WriteEdit(e))
      ensures result != Written ==> users == old(users)
      ensures result == Written ==>
        var edit := old(edits)[e];
        && users.Keys == old(users).Keys && (forall u :: u in users && u != edit.user ==> users[u] == old(users)[u])
        && users[edit.user].passwordHash == old(users)[edit.user].passwordHash
        && var row, entity, loaded := old(users)[edit.user], edit.entity, edit.loaded.value;
        && users[edit.user].email == (if entity.email != loaded.email then entity.email else row.email)
        && users[edit.user].role == (if entity.role != loaded.role then entity.role else row.role)
        && users[edit.user].tokenVersion
           == (if entity.tokenVersion != loaded.tokenVersion then entity.tokenVersion else row.tokenVersion)
        && (old(users)[edit.user] == edit.loaded.value ==>
              users[edit.user] == edit.entity.(passwordHash := users[edit.user].passwordHash))
    {
      var edit := edits[e];
      edits := edits - {e};
      if edit.user !in users { return NoRow; }
      var row, entity, loaded := users[edit.user], edit.entity, edit.loaded.value;
      if entity.email != loaded.email { row := row.(email := entity.email); }
      if entity.role != loaded.role { row := row.(role := entity.role); }
      if entity.tokenVersion != loaded.tokenVersion { row := row.(tokenVersion := entity.tokenVersion); }
      var others := users - {edit.user};
      assert forall u :: u in others <==> u in users && u != edit.user;
      if !EmailFree(others, row.email) { return AddressTaken; }
      assert forall u :: u in users && u != edit.user ==> u in others && users[u].email != row.email;
      users := users[edit.user := row];
      return Written;
    }

    /** referenced: the user has orders, payments, shipments or invoices, whose foreign keys
        make the database refuse; this model does not hold those tables. Otherwise the
        user's blacklist rows go with it. */
    method RemoveUser(id: nat, referenced: bool) returns (removed: Removal)
      modifies this`users, this`blacklist
      ensures removed == NotFound <==> id !in old(users)
      ensures removed == Refused <==> id in old(users) && referenced
      ensures View() == if removed == Removed then Step(old(View()), Remove(id)) else old(View())
      ensures removed == Removed ==>
        && users == old(users) - {id}
        && (forall j :: j in blacklist <==> j in old(blacklist) && old(blacklist)[j].userId != id)
        && (forall j :: j in blacklist ==> blacklist[j] == old(blacklist)[j])
    {
      if id !in users { return NotFound; }
      if referenced { return Refused; }
      users := users - {id};
      blacklist := blacklist - set j | j in blacklist && blacklist[j].userId == id;
      assert blacklist == Cascade(old(blacklist), id);
      return Removed;
    }
  }
}
