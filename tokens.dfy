/** Single-use expiring tokens: the invite token an admin issues and a new
    staff member redeems, and the password-reset token a user requests and
    redeems. Each is looked up by its text, refused when used or past its
    expiry, and flipped to used once redeemed. The bcrypt hash of the new
    password, the random bytes and the clock are inputs. */
module Tokens {
  import opened Text
  import opened Records

  const MsPerDay := 86400000

  /** `addDays(new Date(), 7)`, with every day 24 hours long. */
  const InviteLifetime := 7 * 86400000

  /** `addHours(new Date(), 1)`. */
  const ResetLifetime := 3600000

  const InviteBytes := 20
  const ResetBytes := 24

  /** `!(t.used || t.expiresAt < now)`: a token expiring this very
      millisecond is still accepted. */
  predicate Live(used: bool, expiresAt: int, now: int) {
    !used && !(expiresAt < now)
  }

  // ---------------------------------------------------------------------
  // Links

  const InvitePath := "/auth/invite/accept?token="
  const ResetPath := "/auth/password-reset/accept?token="

  /** The application's base URL, the page's path and the token, the token
      inserted as it is. */
  function Link(base: string, path: string, token: string): (r: string)
    ensures |r| == |base| + |path| + |token|
    ensures r[..|base|] == base && r[|base|..|base| + |path|] == path
    ensures r[|base| + |path|..] == token
  {
    base + path + token
  }

  /** The token can be read back from the link, so two links on the same
      page are equal exactly when their tokens are. */
  lemma LinkInjective(base: string, path: string, t1: string, t2: string)
    ensures Link(base, path, t1) == Link(base, path, t2) <==> t1 == t2
  {
    if Link(base, path, t1) == Link(base, path, t2) {
      assert t1 == Link(base, path, t1)[|base| + |path|..];
    }
  }

  /** A token from `n` random bytes is `2n` lower-case hex digits, and
      different bytes give different tokens. */
  lemma TokenText(a: seq<Byte>, b: seq<Byte>)
    ensures |Hex(a)| == 2 * |a| && forall i :: 0 <= i < |Hex(a)| ==> IsHexDigit(Hex(a)[i])
    ensures Hex(a) == Hex(b) <==> a == b
  {
    if Hex(a) == Hex(b) {
      HexInjective(a, b);
    }
  }

  // ---------------------------------------------------------------------
  // Invites

  /** The stored invite: the token from the random bytes, the inviting
      admin's clinic and id, seven days of validity, not used. */
  function NewInvite(id: string, bytes: seq<Byte>, email: string, role: string, clinicId: string,
                     invitedBy: string, now: int): (r: InviteToken)
    ensures r.token == Hex(bytes) && r.email == email && r.role == role
    ensures r.clinicId == clinicId && r.invitedBy == invitedBy
    ensures r.expiresAt == now + InviteLifetime && !r.used
    ensures Live(r.used, r.expiresAt, now + InviteLifetime) && !Live(r.used, r.expiresAt, now + InviteLifetime + 1)
  {
    InviteToken(id, Hex(bytes), email, role, clinicId, invitedBy, now + InviteLifetime, false)
  }

  /** `inviteToken.findUnique({ where: { token } })`. */
  function InviteByToken(invites: seq<InviteToken>, token: string): (r: Option<InviteToken>)
    ensures r.Some? ==> r.value in invites && r.value.token == token
    ensures r.None? <==> forall t :: t in invites ==> t.token != token
  {
    if invites == [] then None
    else if invites[0].token == token then Some(invites[0])
    else
      assert forall t :: t in invites ==> t == invites[0] || t in invites[1..];
      InviteByToken(invites[1..], token)
  }

  /** `inviteToken.update({ where: { id }, data: { used: true } })`. */
  function MarkInviteUsed(invites: seq<InviteToken>, id: string): (r: seq<InviteToken>)
    ensures |r| == |invites|
    ensures forall i :: 0 <= i < |r| ==>
              r[i] == if invites[i].id == id then invites[i].(used := true) else invites[i]
  {
    seq(|invites|, i requires 0 <= i < |invites| =>
      if invites[i].id == id then invites[i].(used := true) else invites[i])
  }

  /** Looking a token up after its row was marked used finds it used. */
  lemma {:induction false} InviteUsedAfterMark(invites: seq<InviteToken>, token: string)
    requires InviteByToken(invites, token).Some?
    ensures InviteByToken(MarkInviteUsed(invites, InviteByToken(invites, token).value.id), token)
            == Some(InviteByToken(invites, token).value.(used := true))
  {
    var id := InviteByToken(invites, token).value.id;
    if invites[0].token != token {
      var tail := MarkInviteUsed(invites, id)[1..];
      if invites[0].id == id {
        assert tail == MarkInviteUsed(invites[1..], id);
      } else {
        assert tail == MarkInviteUsed(invites[1..], id);
      }
      InviteUsedAfterMark(invites[1..], token);
    }
  }

  datatype AcceptRequest = AcceptRequest(
    token: Option<string>, firstName: Option<string>, lastName: Option<string>, password: Option<string>)

  /** The account an accepted invite creates: the invite's email, role and
      clinic, the given names and hashed password, active and not yet
      verified. */
  function InvitedUser(id: string, invite: InviteToken, firstName: string, lastName: string, hashed: string)
    : (r: User)
    ensures r.email == invite.email && r.role == invite.role && r.clinicId == invite.clinicId
    ensures r.firstName == firstName && r.lastName == lastName && r.password == Some(hashed)
    ensures r.isActive && !r.emailVerified
  {
    User(id, invite.email, Some(hashed), firstName, lastName, None, invite.role, invite.clinicId, true, false)
  }

  /** What accepting an invite does to the user and invite tables, and its
      status: 400 for a missing field or an unknown, used or expired token;
      500 when the user cannot be created (the token's clinic is empty, so
      the clinic transaction refuses to start, or the insert is rejected);
      otherwise 200, one user more and the token used. `createFails` is the
      database's answer to the insert. */
  function InviteAcceptance(users: seq<User>, invites: seq<InviteToken>, req: AcceptRequest, now: int,
                            hashed: string, newUserId: string, createFails: bool)
    : (r: (int, seq<User>, seq<InviteToken>))
    ensures r.0 == 200 || r.0 == 400 || r.0 == 500
    ensures r.0 != 200 ==> r.1 == users && r.2 == invites
    ensures !(Truthy(req.token) && Truthy(req.firstName) && Truthy(req.lastName) && Truthy(req.password)) ==>
              r.0 == 400
    ensures r.0 == 200 ==>
              Truthy(req.token) && Truthy(req.firstName) && Truthy(req.lastName) &&
              InviteByToken(invites, req.token.value).Some? &&
              var invite := InviteByToken(invites, req.token.value).value;
              Live(invite.used, invite.expiresAt, now) &&
              r.1 == users + [InvitedUser(newUserId, invite, req.firstName.value, req.lastName.value, hashed)] &&
              r.2 == MarkInviteUsed(invites, invite.id)
  {
    if !(Truthy(req.token) && Truthy(req.firstName) && Truthy(req.lastName) && Truthy(req.password)) then
      (400, users, invites)
    else
      match InviteByToken(invites, req.token.value)
      case None => (400, users, invites)
      case Some(invite) =>
        if !Live(invite.used, invite.expiresAt, now) then (400, users, invites)
        else if invite.clinicId == "" || createFails then (500, users, invites)
        else
          (200, users + [InvitedUser(newUserId, invite, req.firstName.value, req.lastName.value, hashed)],
           MarkInviteUsed(invites, invite.id))
  }

  /** An invite cannot be redeemed twice: whatever the second request's
      names, password, time or database answer, the same token is refused
      with 400 and nothing changes. */
  lemma InviteSingleUse(users: seq<User>, invites: seq<InviteToken>, req: AcceptRequest, now: int,
                        hashed: string, newUserId: string, createFails: bool,
                        req2: AcceptRequest, now2: int, hashed2: string, newUserId2: string, createFails2: bool)
    requires InviteAcceptance(users, invites, req, now, hashed, newUserId, createFails).0 == 200
    requires req2.token == req.token
    ensures var (_, users1, invites1) := InviteAcceptance(users, invites, req, now, hashed, newUserId, createFails);
            InviteAcceptance(users1, invites1, req2, now2, hashed2, newUserId2, createFails2) == (400, users1, invites1)
  {
    InviteUsedAfterMark(invites, req.token.value);
  }

  /** A failed user insert leaves the token unused, so the invite can be
      tried again. */
  lemma FailedAcceptKeepsToken(users: seq<User>, invites: seq<InviteToken>, req: AcceptRequest, now: int,
                               hashed: string, newUserId: string)
    requires Truthy(req.token) && Truthy(req.firstName) && Truthy(req.lastName) && Truthy(req.password)
    requires InviteByToken(invites, req.token.value).Some?
    requires var t := InviteByToken(invites, req.token.value).value; Live(t.used, t.expiresAt, now) && t.clinicId != ""
    ensures InviteAcceptance(users, invites, req, now, hashed, newUserId, true) == (500, users, invites)
    ensures InviteAcceptance(users, invites, req, now, hashed, newUserId, false).0 == 200
  {
  }

  // ---------------------------------------------------------------------
  // Password resets

  /** The stored reset token: the token from the random bytes, the user's
      id and clinic, one hour of validity, not used. */
  function NewReset(id: string, bytes: seq<Byte>, user: User, now: int): (r: ResetToken)
    ensures r.token == Hex(bytes) && r.userId == user.id && r.clinicId == user.clinicId
    ensures r.expiresAt == now + ResetLifetime && !r.used
  {
    ResetToken(id, Hex(bytes), user.id, user.clinicId, now + ResetLifetime, false)
  }

  /** `passwordResetToken.findUnique({ where: { token } })`. */
  function ResetByToken(resets: seq<ResetToken>, token: string): (r: Option<ResetToken>)
    ensures r.Some? ==> r.value in resets && r.value.token == token
    ensures r.None? <==> forall t :: t in resets ==> t.token != token
  {
    if resets == [] then None
    else if resets[0].token == token then Some(resets[0])
    else
      assert forall t :: t in resets ==> t == resets[0] || t in resets[1..];
      ResetByToken(resets[1..], token)
  }

  function MarkResetUsed(resets: seq<ResetToken>, id: string): (r: seq<ResetToken>)
    ensures |r| == |resets|
    ensures forall i :: 0 <= i < |r| ==>
              r[i] == if resets[i].id == id then resets[i].(used := true) else resets[i]
  {
    seq(|resets|, i requires 0 <= i < |resets| =>
      if resets[i].id == id then resets[i].(used := true) else resets[i])
  }

  lemma {:induction false} ResetUsedAfterMark(resets: seq<ResetToken>, token: string)
    requires ResetByToken(resets, token).Some?
    ensures ResetByToken(MarkResetUsed(resets, ResetByToken(resets, token).value.id), token)
            == Some(ResetByToken(resets, token).value.(used := true))
  {
    var id := ResetByToken(resets, token).value.id;
    if resets[0].token != token {
      assert MarkResetUsed(resets, id)[1..] == MarkResetUsed(resets[1..], id);
      ResetUsedAfterMark(resets[1..], token);
    }
  }

  /** `user.update({ where: { id }, data: { password } })`: that user's
      password and nothing else. */
  function WithPassword(users: seq<User>, id: string, hashed: string): (r: seq<User>)
    ensures |r| == |users|
    ensures forall i :: 0 <= i < |r| ==>
              r[i] == if users[i].id == id then users[i].(password := Some(hashed)) else users[i]
  {
    seq(|users|, i requires 0 <= i < |users| =>
      if users[i].id == id then users[i].(password := Some(hashed)) else users[i])
  }

  /** What redeeming a reset token does, for both the accept and the
      confirm route: 400 for a missing field or an unknown, used or expired
      token; 500 when the token's user is gone (the update throws before
      anything is written); otherwise 200, that user's password replaced
      and the token used. */
  function ResetConsumption(users: seq<User>, resets: seq<ResetToken>, token: Option<string>,
                            password: Option<string>, now: int, hashed: string)
    : (r: (int, seq<User>, seq<ResetToken>))
    ensures r.0 == 200 || r.0 == 400 || r.0 == 500
    ensures r.0 != 200 ==> r.1 == users && r.2 == resets
    ensures !(Truthy(token) && Truthy(password)) ==> r.0 == 400
    ensures r.0 == 200 ==>
              Truthy(token) && ResetByToken(resets, token.value).Some? &&
              var t := ResetByToken(resets, token.value).value;
              Live(t.used, t.expiresAt, now) && UserById(users, t.userId).Some? &&
              r.1 == WithPassword(users, t.userId, hashed) && r.2 == MarkResetUsed(resets, t.id)
  {
    if !(Truthy(token) && Truthy(password)) then (400, users, resets)
    else
      match ResetByToken(resets, token.value)
      case None => (400, users, resets)
      case Some(t) =>
        if !Live(t.used, t.expiresAt, now) then (400, users, resets)
        else if UserById(users, t.userId).None? then (500, users, resets)
        else (200, WithPassword(users, t.userId, hashed), MarkResetUsed(resets, t.id))
  }

  /** A reset token cannot be redeemed twice. */
  lemma ResetSingleUse(users: seq<User>, resets: seq<ResetToken>, token: Option<string>,
                       password: Option<string>, now: int, hashed: string,
                       password2: Option<string>, now2: int, hashed2: string)
    requires ResetConsumption(users, resets, token, password, now, hashed).0 == 200
    ensures var (_, users1, resets1) := ResetConsumption(users, resets, token, password, now, hashed);
            ResetConsumption(users1, resets1, token, password2, now2, hashed2) == (400, users1, resets1)
  {
    ResetUsedAfterMark(resets, token.value);
  }

  /** A successful reset changes the password of the token's user only:
      every other user row, and every other field of that row, is kept. */
  lemma ResetTouchesOnlyOwner(users: seq<User>, resets: seq<ResetToken>, token: Option<string>,
                              password: Option<string>, now: int, hashed: string, i: nat)
    requires ResetConsumption(users, resets, token, password, now, hashed).0 == 200
    requires i < |users|
    ensures var users1 := ResetConsumption(users, resets, token, password, now, hashed).1;
            var owner := ResetByToken(resets, token.value).value.userId;
            |users1| == |users| &&
            (users[i].id != owner ==> users1[i] == users[i]) &&
            (users[i].id == owner ==> users1[i] == users[i].(password := Some(hashed)))
  {
  }

  /** The request for a reset: a token is stored only when an email is
      given and a user has it; the caller learns nothing either way. */
  function ResetIssue(users: seq<User>, resets: seq<ResetToken>, email: Option<string>,
                      bytes: seq<Byte>, now: int, newId: string)
    : (r: seq<ResetToken>)
    ensures !Truthy(email) || UserByEmail(users, email.value).None? ==> r == resets
    ensures Truthy(email) && UserByEmail(users, email.value).Some? ==>
              r == resets + [NewReset(newId, bytes, UserByEmail(users, email.value).value, now)]
  {
    if !Truthy(email) then resets
    else
      match UserByEmail(users, email.value)
      case None => resets
      case Some(user) => resets + [NewReset(newId, bytes, user, now)]
  }

  /** A freshly issued token can be redeemed within the hour. */
  lemma IssuedTokenRedeemable(users: seq<User>, resets: seq<ResetToken>, email: string,
                              bytes: seq<Byte>, now: int, newId: string, password: string,
                              later: int, hashed: string)
    requires email != "" && UserByEmail(users, email).Some? && |bytes| == ResetBytes
    requires forall t :: t in resets ==> t.token != Hex(bytes)
    requires now <= later <= now + ResetLifetime && password != ""
    ensures var resets1 := ResetIssue(users, resets, Some(email), bytes, now, newId);
            ResetConsumption(users, resets1, Some(Hex(bytes)), Some(password), later, hashed).0 == 200
  {
    var resets1 := ResetIssue(users, resets, Some(email), bytes, now, newId);
    var issued := NewReset(newId, bytes, UserByEmail(users, email).value, now);
    assert resets1 == resets + [issued];
    FirstTokenMatch(resets, issued);
    assert UserById(users, issued.userId).Some? by {
      var u := UserByEmail(users, email).value;
      assert u in users && u.id == issued.userId;
    }
  }

  /** A token not yet in the table is found in the row just appended. */
  lemma {:induction false} FirstTokenMatch(resets: seq<ResetToken>, issued: ResetToken)
    requires forall t :: t in resets ==> t.token != issued.token
    ensures ResetByToken(resets + [issued], issued.token) == Some(issued)
  {
    if resets != [] {
      assert (resets + [issued])[1..] == resets[1..] + [issued];
      FirstTokenMatch(resets[1..], issued);
    }
  }
}
