/** routes/users.js: password login, OTP verification (registration, login,
    password reset), password change, profile update, rank reset, TOTP
    activation and bulk deletion. bcrypt, `genAuthToken`, `verifyOtp` and
    speakeasy are parameters; the users collection is a field of a store. */
module Users {
  import opened Base
  import opened Accounts
  import opened Ranks

  /** bcrypt as the routes use it: `hash(password, salt)` and
      `compare(password, hash)`. A call with an `undefined` argument throws;
      the handlers below check for that before calling. */
  datatype Hasher = Hasher(hash: (string, string) -> string, compare: (string, string) -> bool)

  /** A bcrypt that behaves: a hash is never empty and matches the password
      it was made from. */
  ghost predicate Sound(h: Hasher) {
    forall p, salt :: h.hash(p, salt) != "" && h.compare(p, h.hash(p, salt))
  }

  /** `{ user, token }`: the user document and `user.genAuthToken()`. */
  datatype Session = Session(user: User, token: string)

  // ---------------------------------------------------------------- login

  datatype LoginRequest = LoginRequest(email: Option<string>, username: Option<string>, password: Option<string>)

  /** The response and, for an admin, the `admin_login` activity entry. */
  datatype LoginResult = LoginResult(response: Response<Session>, audit: Option<Activity>)

  const GoogleAccountMessage: string := "This user signed up via Google. Use Google login."

  function AdminLoginAudit(u: User): Activity {
    Activity(u.id, "admin_login", None, true, map["via" := Str("password"), "requires2FA" := Bool(u.mfa)])
  }

  /** `POST /login`. `validationError` is the message `validateLogin`
      reports, if any. */
  function Login(users: seq<User>, req: LoginRequest, validationError: Option<string>,
                 hasher: Hasher, sign: User -> string): (r: LoginResult)
    ensures validationError.Some? ==> r == LoginResult(Fail(400, validationError.value), None)
    ensures var found := FindByEmailOrUsername(users, req.email, req.username);
            validationError.None? && found.None? ==> r == LoginResult(Fail(400, "User not found"), None)
    ensures var found := FindByEmailOrUsername(users, req.email, req.username);
            validationError.None? && found.Some? && !Present(found.value.password) ==>
              r == LoginResult(Fail(400, GoogleAccountMessage), None)
    ensures var found := FindByEmailOrUsername(users, req.email, req.username);
            r.response.Ok? <==> validationError.None? && found.Some? && Present(found.value.password)
                                && req.password.Some?
                                && hasher.compare(req.password.value, found.value.password.value)
    ensures var found := FindByEmailOrUsername(users, req.email, req.username);
            r.response.Ok? ==> r.response.value == Session(found.value, sign(found.value))
    ensures var found := FindByEmailOrUsername(users, req.email, req.username);
            validationError.None? && found.Some? && Present(found.value.password) && req.password.Some?
            && !hasher.compare(req.password.value, found.value.password.value) ==>
              r == LoginResult(Fail(400, "Invalid password"), None)
    ensures r.audit.Some? <==> r.response.Ok? && r.response.value.user.isAdmin
    ensures r.audit.Some? ==> r.audit.value == AdminLoginAudit(r.response.value.user)
  {
    if validationError.Some? then LoginResult(Fail(400, validationError.value), None)
    else
      var found := FindByEmailOrUsername(users, req.email, req.username);
      if found.None? then LoginResult(Fail(400, "User not found"), None)
      else
        var u := found.value;
        if !Present(u.password) then LoginResult(Fail(400, GoogleAccountMessage), None)
        else if req.password.None? then LoginResult(Fail(500, "Internal server error"), None)
        else if !hasher.compare(req.password.value, u.password.value) then
          LoginResult(Fail(400, "Invalid password"), None)
        else
          LoginResult(Ok(Session(u, sign(u))), if u.isAdmin then Some(AdminLoginAudit(u)) else None)
  }

  /** Once a user's stored hash is replaced by a hash of `p` (an OTP
      password reset or a password change), a password login with `p`
      under the same e-mail or username succeeds and returns the saved
      user. */
  lemma LoginAcceptsNewPassword(users: seq<User>, email: Option<string>, username: Option<string>,
                                p: string, salt: string, hasher: Hasher, sign: User -> string)
    requires IdsUnique(users) && Sound(hasher)
    requires FindByEmailOrUsername(users, email, username).Some?
    ensures var u := FindByEmailOrUsername(users, email, username).value;
            var v := u.(password := Some(hasher.hash(p, salt)));
            Login(Saved(users, v), LoginRequest(email, username, Some(p)), None, hasher, sign).response
              == Ok(Session(v, sign(v)))
  {
    var u := FindByEmailOrUsername(users, email, username).value;
    var v := u.(password := Some(hasher.hash(p, salt)));
    SavedKeepsFirstByEmailOrUsername(users, email, username, v);
    assert hasher.hash(p, salt) != "" && hasher.compare(p, hasher.hash(p, salt));
  }

  // ------------------------------------------------------ OTP verification

  const RegisterVerification: string := "register-verification"
  const LoginVerification: string := "login-verification"
  const ResetPassword: string := "reset-password"
  const InvalidTypeMessage: string :=
    "Invalid type. Must be 'register-verification', 'login-verification' or 'reset-password'"

  /** The body of `POST /verify-otp`. */
  datatype OtpRequest = OtpRequest(
    username: Option<string>,
    email: Option<string>,
    password: Option<string>,
    referredBy: Option<string>,
    kind: Option<string>,
    otp: Option<string>)

  /** The document `new User({ username, email, password, referredBy,
      isAdmin: false })` saves. The schema's defaults are not part of this
      model; neutral values stand in for them. */
  function NewUser(id: string, username: string, email: string, hash: string, referredBy: Option<string>): (u: User)
    ensures u.id == id && u.username == username && u.email == email
    ensures u.password == Some(hash) && !u.isAdmin && !u.mfa
  {
    User(id, email, username, Some(hash), false, false, "", false, 0, 0, None, referredBy, [], map[])
  }

  /** Which check `change-password` makes before setting the new password. */
  datatype PasswordGate = Forbidden | CheckCurrent | SkipCheck

  /** `targetUserId = id || req.user._id`, then: a non-admin aiming at
      someone else is refused; an admin aiming at someone else skips the
      current-password check; anyone aiming at themselves must pass it. */
  function ChangePasswordGate(caller: User, id: Option<string>): (g: PasswordGate)
    ensures var target := if Present(id) then id.value else caller.id;
            (g == Forbidden <==> !caller.isAdmin && target != caller.id)
            && (g == SkipCheck <==> caller.isAdmin && target != caller.id)
    ensures !caller.isAdmin ==> g != SkipCheck
  {
    var target := if Present(id) then id.value else caller.id;
    if !caller.isAdmin && caller.id != target then Forbidden
    else if !caller.isAdmin || target == caller.id then CheckCurrent
    else SkipCheck
  }

  /** The self-or-admin check keyed by e-mail (`update-profile`,
      `reset-rank-to-auto`, `verifyToken`): an admin, or the owner of the
      e-mail. */
  predicate MayActOn(caller: User, email: Option<string>) {
    caller.isAdmin || email == Some(caller.email)
  }

  // ------------------------------------------------------- profile update

  /** The fields of an `update-profile` body other than `email` and `rank`
      (`...rest`). Fields this model does not interpret go in `other`. */
  datatype ProfilePatch = ProfilePatch(
    username: Option<string>,
    referredBy: Option<string>,
    customRankings: Option<seq<Ranking>>,
    isAdmin: Option<bool>,
    manualRank: Option<bool>,
    deposit: Option<int>,
    interest: Option<int>,
    mfa: Option<bool>,
    password: Option<string>,
    profileImage: Option<string>,
    other: map<string, string>)

  /** The rewriting of `rest` before any automatic rank: a non-admin's
      `isAdmin` is dropped, an uploaded file sets `profileImage`, and a
      `rank` that differs from the stored one is applied with
      `manualRank = true`. The second component is that explicit rank. */
  function ProfileChanges(callerIsAdmin: bool, u: User, rank: Option<string>, rest: ProfilePatch,
                          file: Option<string>): (c: (ProfilePatch, Option<string>))
    ensures c.0.isAdmin == (if callerIsAdmin then rest.isAdmin else None)
    ensures c.0.profileImage == (if file.Some? then file else rest.profileImage)
    ensures c.1.Some? <==> rank.Some? && rank.value != u.rank
    ensures c.1.Some? ==> c.1 == rank && c.0.manualRank == Some(true)
    ensures c.1.None? ==> c.0.manualRank == rest.manualRank
    ensures c.0.(isAdmin := rest.isAdmin, profileImage := rest.profileImage, manualRank := rest.manualRank) == rest
  {
    var p1 := if !callerIsAdmin && rest.isAdmin.Some? then rest.(isAdmin := None) else rest;
    var p2 := if file.Some? then p1.(profileImage := file) else p1;
    if rank.Some? && rank.value != u.rank then (p2.(manualRank := Some(true)), rank) else (p2, None)
  }

  /** The automatic rank applies when the body sets `deposit` or `interest`,
      names no `rank`, and the stored rank was not set by hand. */
  predicate NeedsAutoRank(u: User, rank: Option<string>, rest: ProfilePatch) {
    (rest.deposit.Some? || rest.interest.Some?) && rank.None? && !u.manualRank
  }

  /** `user.set(rest)` with the rank the handler settled on: every field
      the body supplies overrides the stored one, including the username,
      the referrer and the custom ranking table; only the id and the e-mail
      (taken out of the body as the lookup key) are kept. */
  function Apply(u: User, p: ProfilePatch, rank: Option<string>): (v: User)
    ensures v.id == u.id && v.email == u.email
    ensures v.username == p.username.GetOr(u.username)
    ensures v.referredBy == (if p.referredBy.Some? then p.referredBy else u.referredBy)
    ensures v.customRankings == p.customRankings.GetOr(u.customRankings)
    ensures v.isAdmin == p.isAdmin.GetOr(u.isAdmin) && v.rank == rank.GetOr(u.rank)
    ensures v.manualRank == p.manualRank.GetOr(u.manualRank) && v.mfa == p.mfa.GetOr(u.mfa)
    ensures v.deposit == p.deposit.GetOr(u.deposit) && v.interest == p.interest.GetOr(u.interest)
    ensures v.password == (if p.password.Some? then p.password else u.password)
    ensures v.profileImage == (if p.profileImage.Some? then p.profileImage else u.profileImage)
    ensures v.other.Keys == u.other.Keys + p.other.Keys
    ensures forall k :: k in v.other ==> v.other[k] == (if k in p.other then p.other[k] else u.other[k])
  {
    u.(username := p.username.GetOr(u.username),
       referredBy := if p.referredBy.Some? then p.referredBy else u.referredBy,
       customRankings := p.customRankings.GetOr(u.customRankings),
       isAdmin := p.isAdmin.GetOr(u.isAdmin),
       rank := rank.GetOr(u.rank),
       manualRank := p.manualRank.GetOr(u.manualRank),
       deposit := p.deposit.GetOr(u.deposit),
       interest := p.interest.GetOr(u.interest),
       mfa := p.mfa.GetOr(u.mfa),
       password := if p.password.Some? then p.password else u.password,
       profileImage := if p.profileImage.Some? then p.profileImage else u.profileImage,
       other := u.other + p.other)
  }

  /** A profile update by a non-admin never changes the admin flag, whatever
      the body holds. */
  lemma NonAdminKeepsAdminFlag(u: User, rank: Option<string>, rest: ProfilePatch, file: Option<string>,
                               newRank: Option<string>)
    ensures Apply(u, ProfileChanges(false, u, rank, rest, file).0, newRank).isAdmin == u.isAdmin
  {
  }

  /** A profile update can change neither the e-mail nor the id, so the
      updated document is found again under the e-mail it was looked up by. */
  lemma ProfileUpdateKeepsLookup(users: seq<User>, email: Option<string>, p: ProfilePatch, rank: Option<string>)
    requires IdsUnique(users) && FindByEmail(users, email).Some?
    ensures var v := Apply(FindByEmail(users, email).value, p, rank);
            FindByEmail(Saved(users, v), email) == Some(v)
  {
    var u := FindByEmail(users, email).value;
    SavedKeepsFirstByEmail(users, email, Apply(u, p, rank));
  }

  // ------------------------------------------------------------ bulk delete

  /** The filter `DELETE /` builds: `_id $in userIds`, and case-insensitive
      prefix matches on the username and the e-mail. */
  datatype DeleteFilter = DeleteFilter(ids: Option<seq<Json>>, usernamePrefix: Option<string>,
                                       emailPrefix: Option<string>)

  predicate FilterEmpty(f: DeleteFilter) {
    f.ids.None? && f.usernamePrefix.None? && f.emailPrefix.None?
  }

  /** Builds the filter key by key from the body: `userIds` only when it is
      a non-empty array, each prefix only when it is truthy. */
  method BuildDeleteFilter(userIds: Json, usernamePrefix: Option<string>, emailPrefix: Option<string>)
    returns (f: DeleteFilter)
    ensures f.ids.Some? <==> userIds.Arr? && |userIds.items| > 0
    ensures f.ids.Some? ==> f.ids.value == userIds.items
    ensures f.usernamePrefix == (if Present(usernamePrefix) then usernamePrefix else None)
    ensures f.emailPrefix == (if Present(emailPrefix) then emailPrefix else None)
    ensures FilterEmpty(f) <==> !(userIds.Arr? && |userIds.items| > 0) && !Present(usernamePrefix)
                                && !Present(emailPrefix)
  {
    f := DeleteFilter(None, None, None);
    if userIds.Arr? && |userIds.items| > 0 {
      f := f.(ids := Some(userIds.items));
    }
    if Present(usernamePrefix) {
      f := f.(usernamePrefix := usernamePrefix);
    }
    if Present(emailPrefix) {
      f := f.(emailPrefix := emailPrefix);
    }
  }

  /** The keys of the filter, in the order they were added (`filterUsed`). */
  function FilterKeys(f: DeleteFilter): (keys: seq<Json>)
    ensures |keys| == 0 <==> FilterEmpty(f)
  {
    (if f.ids.Some? then [Str("_id")] else [])
    + (if f.usernamePrefix.Some? then [Str("username")] else [])
    + (if f.emailPrefix.Some? then [Str("email")] else [])
  }

  /** A user matches when every condition of the filter holds.
      `prefixMatch(prefix, s)` stands for the case-insensitive regular
      expression `^prefix`. */
  predicate MatchesFilter(f: DeleteFilter, prefixMatch: (string, string) -> bool, u: User) {
    (f.ids.Some? ==> Str(u.id) in f.ids.value)
    && (f.usernamePrefix.Some? ==> prefixMatch(f.usernamePrefix.value, u.username))
    && (f.emailPrefix.Some? ==> prefixMatch(f.emailPrefix.value, u.email))
  }

  /** `deleteMany`: the documents that survive, in their order. */
  function Without(users: seq<User>, doomed: User -> bool): (r: seq<User>)
    ensures forall u :: u in r <==> u in users && !doomed(u)
    ensures KeptInOrder(r, users)
    ensures |r| <= |users|
    ensures IdsUnique(users) ==> IdsUnique(r)
  {
    if |users| == 0 then []
    else
      var rest := Without(users[1..], doomed);
      assert forall u :: u in users[1..] ==> u in users;
      if doomed(users[0]) then rest
      else
        assert IdsUnique(users) ==> forall u :: u in users[1..] ==> u.id != users[0].id;
        [users[0]] + rest
  }

  /** Nothing is removed that the filter does not match, and nothing it
      matches is kept. */
  lemma WithoutExactlyMatching(users: seq<User>, f: DeleteFilter, prefixMatch: (string, string) -> bool, u: User)
    requires u in users
    ensures u in Without(users, (x: User) => MatchesFilter(f, prefixMatch, x)) <==> !MatchesFilter(f, prefixMatch, u)
  {
  }

  // ------------------------------------------------------------------ store

  /** The users collection. */
  class UserStore {
    var users: seq<User>

    ghost predicate Valid()
      reads this
    {
      IdsUnique(users)
    }

    constructor (users: seq<User>)
      requires IdsUnique(users)
      ensures Valid() && this.users == users
    {
      this.users := users;
    }

    /** `POST /verify-otp`. `otpValid(email, otp)` is `verifyOtp`; `salt` is
        what `bcrypt.genSalt(10)` returns; `newId` is the `_id` a new
        document gets; `welcomeMailOk` is false when `welcomeMail` throws
        (after the user is saved). A missing password makes the hash throw,
        and a missing or empty e-mail or username fails the schema's
        required check on save: `500 Server error`. */
    method VerifyOtp(req: OtpRequest, otpValid: (Option<string>, string) -> bool, hasher: Hasher,
                     salt: string, newId: string, welcomeMailOk: bool, sign: User -> string)
      returns (r: Response<Session>)
      requires Valid() && !HasId(users, newId)
      modifies this
      ensures Valid()
      ensures r.Fail? && r.status == 400 ==> users == old(users)
      ensures !Present(req.otp) ==> r == Fail(400, "OTP is required")
      ensures (Present(req.otp) && req.kind != Some(RegisterVerification) && req.kind != Some(LoginVerification)
               && req.kind != Some(ResetPassword)) ==> r == Fail(400, InvalidTypeMessage)
      // registration
      ensures Present(req.otp) && req.kind == Some(RegisterVerification) ==>
                var existing := FindByEmailOrUsername(old(users), req.email, req.username);
                (existing.Some? ==> r == Fail(400, "User already exists, please login"))
                && (existing.None? && !otpValid(req.email, req.otp.value) ==>
                      r == Fail(400, "Invalid or expired OTP"))
                && (existing.None? && otpValid(req.email, req.otp.value) ==>
                      if req.password.None? || !Present(req.email) || !Present(req.username) then
                        r == Fail(500, "Server error") && users == old(users)
                      else
                        var u := NewUser(newId, req.username.value, req.email.value,
                                         hasher.hash(req.password.value, salt), req.referredBy);
                        users == old(users) + [u]
                        && r == (if welcomeMailOk then Ok(Session(u, sign(u))) else Fail(500, "Server error")))
      // OTP login
      ensures Present(req.otp) && req.kind == Some(LoginVerification) ==>
                var found := FindByEmailOrUsername(old(users), req.email, req.username);
                users == old(users)
                && (found.None? ==> r == Fail(400, "User not found, please register"))
                && (found.Some? && !otpValid(Some(found.value.email), req.otp.value) ==>
                      r == Fail(400, "Invalid or expired OTP"))
                && ((found.Some? && otpValid(Some(found.value.email), req.otp.value)
                     && (req.password.None? || found.value.password.None?)) ==> r == Fail(500, "Server error"))
                && ((found.Some? && otpValid(Some(found.value.email), req.otp.value)
                     && req.password.Some? && found.value.password.Some?
                     && !hasher.compare(req.password.value, found.value.password.value)) ==>
                      r == Fail(400, "Invalid password"))
                && (r.Ok? <==> found.Some? && otpValid(Some(found.value.email), req.otp.value)
                               && req.password.Some? && found.value.password.Some?
                               && hasher.compare(req.password.value, found.value.password.value))
                && (r.Ok? ==> r.value == Session(found.value, sign(found.value)))
      // OTP password reset
      ensures Present(req.otp) && req.kind == Some(ResetPassword) ==>
                var found := FindByEmailOrUsername(old(users), req.email, req.username);
                (found.None? ==> r == Fail(400, "User not found, please register"))
                && (found.Some? && !otpValid(Some(found.value.email), req.otp.value) ==>
                      r == Fail(400, "Invalid or expired OTP"))
                && (found.Some? && otpValid(Some(found.value.email), req.otp.value) && req.password.None? ==>
                      r == Fail(500, "Server error") && users == old(users))
                && (r.Ok? <==> found.Some? && otpValid(Some(found.value.email), req.otp.value)
                               && req.password.Some?)
                && (r.Ok? ==>
                      var v := found.value.(password := Some(hasher.hash(req.password.value, salt)));
                      users == Saved(old(users), v) && r.value == Session(v, sign(v)))
    {
      if !Present(req.otp) {
        return Fail(400, "OTP is required");
      }
      var otp := req.otp.value;
      var found := FindByEmailOrUsername(users, req.email, req.username);

      if req.kind == Some(RegisterVerification) {
        if found.Some? {
          return Fail(400, "User already exists, please login");
        }
        if !otpValid(req.email, otp) {
          return Fail(400, "Invalid or expired OTP");
        }
        if req.password.None? || !Present(req.email) || !Present(req.username) {
          return Fail(500, "Server error");
        }
        var u := NewUser(newId, req.username.value, req.email.value,
                         hasher.hash(req.password.value, salt), req.referredBy);
        users := users + [u];
        if !welcomeMailOk {
          return Fail(500, "Server error");
        }
        return Ok(Session(u, sign(u)));
      }

      if req.kind == Some(LoginVerification) {
        if found.None? {
          return Fail(400, "User not found, please register");
        }
        var u := found.value;
        if !otpValid(Some(u.email), otp) {
          return Fail(400, "Invalid or expired OTP");
        }
        if req.password.None? || u.password.None? {
          return Fail(500, "Server error");
        }
        if !hasher.compare(req.password.value, u.password.value) {
          return Fail(400, "Invalid password");
        }
        return Ok(Session(u, sign(u)));
      }

      if req.kind == Some(ResetPassword) {
        if found.None? {
          return Fail(400, "User not found, please register");
        }
        var u := found.value;
        if !otpValid(Some(u.email), otp) {
          return Fail(400, "Invalid or expired OTP");
        }
        if req.password.None? {
          return Fail(500, "Server error");
        }
        var v := u.(password := Some(hasher.hash(req.password.value, salt)));
        SavedKeepsIds(users, v);
        users := Saved(users, v);
        return Ok(Session(v, sign(v)));
      }

      r := Fail(400, InvalidTypeMessage);
    }

    /** `PUT /change-password` for the authenticated `caller`. */
    method ChangePassword(caller: User, id: Option<string>, currentPassword: Option<string>,
                          newPassword: Option<string>, hasher: Hasher, salt: string)
      returns (r: Response<string>)
      requires Valid()
      modifies this
      ensures Valid()
      ensures r.Fail? ==> users == old(users)
      ensures var target := if Present(id) then id.value else caller.id;
              var gate := ChangePasswordGate(caller, id);
              var found := FindById(old(users), target);
              (gate == Forbidden ==> r == Fail(403, "Forbidden"))
              && (gate != Forbidden && found.None? ==> r == Fail(404, "User not found"))
              && ((gate == CheckCurrent && found.Some?
                   && (currentPassword.None? || found.value.password.None?)) ==> r == Fail(500, "Server error"))
              && (gate == CheckCurrent && found.Some? && currentPassword.Some? && found.value.password.Some?
                  && !hasher.compare(currentPassword.value, found.value.password.value) ==>
                    r == Fail(400, "Current password is incorrect"))
              && (r.Ok? <==> gate != Forbidden && found.Some? && newPassword.Some?
                             && (gate == CheckCurrent ==>
                                   currentPassword.Some? && found.value.password.Some?
                                   && hasher.compare(currentPassword.value, found.value.password.value)))
              && (r.Ok? ==> r.value == "Password changed successfully"
                            && users == Saved(old(users),
                                              found.value.(password := Some(hasher.hash(newPassword.value, salt)))))
    {
      var target := if Present(id) then id.value else caller.id;
      var gate := ChangePasswordGate(caller, id);
      if gate == Forbidden {
        return Fail(403, "Forbidden");
      }
      var found := FindById(users, target);
      if found.None? {
        return Fail(404, "User not found");
      }
      var u := found.value;
      if gate == CheckCurrent {
        if currentPassword.None? || u.password.None? {
          return Fail(500, "Server error");
        }
        if !hasher.compare(currentPassword.value, u.password.value) {
          return Fail(400, "Current password is incorrect");
        }
      }
      if newPassword.None? {
        return Fail(500, "Server error");
      }
      var v := u.(password := Some(hasher.hash(newPassword.value, salt)));
      SavedKeepsIds(users, v);
      users := Saved(users, v);
      r := Ok("Password changed successfully");
    }

    /** `PUT /update-profile`: `email` and `rank` from the body, the rest of
        the body, the uploaded file's path, and how the rank lookups of
        `calculateAutoRank` turn out. Also returns the activity entry. */
    method UpdateProfile(caller: User, email: Option<string>, rank: Option<string>, rest: ProfilePatch,
                         file: Option<string>, source: RankSource)
      returns (r: Response<User>, logged: Option<Activity>)
      requires Valid()
      modifies this
      ensures Valid()
      ensures r.Fail? ==> users == old(users) && logged.None?
      ensures FindByEmail(old(users), email).None? ==> r == Fail(404, "User not found")
      ensures FindByEmail(old(users), email).Some? && !MayActOn(caller, email) ==> r == Fail(403, "Forbidden")
      ensures r.Ok? <==> FindByEmail(old(users), email).Some? && MayActOn(caller, email)
      ensures r.Ok? ==>
                var u := FindByEmail(old(users), email).value;
                var c := ProfileChanges(caller.isAdmin, u, rank, rest, file);
                users == Saved(old(users), r.value)
                && (NeedsAutoRank(u, rank, rest) ==>
                      r.value == Apply(u, c.0, Some(r.value.rank))
                      && IsCalculatedRank(rest.deposit.GetOr(u.deposit), Some(u), source, r.value.rank))
                && (!NeedsAutoRank(u, rank, rest) ==> r.value == Apply(u, c.0, c.1))
      ensures r.Ok? ==>
                var adminAction := caller.isAdmin && email != Some(caller.email);
                logged == Some(Activity(caller.id, if adminAction then "admin_update_profile" else "update_profile",
                                        Some(r.value.id), adminAction, map[]))
    {
      var found := FindByEmail(users, email);
      if found.None? {
        return Fail(404, "User not found"), None;
      }
      var u := found.value;
      if !MayActOn(caller, email) {
        return Fail(403, "Forbidden"), None;
      }
      var c := ProfileChanges(caller.isAdmin, u, rank, rest, file);
      var newRank := c.1;
      if NeedsAutoRank(u, rank, rest) {
        var name := CalculateAutoRank(rest.deposit.GetOr(u.deposit), Some(u), source);
        newRank := Some(name);
      }
      var v := Apply(u, c.0, newRank);
      SavedKeepsIds(users, v);
      users := Saved(users, v);
      var adminAction := caller.isAdmin && email != Some(caller.email);
      logged := Some(Activity(caller.id, if adminAction then "admin_update_profile" else "update_profile",
                              Some(v.id), adminAction, map[]));
      r := Ok(v);
    }

    /** `PUT /reset-rank-to-auto`: the rank is recomputed from the stored
        deposit and marked automatic. */
    method ResetRankToAuto(caller: User, email: Option<string>, source: RankSource) returns (r: Response<User>)
      requires Valid()
      modifies this
      ensures Valid()
      ensures r.Fail? ==> users == old(users)
      ensures FindByEmail(old(users), email).None? ==> r == Fail(404, "User not found")
      ensures FindByEmail(old(users), email).Some? && !MayActOn(caller, email) ==> r == Fail(403, "Forbidden")
      ensures r.Ok? <==> FindByEmail(old(users), email).Some? && MayActOn(caller, email)
      ensures r.Ok? ==>
                var u := FindByEmail(old(users), email).value;
                r.value == u.(rank := r.value.rank, manualRank := false)
                && IsCalculatedRank(u.deposit, Some(u), source, r.value.rank)
                && users == Saved(old(users), r.value)
    {
      var found := FindByEmail(users, email);
      if found.None? {
        return Fail(404, "User not found");
      }
      var u := found.value;
      if !MayActOn(caller, email) {
        return Fail(403, "Forbidden");
      }
      var name := CalculateAutoRank(u.deposit, Some(u), source);
      var v := u.(rank := name, manualRank := false);
      SavedKeepsIds(users, v);
      users := Saved(users, v);
      r := Ok(v);
    }

    /** `POST /verifyToken`: turns multi-factor authentication on when
        `totpValid` (speakeasy's TOTP check of the body's token against its
        secret) accepts; nothing else of the user changes. */
    method VerifyTotp(caller: User, email: Option<string>, totpValid: bool) returns (r: Response<string>)
      requires Valid()
      modifies this
      ensures Valid()
      ensures r.Fail? ==> users == old(users)
      ensures FindByEmail(old(users), email).None? ==> r == Fail(400, "Invalid email")
      ensures FindByEmail(old(users), email).Some? && !MayActOn(caller, email) ==> r == Fail(403, "Forbidden")
      ensures FindByEmail(old(users), email).Some? && MayActOn(caller, email) && !totpValid ==>
                r == Fail(500, "Something Went Wrong...")
      ensures r.Ok? <==> FindByEmail(old(users), email).Some? && MayActOn(caller, email) && totpValid
      ensures r.Ok? ==> r.value == "Your Account Multi Factor Authentication is Now on"
                        && users == Saved(old(users), FindByEmail(old(users), email).value.(mfa := true))
    {
      var found := FindByEmail(users, email);
      if found.None? {
        return Fail(400, "Invalid email");
      }
      if !MayActOn(caller, email) {
        return Fail(403, "Forbidden");
      }
      if !totpValid {
        return Fail(500, "Something Went Wrong...");
      }
      var v := found.value.(mfa := true);
      SavedKeepsIds(users, v);
      users := Saved(users, v);
      r := Ok("Your Account Multi Factor Authentication is Now on");
    }

    /** `DELETE /` (admins only; `requireAdmin` runs first): removes every
        user the filter matches and reports how many went. */
    method BulkDelete(caller: User, userIds: Json, usernamePrefix: Option<string>, emailPrefix: Option<string>,
                      prefixMatch: (string, string) -> bool)
      returns (r: Response<int>, logged: Option<Activity>)
      requires Valid()
      modifies this
      ensures Valid()
      ensures !(userIds.Arr? && |userIds.items| > 0) && !Present(usernamePrefix) && !Present(emailPrefix) ==>
                r == Fail(400, "No valid filter criteria provided") && users == old(users) && logged.None?
      ensures r.Ok? ==> exists f: DeleteFilter ::
                !FilterEmpty(f)
                && f.ids == (if userIds.Arr? && |userIds.items| > 0 then Some(userIds.items) else None)
                && f.usernamePrefix == (if Present(usernamePrefix) then usernamePrefix else None)
                && f.emailPrefix == (if Present(emailPrefix) then emailPrefix else None)
                && users == Without(old(users), (u: User) => MatchesFilter(f, prefixMatch, u))
                && r.value == |old(users)| - |users|
                && logged == Some(Activity(caller.id, "admin_bulk_delete_users", None, true,
                                           map["deletedCount" := Num(r.value), "filterUsed" := Arr(FilterKeys(f))]))
      ensures r.Ok? <==> (userIds.Arr? && |userIds.items| > 0) || Present(usernamePrefix) || Present(emailPrefix)
      ensures r.Ok? ==> r.value >= 0
    {
      var f := BuildDeleteFilter(userIds, usernamePrefix, emailPrefix);
      if FilterEmpty(f) {
        return Fail(400, "No valid filter criteria provided"), None;
      }
      var before := |users|;
      users := Without(users, (u: User) => MatchesFilter(f, prefixMatch, u));
      var deleted := before - |users|;
      logged := Some(Activity(caller.id, "admin_bulk_delete_users", None, true,
                              map["deletedCount" := Num(deleted), "filterUsed" := Arr(FilterKeys(f))]));
      r := Ok(deleted);
    }
  }
}
