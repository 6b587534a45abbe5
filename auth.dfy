/** The checkable part of the account service (lib/services/authService.ts): input validation of
    `register` and `changePassword`, the guards against a missing current user, the profile record
    a new account starts with, the null-instead-of-error profile read and the mapping from error
    codes to messages. The identity provider and the database are not modelled: what they answer
    is passed in as a parameter. */
module Auth {
  import opened Types

  // ----- error messages -----

  /** A failure as the provider reports it: an optional error code and a message. Errors the
      service raises itself carry no code. */
  datatype AuthFailure = AuthFailure(code: Option<string>, message: string)

  const PasswordMismatch := "비밀번호가 일치하지 않습니다."
  const PasswordTooShort := "비밀번호는 최소 6자 이상이어야 합니다."
  const LoginRequired := "로그인이 필요합니다."
  const GenericAuthError := "인증 오류가 발생했습니다."
  const ProfileUpdateFailed := "프로필 업데이트에 실패했습니다."

  /** The eight provider codes with a message of their own. */
  const KnownCodes: set<string> := {
    "auth/user-not-found", "auth/wrong-password", "auth/email-already-in-use", "auth/weak-password",
    "auth/invalid-email", "auth/too-many-requests", "auth/network-request-failed",
    "auth/popup-closed-by-user"}

  /** The `switch` of `handleAuthError` without its default. */
  function CodeMessage(code: string): (m: Option<string>)
    ensures m.Some? <==> code in KnownCodes
    ensures m.Some? ==> m.value != ""
  {
    match code
    case "auth/user-not-found" => Some("등록되지 않은 이메일입니다.")
    case "auth/wrong-password" => Some("비밀번호가 올바르지 않습니다.")
    case "auth/email-already-in-use" => Some("이미 사용 중인 이메일입니다.")
    case "auth/weak-password" => Some("비밀번호가 너무 약합니다.")
    case "auth/invalid-email" => Some("올바르지 않은 이메일 형식입니다.")
    case "auth/too-many-requests" => Some("너무 많은 시도를 했습니다. 잠시 후 다시 시도해주세요.")
    case "auth/network-request-failed" => Some("네트워크 오류가 발생했습니다.")
    case "auth/popup-closed-by-user" => Some("로그인 창이 닫혔습니다.")
    case _ => None
  }

  /** `handleAuthError`: a known code gives its own message; anything else keeps the error's
      message, or the generic one when that is empty. */
  function HandleAuthError(e: AuthFailure): (m: string)
    ensures m != ""
    ensures e.code.Some? && e.code.value in KnownCodes ==> m == CodeMessage(e.code.value).value
    ensures !(e.code.Some? && e.code.value in KnownCodes) ==> m == (if e.message != "" then e.message else GenericAuthError)
  {
    if e.code.Some? && CodeMessage(e.code.value).Some? then CodeMessage(e.code.value).value
    else if e.message != "" then e.message
    else GenericAuthError
  }

  /** Which known code a message belongs to: the switch read backwards. */
  function MessageCode(m: string): Option<string> {
    match m
    case "등록되지 않은 이메일입니다." => Some("auth/user-not-found")
    case "비밀번호가 올바르지 않습니다." => Some("auth/wrong-password")
    case "이미 사용 중인 이메일입니다." => Some("auth/email-already-in-use")
    case "비밀번호가 너무 약합니다." => Some("auth/weak-password")
    case "올바르지 않은 이메일 형식입니다." => Some("auth/invalid-email")
    case "너무 많은 시도를 했습니다. 잠시 후 다시 시도해주세요." => Some("auth/too-many-requests")
    case "네트워크 오류가 발생했습니다." => Some("auth/network-request-failed")
    case "로그인 창이 닫혔습니다." => Some("auth/popup-closed-by-user")
    case _ => None
  }

  /** The message of a known code leads back to that code. */
  lemma MessageNamesItsCode(c: string)
    requires c in KnownCodes
    ensures MessageCode(CodeMessage(c).value) == Some(c)
  {
  }

  /** Distinct known codes are told apart: no two of them share a message. */
  lemma KnownMessagesDistinct(c1: string, c2: string)
    requires c1 in KnownCodes && c2 in KnownCodes && c1 != c2
    ensures CodeMessage(c1) != CodeMessage(c2)
  {
    MessageNamesItsCode(c1);
    MessageNamesItsCode(c2);
  }

  /** The service's own errors carry no code, so their messages come through the mapping unchanged. */
  lemma OwnMessagesSurvive(message: string)
    requires message != ""
    ensures HandleAuthError(AuthFailure(None, message)) == message
  {
  }

  // ----- accounts and profiles -----

  /** The provider's account record, as far as the profile uses it. */
  datatype Account = Account(
    uid: string,
    email: Option<string>,
    displayName: Option<string>,
    photoURL: Option<string>,
    isAnonymous: bool)

  datatype Notifications = Notifications(comments: bool, likes: bool, mentions: bool, newPosts: bool)

  datatype Privacy = Privacy(showEmail: bool, showStats: bool)

  datatype Preferences = Preferences(notifications: Notifications, privacy: Privacy)

  /** A user document. Timestamps are not part of this model. */
  datatype UserProfile = UserProfile(
    uid: string,
    email: Option<string>,
    displayName: Option<string>,
    photoURL: Option<string>,
    isAnonymous: bool,
    nickname: Option<string>,
    bio: string,
    favoriteGenres: seq<string>,
    favoriteActors: seq<string>,
    favoriteDirectors: seq<string>,
    stats: UserStats,
    preferences: Preferences)

  const ZeroStats := UserStats(0, 0, 0, 0, 0, 0)

  const DefaultPreferences := Preferences(Notifications(true, true, true, false), Privacy(false, true))

  /** `createUserProfile(user, additionalData)` where the callers' `additionalData` is at most
      `{ displayName }`: zero statistics, empty bio and lists, default preferences; the nickname is
      the first truthy one of the extra name and the account's name; the extra name, when given,
      replaces the account's `displayName` (it is spread last). */
  function CreateUserProfile(a: Account, extraName: Option<string>): (p: UserProfile)
    ensures p.uid == a.uid && p.email == a.email && p.photoURL == a.photoURL && p.isAnonymous == a.isAnonymous
    ensures p.stats == ZeroStats && p.bio == ""
    ensures p.favoriteGenres == [] && p.favoriteActors == [] && p.favoriteDirectors == []
    ensures p.preferences == DefaultPreferences
    ensures p.displayName == (if extraName.Some? then extraName else a.displayName)
    ensures p.nickname == (if Truthy(extraName) then extraName else if Truthy(a.displayName) then a.displayName else None)
  {
    var nickname := if Truthy(extraName) then extraName else if Truthy(a.displayName) then a.displayName else None;
    var base := UserProfile(a.uid, a.email, a.displayName, a.photoURL, a.isAnonymous, nickname, "", [], [], [],
      ZeroStats, DefaultPreferences);
    if extraName.Some? then base.(displayName := extraName) else base
  }

  /** `getUserProfile`: the stored document, or nothing when it is missing or the read fails. */
  function GetUserProfile(users: map<string, UserProfile>, uid: string, readOk: bool): (r: Option<UserProfile>)
    ensures r.Some? <==> readOk && uid in users
    ensures r.Some? ==> r.value == users[uid]
  {
    if readOk && uid in users then Some(users[uid]) else None
  }

  /** A profile just stored reads back as it was written. */
  lemma CreatedProfileReadsBack(users: map<string, UserProfile>, a: Account, extraName: Option<string>)
    ensures var p := CreateUserProfile(a, extraName);
      GetUserProfile(users[a.uid := p], a.uid, true) == Some(p) && p.stats == ZeroStats
  {
  }

  /** The name an anonymous account gets: a fixed prefix and at most the first 8 characters of
      the uid (`substring(0, 8)` stops at the end of a shorter uid). */
  function AnonymousName(uid: string): (n: string)
    ensures |n| == |"익명사용자_"| + (if |uid| < 8 then |uid| else 8)
    ensures n[..|"익명사용자_"|] == "익명사용자_"
    ensures n[|"익명사용자_"|..] <= uid
  {
    "익명사용자_" + uid[..if |uid| < 8 then |uid| else 8]
  }

  /** `loginAnonymously`: the profile of a new anonymous account. */
  function AnonymousProfile(a: Account): UserProfile {
    CreateUserProfile(a, Some(AnonymousName(a.uid)))
  }

  /** An anonymous profile is named and nicknamed after its uid, whatever the account says. */
  lemma AnonymousProfileNamed(a: Account)
    ensures AnonymousProfile(a).nickname == Some(AnonymousName(a.uid))
    ensures AnonymousProfile(a).displayName == Some(AnonymousName(a.uid))
  {
  }

  // ----- validation and guards -----

  /** What `register` is given. */
  datatype Registration = Registration(email: string, password: string, confirmPassword: string, displayName: string)

  /** The checks `register` makes before it contacts the provider: first that both passwords are
      the same, then their length. */
  function RegisterCheck(r: Registration): (e: Option<string>)
    ensures r.password != r.confirmPassword ==> e == Some(PasswordMismatch)
    ensures r.password == r.confirmPassword ==> (e.Some? <==> |r.password| < 6)
    ensures e.Some? ==> e.value == PasswordMismatch || e.value == PasswordTooShort
  {
    if r.password != r.confirmPassword then Some(PasswordMismatch)
    else if |r.password| < 6 then Some(PasswordTooShort)
    else None
  }

  /** `register`, given what the provider answers to the account creation and the first failure
      (if any) of the two profile writes that follow it (`updateProfile`, then the profile
      document): the error message, or the new user's profile (named after the registration's
      display name). Whatever fails is reported through the error switch. */
  function Register(r: Registration, created: Result<Account, AuthFailure>, stored: Option<AuthFailure>): (res: Result<UserProfile, string>)
    ensures RegisterCheck(r).Some? ==> res == Err(RegisterCheck(r).value)
    ensures RegisterCheck(r).None? && created.Err? ==> res == Err(HandleAuthError(created.error))
    ensures RegisterCheck(r).None? && created.Ok? && stored.Some? ==> res == Err(HandleAuthError(stored.value))
    ensures res.Ok? <==> RegisterCheck(r).None? && created.Ok? && stored.None?
  {
    match RegisterCheck(r)
    case Some(m) => Err(HandleAuthError(AuthFailure(None, m)))
    case None =>
      match created
      case Err(f) => Err(HandleAuthError(f))
      case Ok(a) =>
        if stored.Some? then Err(HandleAuthError(stored.value))
        else Ok(CreateUserProfile(a.(displayName := Some(r.displayName)), Some(r.displayName)))
  }

  /** A rejected registration fails the same way whatever the provider and the profile writes
      would have done: the checks come before any account is created. */
  lemma RejectedBeforeCreation(r: Registration, c1: Result<Account, AuthFailure>, c2: Result<Account, AuthFailure>,
                               s1: Option<AuthFailure>, s2: Option<AuthFailure>)
    requires RegisterCheck(r).Some?
    ensures Register(r, c1, s1) == Register(r, c2, s2)
  {
  }

  /** A registered user's profile carries the registration's name as display name and nickname. */
  lemma RegisteredProfileNamed(r: Registration, a: Account)
    requires RegisterCheck(r).None? && r.displayName != ""
    ensures Register(r, Ok(a), None).Ok?
    ensures Register(r, Ok(a), None).value.nickname == Some(r.displayName)
    ensures Register(r, Ok(a), None).value.displayName == Some(r.displayName)
    ensures Register(r, Ok(a), None).value.uid == a.uid
  {
  }

  /** `changePassword`, given the current account and the provider's answer to the update. */
  function ChangePassword(current: Option<Account>, newPassword: string, updated: Option<AuthFailure>): (res: Result<(), string>)
    ensures res.Ok? <==> current.Some? && |newPassword| >= 6 && updated.None?
  {
    if current.None? then Err(HandleAuthError(AuthFailure(None, LoginRequired)))
    else if |newPassword| < 6 then Err(HandleAuthError(AuthFailure(None, PasswordTooShort)))
    else if updated.Some? then Err(HandleAuthError(updated.value))
    else Ok(())
  }

  /** `changeEmail`: the provider's update, then the profile document's; a failure of the latter is
      reported with its own message. */
  function ChangeEmail(current: Option<Account>, newEmail: string, updated: Option<AuthFailure>, profileOk: bool): (res: Result<(), string>)
    ensures res.Ok? <==> current.Some? && updated.None? && profileOk
  {
    if current.None? then Err(HandleAuthError(AuthFailure(None, LoginRequired)))
    else if updated.Some? then Err(HandleAuthError(updated.value))
    else if !profileOk then Err(HandleAuthError(AuthFailure(None, ProfileUpdateFailed)))
    else Ok(())
  }

  /** `deleteAccount`, given the first failure (if any) of the document, image and account deletions;
      a failed image deletion is swallowed by the source and does not appear here. */
  function DeleteAccount(current: Option<Account>, failed: Option<AuthFailure>): (res: Result<(), string>)
    ensures res.Ok? <==> current.Some? && failed.None?
  {
    if current.None? then Err(HandleAuthError(AuthFailure(None, LoginRequired)))
    else if failed.Some? then Err(HandleAuthError(failed.value))
    else Ok(())
  }

  /** Without a current user the three account operations fail with the login-required message,
      whatever the input and whatever the provider would have answered. */
  lemma NoUserGuards(newPassword: string, newEmail: string, u: Option<AuthFailure>, profileOk: bool)
    ensures ChangePassword(None, newPassword, u) == Err(LoginRequired)
    ensures ChangeEmail(None, newEmail, u, profileOk) == Err(LoginRequired)
    ensures DeleteAccount(None, u) == Err(LoginRequired)
  {
    OwnMessagesSurvive(LoginRequired);
  }

  /** Registering and changing a password apply the same length rule. */
  lemma SamePasswordRule(r: Registration, a: Account)
    requires r.password == r.confirmPassword
    ensures RegisterCheck(r).None? <==> ChangePassword(Some(a), r.password, None).Ok?
  {
  }
}
