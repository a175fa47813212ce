// The account and profile serializers: project dates, graduation year and
// expected salary checks, registration, login, password change, and adding
// a skill to a student.
module UserSerializers {
  import opened Common
  import opened Dates
  import opened Sequences
  import opened UserModels

  // ---------------------------------------------------------------------------
  // Profile validators.
  // ---------------------------------------------------------------------------

  const ProjectDatesError: string := "开始日期不能晚于结束日期"
  const GraduationYearError: string := "毕业年份不合理"
  const ExpectedSalaryError: string := "最低期望薪资不能高于最高期望薪资"
  const EarliestGraduationYear: int := 1950
  const GraduationYearsAhead: int := 10

  /** `ProjectSerializer.validate`: with both dates given, the start may not come after the end. */
  function ValidateProjectDates(start: Option<Date>, end: Option<Date>): (r: Result<(), string>)
    ensures r.Err? <==> start.Some? && end.Some? && DateBefore(end.value, start.value)
    ensures r.Err? ==> r.error == ProjectDatesError
  {
    if start.Some? && end.Some? && DateBefore(end.value, start.value) then Err(ProjectDatesError) else Ok(())
  }

  /** A project may start and end on the same day, and one with a single date is never rejected. */
  lemma ProjectDatesAccepted(d: Date, other: Option<Date>)
    ensures ValidateProjectDates(Some(d), Some(d)).Ok?
    ensures ValidateProjectDates(Some(d), None).Ok? && ValidateProjectDates(None, other).Ok?
  {
  }

  /** `validate_graduation_year` in the year `currentYear`: from 1950 up to ten years ahead. */
  function ValidateGraduationYear(year: int, currentYear: int): (r: Result<int, string>)
    ensures r.Ok? <==> EarliestGraduationYear <= year <= currentYear + GraduationYearsAhead
    ensures r.Ok? ==> r.value == year
    ensures r.Err? ==> r.error == GraduationYearError
  {
    if year < EarliestGraduationYear || year > currentYear + GraduationYearsAhead then Err(GraduationYearError)
    else Ok(year)
  }

  /** A year accepted now is accepted in every later year too. */
  lemma GraduationYearStaysValid(year: int, now: int, later: int)
    requires now <= later && ValidateGraduationYear(year, now).Ok?
    ensures ValidateGraduationYear(year, later).Ok?
  {
  }

  /** `StudentProfileSerializer.validate`: rejected only when both bounds are non-zero and the minimum is higher. */
  function ValidateExpectedSalary(salaryMin: Option<real>, salaryMax: Option<real>): (r: Result<(), string>)
    ensures r.Err? <==> TruthyReal(salaryMin) && TruthyReal(salaryMax) && salaryMin.value > salaryMax.value
    ensures r.Err? ==> r.error == ExpectedSalaryError
  {
    if TruthyReal(salaryMin) && TruthyReal(salaryMax) && salaryMin.value > salaryMax.value then Err(ExpectedSalaryError)
    else Ok(())
  }

  /** A zero bound counts as absent: any minimum passes against a zero maximum. */
  lemma ZeroSalaryIgnored(salaryMin: Option<real>)
    ensures ValidateExpectedSalary(salaryMin, Some(0.0)).Ok?
  {
  }

  // ---------------------------------------------------------------------------
  // Accounts.
  // ---------------------------------------------------------------------------

  /**
   * A user account; `password` stands for the stored hash, and a password
   * checks against it when it is equal.
   */
  datatype Account = Account(id: int, username: string, email: string, password: string,
                             isActive: bool, userType: UserType)

  predicate CheckPassword(a: Account, password: string) { a.password == password }

  // ---------------------------------------------------------------------------
  // `UserRegistrationSerializer`.
  // ---------------------------------------------------------------------------

  const PasswordMismatchError: string := "两次输入的密码不一致"

  /** The unique-field message of `AbstractUser.username`, raised by the field's UniqueValidator. */
  const UsernameTakenError: string := "A user with that username already exists."

  datatype Registration = Registration(username: string, email: string, password: string,
                                       passwordConfirm: string, userType: UserType)

  /** The profile row created beside a new account. */
  datatype ProfileKind = StudentProfileRow | EmployerProfileRow

  /**
   * What `validate` and `create` produce: the two passwords must match; the
   * account gets the requested type, and a student or employer gets the
   * matching empty profile, an administrator none.
   */
  function NewAccount(id: int, data: Registration): (r: Result<(Account, Option<ProfileKind>), string>)
    ensures r.Err? <==> data.password != data.passwordConfirm
    ensures r.Err? ==> r.error == PasswordMismatchError
    ensures r.Ok? ==> var (account, profile) := r.value;
              && account.userType == data.userType && account.isActive
              && account.username == data.username && account.email == data.email
              && CheckPassword(account, data.password)
              && (profile == Some(StudentProfileRow) <==> data.userType == StudentUser)
              && (profile == Some(EmployerProfileRow) <==> data.userType == EmployerUser)
              && (profile.None? <==> data.userType == AdminUser)
  {
    if data.password != data.passwordConfirm then Err(PasswordMismatchError)
    else
      var account := Account(id, data.username, data.email, data.password, true, data.userType);
      var profile := match data.userType
        case StudentUser => Some(StudentProfileRow)
        case EmployerUser => Some(EmployerProfileRow)
        case AdminUser => None;
      Ok((account, profile))
  }

  /** The user table and the profile rows created beside it, keyed by user id. */
  class AccountStore {
    var accounts: seq<Account>
    var profiles: map<int, ProfileKind>
    var nextId: int

    /**
     * Ids are distinct and below `nextId`, usernames are distinct, and every
     * profile belongs to a stored account.
     */
    predicate Valid()
      reads this
    {
      && (forall i :: 0 <= i < |accounts| ==> accounts[i].id < nextId)
      && (forall i, j :: 0 <= i < j < |accounts| ==> accounts[i].id != accounts[j].id)
      && (forall i, j :: 0 <= i < j < |accounts| ==> accounts[i].username != accounts[j].username)
      && (forall id :: id in profiles ==> exists i :: 0 <= i < |accounts| && accounts[i].id == id)
    }

    constructor ()
      ensures Valid() && accounts == [] && profiles == map[]
    {
      accounts := [];
      profiles := map[];
      nextId := 1;
    }

    /** Some stored account already has the username. */
    predicate Taken(username: string)
      reads this
    {
      exists i :: 0 <= i < |accounts| && accounts[i].username == username
    }

    /**
     * The unique username field's validator, then `validate`, then
     * `create`: a taken username or mismatching passwords store nothing;
     * otherwise the new account is appended under a fresh id, and its
     * profile row, if its type has one, is stored beside it.
     */
    method Register(data: Registration) returns (r: Result<int, string>)
      requires Valid()
      modifies this
      ensures Valid()
      ensures r.Err? <==> old(Taken(data.username)) || data.password != data.passwordConfirm
      ensures old(Taken(data.username)) ==> r == Err(UsernameTakenError)
      ensures !old(Taken(data.username)) && r.Err? ==> r.error == PasswordMismatchError
      ensures r.Err? ==> accounts == old(accounts) && profiles == old(profiles)
      ensures r.Ok? ==> && NewAccount(r.value, data).Ok?
                        && (forall i :: 0 <= i < |old(accounts)| ==> old(accounts)[i].id != r.value)
                        && accounts == old(accounts) + [NewAccount(r.value, data).value.0]
                        && profiles == (if NewAccount(r.value, data).value.1.Some?
                                        then old(profiles)[r.value := NewAccount(r.value, data).value.1.value]
                                        else old(profiles))
    {
      if Taken(data.username) {
        return Err(UsernameTakenError);
      }
      var created := NewAccount(nextId, data);
      if created.Err? {
        return Err(created.error);
      }
      var id := nextId;
      var (account, profile) := created.value;
      ghost var before := accounts;
      accounts := accounts + [account];
      assert accounts[|accounts| - 1].id == id;
      forall k | k in profiles
        ensures exists i :: 0 <= i < |accounts| && accounts[i].id == k
      {
        var i :| 0 <= i < |before| && before[i].id == k;
        assert accounts[i] == before[i];
      }
      if profile.Some? {
        profiles := profiles[id := profile.value];
      }
      nextId := id + 1;
      r := Ok(id);
    }
  }

  // ---------------------------------------------------------------------------
  // `UserLoginSerializer.validate`.
  // ---------------------------------------------------------------------------

  const MissingCredentialsError: string := "必须提供邮箱和密码"
  const BadCredentialsError: string := "邮箱或密码错误"
  const AccountDisabledError: string := "用户账户已被禁用"

  /** A refused login: a message, or the exception raised when several accounts share the e-mail address. */
  datatype LoginFailure = Refused(message: string) | SeveralAccounts

  function WithEmail(accounts: seq<Account>, email: string): seq<Account> {
    Filter(accounts, (a: Account) => a.email == email)
  }

  /**
   * Django's default authentication backend, asked for the account's own
   * username: the account when the password checks and the account is
   * active, nothing otherwise.
   */
  function Authenticate(a: Account, password: string): (r: Option<Account>)
    ensures r.Some? <==> CheckPassword(a, password) && a.isActive
    ensures r.Some? ==> r.value == a
  {
    if CheckPassword(a, password) && a.isActive then Some(a) else None
  }

  /**
   * `validate` as written: both fields must be given; the account is found
   * by e-mail, authenticated, and then checked for being active.
   */
  function Login(accounts: seq<Account>, email: Option<string>, password: Option<string>): (r: Result<Account, LoginFailure>)
    ensures !TruthyText(email) || !TruthyText(password) ==> r == Err(Refused(MissingCredentialsError))
    ensures r.Ok? <==> TruthyText(email) && TruthyText(password)
                       && var found := WithEmail(accounts, email.value);
                          |found| == 1 && CheckPassword(found[0], password.value) && found[0].isActive
    ensures r.Ok? ==> r.value in accounts && r.value.email == email.value && CheckPassword(r.value, password.value)
                      && r.value.isActive
  {
    if !TruthyText(email) || !TruthyText(password) then Err(Refused(MissingCredentialsError))
    else
      var found := WithEmail(accounts, email.value);
      if |found| == 0 then Err(Refused(BadCredentialsError))
      else if |found| > 1 then Err(SeveralAccounts)
      else
        var user := Authenticate(found[0], password.value);
        if user.None? then Err(Refused(BadCredentialsError))
        else if !user.value.isActive then Err(Refused(AccountDisabledError))
        else Ok(user.value)
  }

  /** As written, the disabled-account message is never given: the backend already refused the inactive account. */
  lemma DisabledMessageUnreachable(accounts: seq<Account>, email: Option<string>, password: Option<string>)
    ensures Login(accounts, email, password) != Err(Refused(AccountDisabledError))
  {
  }

  /** A disabled account with the right password is told its credentials are wrong. */
  lemma DisabledAccountToldWrongPassword(a: Account)
    requires !a.isActive && |a.email| > 0 && |a.password| > 0
    ensures Login([a], Some(a.email), Some(a.password)) == Err(Refused(BadCredentialsError))
  {
    assert [a][1..] == [];
  }

  /**
   * The intended check: the password decides whether the credentials are
   * right, and an account with the right password that is disabled gets
   * the disabled-account message.
   */
  function LoginIntended(accounts: seq<Account>, email: Option<string>, password: Option<string>): (r: Result<Account, LoginFailure>)
    ensures !TruthyText(email) || !TruthyText(password) ==> r == Err(Refused(MissingCredentialsError))
    ensures r.Ok? <==> TruthyText(email) && TruthyText(password)
                       && var found := WithEmail(accounts, email.value);
                          |found| == 1 && CheckPassword(found[0], password.value) && found[0].isActive
    ensures r.Ok? ==> r.value in accounts && r.value.email == email.value && CheckPassword(r.value, password.value)
                      && r.value.isActive
    ensures r == Err(Refused(AccountDisabledError)) ==>
              var found := WithEmail(accounts, email.value);
              |found| == 1 && CheckPassword(found[0], password.value) && !found[0].isActive
  {
    if !TruthyText(email) || !TruthyText(password) then Err(Refused(MissingCredentialsError))
    else
      var found := WithEmail(accounts, email.value);
      if |found| == 0 then Err(Refused(BadCredentialsError))
      else if |found| > 1 then Err(SeveralAccounts)
      else if !CheckPassword(found[0], password.value) then Err(Refused(BadCredentialsError))
      else if !found[0].isActive then Err(Refused(AccountDisabledError))
      else Ok(found[0])
  }

  /** The intended check agrees with the written one except for disabled accounts with the right password. */
  lemma LoginIntendedAgrees(accounts: seq<Account>, email: Option<string>, password: Option<string>)
    ensures LoginIntended(accounts, email, password) == Login(accounts, email, password)
            || LoginIntended(accounts, email, password) == Err(Refused(AccountDisabledError))
  {
  }

  /** With the intended check, a disabled account with the right password learns that it is disabled. */
  lemma DisabledAccountTold(a: Account)
    requires !a.isActive && |a.email| > 0 && |a.password| > 0
    ensures LoginIntended([a], Some(a.email), Some(a.password)) == Err(Refused(AccountDisabledError))
  {
    assert [a][1..] == [];
  }

  // ---------------------------------------------------------------------------
  // `PasswordChangeSerializer`.
  // ---------------------------------------------------------------------------

  const OldPasswordError: string := "旧密码错误"
  const NewPasswordMismatchError: string := "两次输入的新密码不一致"

  /**
   * `validate_old_password`, then `validate`, then `save`: the old password
   * must check out and the two new ones must match; the account then holds
   * the new password.
   */
  function ChangePassword(a: Account, oldPassword: string, newPassword: string, newPasswordConfirm: string)
    : (r: Result<Account, string>)
    ensures r.Ok? <==> CheckPassword(a, oldPassword) && newPassword == newPasswordConfirm
    ensures !CheckPassword(a, oldPassword) ==> r == Err(OldPasswordError)
    ensures CheckPassword(a, oldPassword) && r.Err? ==> r.error == NewPasswordMismatchError
    ensures r.Ok? ==> r.value == a.(password := newPassword)
  {
    if !CheckPassword(a, oldPassword) then Err(OldPasswordError)
    else if newPassword != newPasswordConfirm then Err(NewPasswordMismatchError)
    else Ok(a.(password := newPassword))
  }

  /** After a change the new password checks out and the old one no longer does, unless they are equal. */
  lemma PasswordChanged(a: Account, oldPassword: string, newPassword: string)
    requires ChangePassword(a, oldPassword, newPassword, newPassword).Ok?
    ensures var b := ChangePassword(a, oldPassword, newPassword, newPassword).value;
            CheckPassword(b, newPassword) && (oldPassword != newPassword ==> !CheckPassword(b, oldPassword))
  {
  }

  // ---------------------------------------------------------------------------
  // `StudentSkillCreateSerializer.create`.
  // ---------------------------------------------------------------------------

  const DuplicateSkillError: string := "该技能已存在"

  /** One `StudentSkill` row. */
  datatype SkillRow = SkillRow(student: int, skillId: int, proficiency: Proficiency, years: real)

  /** The student-skill table. */
  class StudentSkillStore {
    var rows: seq<SkillRow>

    /** `unique_together = ['student', 'skill']`. */
    predicate Valid()
      reads this
    {
      forall i, j :: 0 <= i < j < |rows| ==> rows[i].student != rows[j].student || rows[i].skillId != rows[j].skillId
    }

    constructor ()
      ensures Valid() && rows == []
    {
      rows := [];
    }

    /** `create`: a skill the student already has is rejected; otherwise one row is added. */
    method Add(student: int, skillId: int, proficiency: Proficiency, years: real) returns (r: Result<(), string>)
      requires Valid()
      modifies this
      ensures Valid()
      ensures r.Err? <==> exists i :: 0 <= i < |old(rows)| && old(rows)[i].student == student && old(rows)[i].skillId == skillId
      ensures r.Err? ==> r.error == DuplicateSkillError && rows == old(rows)
      ensures r.Ok? ==> rows == old(rows) + [SkillRow(student, skillId, proficiency, years)]
    {
      if exists i :: 0 <= i < |rows| && rows[i].student == student && rows[i].skillId == skillId {
        return Err(DuplicateSkillError);
      }
      rows := rows + [SkillRow(student, skillId, proficiency, years)];
      r := Ok(());
    }
  }
}
