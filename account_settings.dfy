/** The account settings page: a profile form prefilled from the signed-in
    user and submitted as a partial profile update, and a password form
    whose checks run in a fixed order. Messages containing "successfully"
    are shown as successes, all others as errors. */
module AccountSettings {
  import opened Common
  import opened Auth

  datatype Tab = ProfileTab | PasswordTab

  datatype FormData = FormData(
    fullName: string,
    email: string,
    mobile: string,
    primaryCraft: string,
    currentPassword: string,
    newPassword: string,
    confirmPassword: string)

  /** The form as the page opens: each profile field from the signed-in
      user, or empty (`user?.field || ''`), and empty password fields. */
  function InitialForm(user: Option<User>): (f: FormData)
    ensures user.None? ==> f == FormData("", "", "", "", "", "", "")
    ensures user.Some? ==> (f.fullName == user.value.fullName && f.email == user.value.email
      && f.mobile == user.value.mobile.GetOr("") && f.primaryCraft == user.value.primaryCraft)
    ensures f.currentPassword == "" && f.newPassword == "" && f.confirmPassword == ""
  {
    match user
    case None => FormData("", "", "", "", "", "", "")
    case Some(u) => FormData(u.fullName, u.email, u.mobile.GetOr(""), u.primaryCraft, "", "", "")
  }

  /** The input names of the form. */
  datatype Field = FullName | Email | Mobile | PrimaryCraft | CurrentPassword | NewPassword | ConfirmPassword

  function Get(f: FormData, field: Field): string
  {
    match field
    case FullName => f.fullName
    case Email => f.email
    case Mobile => f.mobile
    case PrimaryCraft => f.primaryCraft
    case CurrentPassword => f.currentPassword
    case NewPassword => f.newPassword
    case ConfirmPassword => f.confirmPassword
  }

  /** `{ ...prev, [name]: value }`: the named field takes the value and no
      other field changes. */
  function SetField(f: FormData, field: Field, value: string): (r: FormData)
    ensures Get(r, field) == value
    ensures forall other :: other != field ==> Get(r, other) == Get(f, other)
  {
    match field
    case FullName => f.(fullName := value)
    case Email => f.(email := value)
    case Mobile => f.(mobile := value)
    case PrimaryCraft => f.(primaryCraft := value)
    case CurrentPassword => f.(currentPassword := value)
    case NewPassword => f.(newPassword := value)
    case ConfirmPassword => f.(confirmPassword := value)
  }

  /** Two forms that agree on every field are the same form, so the
      contract of SetField determines its result. */
  lemma FormExtensionality(f: FormData, g: FormData)
    requires forall field :: Get(f, field) == Get(g, field)
    ensures f == g
  {
    assert Get(f, FullName) == Get(g, FullName) && Get(f, Email) == Get(g, Email);
    assert Get(f, Mobile) == Get(g, Mobile) && Get(f, PrimaryCraft) == Get(g, PrimaryCraft);
    assert Get(f, CurrentPassword) == Get(g, CurrentPassword) && Get(f, NewPassword) == Get(g, NewPassword);
    assert Get(f, ConfirmPassword) == Get(g, ConfirmPassword);
  }

  /** Typing the value a field already holds changes nothing, and typing
      twice into a field keeps only the second value. */
  lemma SetFieldLaws(f: FormData, field: Field, a: string, b: string)
    ensures SetField(f, field, Get(f, field)) == f
    ensures SetField(SetField(f, field, a), field, b) == SetField(f, field, b)
  {
    FormExtensionality(SetField(f, field, Get(f, field)), f);
    FormExtensionality(SetField(SetField(f, field, a), field, b), SetField(f, field, b));
  }

  /** The partial update the profile form submits: exactly the four profile
      fields, the mobile number always present (possibly empty). */
  function ProfileUpdates(f: FormData): (p: ProfileUpdate)
    ensures p.fullName == Some(f.fullName) && p.email == Some(f.email)
    ensures p.mobile == Some(f.mobile) && p.primaryCraft == Some(f.primaryCraft)
    ensures p.id.None? && p.profilePicture.None? && p.story.None?
  {
    ProfileUpdate(None, Some(f.fullName), Some(f.email), Some(f.mobile), Some(f.primaryCraft), None, None)
  }

  /** Submitting the form a signed-in user opened, unchanged, leaves the
      profile as it was except that an absent mobile number becomes the
      empty one. */
  lemma UnchangedFormKeepsProfile(u: User)
    ensures var merged := Merge(u, ProfileUpdates(InitialForm(Some(u))));
      merged == u.(mobile := Some(u.mobile.GetOr("")))
  {
  }

  const ProfileSuccess := "Profile updated successfully!"
  const PasswordMismatch := "New passwords do not match."
  const PasswordTooShort := "Password must be at least 6 characters long."
  const PasswordSuccess := "Password updated successfully!"

  const MinPasswordLength := 6

  /** The message shown when a message contains "successfully" is styled as
      a success. */
  predicate IsSuccessMessage(m: string)
  {
    Contains(m, "successfully")
  }

  /** A message with "successfully" in it is styled as a success. */
  lemma SuccessIn(before: string, after: string)
    ensures IsSuccessMessage(before + "successfully" + after)
  {
    var m := before + "successfully" + after;
    assert m[|before|..|before| + 12] == "successfully";
    assert MatchesAt(m, "successfully", |before|);
  }

  /** A message without the letter 'y' is styled as an error. */
  lemma ErrorWithoutY(m: string)
    requires 'y' !in m
    ensures !IsSuccessMessage(m)
  {
    if IsSuccessMessage(m) {
      CharOfContained(m, "successfully", 'y');
    }
  }

  /** The two success messages are styled as successes and the two
      validation errors as errors. */
  lemma MessageStyles()
    ensures IsSuccessMessage(ProfileSuccess) && IsSuccessMessage(PasswordSuccess)
    ensures !IsSuccessMessage(PasswordMismatch) && !IsSuccessMessage(PasswordTooShort)
  {
    ProfileSuccessStyled();
    PasswordSuccessStyled();
    MismatchStyled();
    TooShortStyled();
  }

  lemma ProfileSuccessStyled()
    ensures IsSuccessMessage(ProfileSuccess)
  {
    assert ProfileSuccess == "Profile updated " + "successfully" + "!";
    SuccessIn("Profile updated ", "!");
  }
  lemma PasswordSuccessStyled()
    ensures IsSuccessMessage(PasswordSuccess)
  {
    assert PasswordSuccess == "Password updated " + "successfully" + "!";
    SuccessIn("Password updated ", "!");
  }
  lemma MismatchStyled()
    ensures !IsSuccessMessage(PasswordMismatch)
  {
    ErrorWithoutY(PasswordMismatch);
  }

  lemma TooShortStyled()
    ensures !IsSuccessMessage(PasswordTooShort)
  {
    ErrorWithoutY(PasswordTooShort);
  }

  /** The outcome of a password change: the mismatch is reported before the
      length, and the change succeeds exactly when the two new passwords
      agree and have at least six characters. */
  function PasswordChangeMessage(f: FormData): (m: string)
    ensures f.newPassword != f.confirmPassword ==> m == PasswordMismatch
    ensures f.newPassword == f.confirmPassword && |f.newPassword| < MinPasswordLength ==> m == PasswordTooShort
    ensures IsSuccessMessage(m) <==> f.newPassword == f.confirmPassword && |f.newPassword| >= MinPasswordLength
  {
    MessageStyles();
    if f.newPassword != f.confirmPassword then PasswordMismatch
    else if |f.newPassword| < MinPasswordLength then PasswordTooShort
    else PasswordSuccess
  }

  /** The settings page's state. */
  class SettingsForm {
    var form: FormData
    var message: string
    var loading: bool
    var activeTab: Tab

    constructor (user: Option<User>)
      ensures form == InitialForm(user) && message == "" && !loading && activeTab == ProfileTab
    {
      form := InitialForm(user);
      message := "";
      loading := false;
      activeTab := ProfileTab;
    }

    method HandleInputChange(field: Field, value: string)
      modifies this
      ensures form == SetField(old(form), field, value)
      ensures message == old(message) && loading == old(loading) && activeTab == old(activeTab)
    {
      form := SetField(form, field, value);
    }

    method SelectTab(tab: Tab)
      modifies this
      ensures activeTab == tab
      ensures form == old(form) && message == old(message) && loading == old(loading)
    {
      activeTab := tab;
    }

    /** Submits the four profile fields to the identity provider, which
        merges them into the signed-in user (and does nothing without one),
        then reports success. */
    method HandleProfileUpdate(auth: AuthStore)
      modifies this, auth
      ensures message == ProfileSuccess && IsSuccessMessage(message) && !loading
      ensures form == old(form) && activeTab == old(activeTab)
      ensures old(auth.session).None? ==> unchanged(auth)
      ensures old(auth.session).Some? ==> auth.session == Some(Merge(old(auth.session).value, ProfileUpdates(form)))
      ensures old(auth.session).Some? ==>
        match IndexWithId(old(auth.users), old(auth.session).value.id)
        case None => auth.users == old(auth.users)
        case Some(i) => auth.users == old(auth.users)[i := Merge(old(auth.session).value, ProfileUpdates(form))]
      ensures auth.otps == old(auth.otps) && auth.store == old(auth.store) && |auth.users| == old(|auth.users|)
    {
      loading := true;
      message := "";
      auth.UpdateProfile(ProfileUpdates(form));
      message := ProfileSuccess;
      loading := false;
      MessageStyles();
    }

    /** Checks the new password against its confirmation, then its length;
        on success clears the three password fields. The current password is
        not compared with anything. */
    method HandlePasswordChange()
      modifies this
      ensures message == PasswordChangeMessage(old(form)) && !loading
      ensures IsSuccessMessage(message) ==>
        form == old(form).(currentPassword := "", newPassword := "", confirmPassword := "")
      ensures !IsSuccessMessage(message) ==> form == old(form)
      ensures activeTab == old(activeTab)
    {
      loading := true;
      message := "";
      if form.newPassword != form.confirmPassword {
        message := PasswordMismatch;
        loading := false;
        return;
      }
      if |form.newPassword| < MinPasswordLength {
        message := PasswordTooShort;
        loading := false;
        return;
      }
      message := PasswordSuccess;
      form := form.(currentPassword := "", newPassword := "", confirmPassword := "");
      loading := false;
    }
  }
}
