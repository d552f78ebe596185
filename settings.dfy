/** The settings page (`src/pages/Settings.tsx`): the profile form and its
    merge into the signed-in profile, the password-change checks and the
    logo-upload checks. The backend's answer to a save is a parameter. */
module Settings {
  import opened Common
  import opened Types
  import AuthStore

  // ---------------------------------------------------------------------------
  // Profile

  datatype ProfileForm = ProfileForm(fullName: string, email: string, phone: string)

  /** The profile form as the page first fills it: each field from the
      profile, or empty. */
  function InitialProfileForm(profile: Option<Profile>): (f: ProfileForm)
    ensures profile.None? ==> f == ProfileForm("", "", "")
    ensures profile.Some? ==> && f.fullName == profile.value.fullName && f.email == profile.value.email
                              && f.phone == OrEmpty(profile.value.phone)
  {
    match profile
    case None => ProfileForm("", "", "")
    case Some(p) => ProfileForm(p.fullName, p.email, OrEmpty(p.phone))
  }

  /** `{ ...profile, ...profileForm }`: all three form fields overwrite the
      profile's, the phone as a string even when empty; the rest stays. */
  function MergeProfile(p: Profile, f: ProfileForm): (r: Profile)
    ensures r.fullName == f.fullName && r.email == f.email && r.phone == Some(f.phone)
    ensures r.id == p.id && r.tenantId == p.tenantId && r.role == p.role && r.companyName == p.companyName
  {
    p.(fullName := f.fullName, email := f.email, phone := Some(f.phone))
  }

  /** Saving the untouched form changes the profile at most by turning a
      null phone into an empty one. */
  lemma SaveUntouchedProfile(p: Profile)
    ensures MergeProfile(p, InitialProfileForm(Some(p))) == p.(phone := Some(OrEmpty(p.phone)))
    ensures p.phone.Some? ==> MergeProfile(p, InitialProfileForm(Some(p))) == p
  {
  }

  // ---------------------------------------------------------------------------
  // Password

  datatype SecurityForm = SecurityForm(currentPassword: string, newPassword: string, confirmPassword: string)

  const EmptySecurityForm := SecurityForm("", "", "")

  const MinPasswordLength := 8

  datatype PasswordCheck = Mismatch | TooShort | Acceptable

  /** The checks before the backend is asked: the confirmation must match
      (reported first), then the new password needs 8 characters. */
  function CheckPassword(f: SecurityForm): (r: PasswordCheck)
    ensures r == Mismatch <==> f.newPassword != f.confirmPassword
    ensures r == TooShort <==> f.newPassword == f.confirmPassword && |f.newPassword| < MinPasswordLength
    ensures r == Acceptable <==> f.newPassword == f.confirmPassword && |f.newPassword| >= MinPasswordLength
  {
    if f.newPassword != f.confirmPassword then Mismatch
    else if |f.newPassword| < MinPasswordLength then TooShort
    else Acceptable
  }

  datatype PasswordOutcome = Refused(check: PasswordCheck) | BackendFailed | Changed

  // ---------------------------------------------------------------------------
  // Logo

  /** The chosen file: its MIME type and its size in bytes. */
  datatype LogoFile = LogoFile(fileType: string, size: int)

  const MaxLogoBytes := 2 * 1024 * 1024

  datatype LogoCheck = NoFile | InvalidType | TooLarge | LogoAccepted

  predicate AllowedLogoType(t: string) {
    t == "image/jpeg" || t == "image/png" || t == "image/gif"
  }

  /** The type is checked before the size; 2 MiB exactly is accepted. */
  function CheckLogo(file: Option<LogoFile>): (r: LogoCheck)
    ensures r == NoFile <==> file.None?
    ensures r == InvalidType <==> file.Some? && !AllowedLogoType(file.value.fileType)
    ensures r == TooLarge <==> file.Some? && AllowedLogoType(file.value.fileType) && file.value.size > 2097152
    ensures r == LogoAccepted <==> file.Some? && AllowedLogoType(file.value.fileType) && file.value.size <= 2097152
  {
    match file
    case None => NoFile
    case Some(f) =>
      if !AllowedLogoType(f.fileType) then InvalidType
      else if f.size > MaxLogoBytes then TooLarge
      else LogoAccepted
  }

  // ---------------------------------------------------------------------------
  // The page

  datatype PageState = PageState(profileForm: ProfileForm, securityForm: SecurityForm,
                                 companyLogo: Option<LogoFile>, logoPreview: Option<string>)

  class SettingsPage {
    var profileForm: ProfileForm
    var securityForm: SecurityForm
    var companyLogo: Option<LogoFile>
    var logoPreview: Option<string>

    function State(): PageState
      reads this
    {
      PageState(profileForm, securityForm, companyLogo, logoPreview)
    }

    /** The forms filled from the profile present when the page opens. */
    constructor(profile: Option<Profile>)
      ensures State() == PageState(InitialProfileForm(profile), EmptySecurityForm, None, None)
    {
      profileForm := InitialProfileForm(profile);
      securityForm := EmptySecurityForm;
      companyLogo := None;
      logoPreview := None;
    }

    method SetProfileForm(f: ProfileForm)
      modifies this
      ensures State() == old(State()).(profileForm := f)
    {
      profileForm := f;
    }

    method SetSecurityForm(f: SecurityForm)
      modifies this
      ensures State() == old(State()).(securityForm := f)
    {
      securityForm := f;
    }

    /** `handleSaveProfile`; `saved` is whether the backend accepted the
        update. On success the store's profile, if any, takes the form. */
    method HandleSaveProfile(auth: AuthStore.Store, saved: bool)
      requires auth.Valid()
      modifies auth
      ensures auth.Valid()
      ensures saved && old(auth.profile).Some? ==>
        auth.State() == old(auth.State()).(profile := Some(MergeProfile(old(auth.profile).value, profileForm)))
      ensures !(saved && old(auth.profile).Some?) ==> auth.State() == old(auth.State())
    {
      if saved && auth.profile.Some? {
        auth.SetProfile(Some(MergeProfile(auth.profile.value, profileForm)));
      }
    }

    /** `handleChangePassword`; `updated` is whether the backend accepted
        the new password, asked only when the checks pass. Only a change
        clears the three fields. */
    method HandleChangePassword(updated: bool) returns (outcome: PasswordOutcome)
      modifies this
      ensures CheckPassword(old(securityForm)) != Acceptable ==>
        outcome == Refused(CheckPassword(old(securityForm))) && State() == old(State())
      ensures CheckPassword(old(securityForm)) == Acceptable && !updated ==>
        outcome == BackendFailed && State() == old(State())
      ensures CheckPassword(old(securityForm)) == Acceptable && updated ==>
        outcome == Changed && State() == old(State()).(securityForm := EmptySecurityForm)
    {
      var check := CheckPassword(securityForm);
      if check != Acceptable {
        return Refused(check);
      }
      if !updated {
        return BackendFailed;
      }
      securityForm := EmptySecurityForm;
      outcome := Changed;
    }

    /** `handleLogoUpload`; `previewUrl` stands for the object URL made for
        an accepted file. */
    method HandleLogoUpload(file: Option<LogoFile>, previewUrl: string) returns (check: LogoCheck)
      modifies this
      ensures check == CheckLogo(file)
      ensures check == LogoAccepted ==> State() == old(State()).(companyLogo := file, logoPreview := Some(previewUrl))
      ensures check != LogoAccepted ==> State() == old(State())
    {
      check := CheckLogo(file);
      if check == LogoAccepted {
        companyLogo := file;
        logoPreview := Some(previewUrl);
      }
    }
  }
}
