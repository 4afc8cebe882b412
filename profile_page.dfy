/** The profile page (`src/pages/ProfilePage.tsx`): it fetches the signed-in user's profile,
    shows it, and lets the user edit full name, bio and location in a form that a toggle opens
    and cancels and a submit saves. Requests and toasts are recorded; the server's answers are
    parameters. */
module ProfilePage {
  import opened Wrappers

  /** The profile the server sends; the optional fields may be null. */
  datatype UserProfile = UserProfile(id: int, username: string, email: Option<string>,
                                     fullName: Option<string>, bio: Option<string>,
                                     location: Option<string>)

  /** The editable fields. */
  datatype FormData = FormData(fullName: string, bio: string, location: string)

  /** The `name` attributes of the form's inputs. */
  datatype Field = FullName | Bio | Location

  const EmptyForm := FormData("", "", "")

  /** `value || ''` for a text the server may send as null. */
  function OrEmpty(v: Option<string>): (r: string)
    ensures v.Some? ==> r == v.value
    ensures v.None? ==> r == ""
  {
    if v.Some? && v.value != "" then v.value else ""
  }

  /** The form filled from a profile: each field's text, or empty when it is null. */
  function FormOf(p: UserProfile): (f: FormData)
    ensures f.fullName == OrEmpty(p.fullName) && f.bio == OrEmpty(p.bio) && f.location == OrEmpty(p.location)
  {
    FormData(OrEmpty(p.fullName), OrEmpty(p.bio), OrEmpty(p.location))
  }

  /** `value || 'Not set'`: what the read-only view shows for a field. */
  function Shown(v: Option<string>): (r: string)
    ensures r != ""
    ensures v.Some? && v.value != "" ==> r == v.value
  {
    if v.Some? && v.value != "" then v.value else "Not set"
  }

  /** The read-only view and the form agree: a field shows its form text, or "Not set" exactly
      when the form would start empty. */
  lemma ViewMatchesForm(v: Option<string>)
    ensures Shown(v) == (if OrEmpty(v) == "" then "Not set" else OrEmpty(v))
    ensures Shown(v) == "Not set" <==> OrEmpty(v) == "" || OrEmpty(v) == "Not set"
  {
  }

  datatype Request = GetProfile(token: string) | PutProfile(token: string, body: FormData)

  datatype Toast = Toast(title: string, description: string, destructive: bool)

  const LoadFailedToast := Toast("Error", "Could not load profile data.", true)
  const SavedToast := Toast("Success", "Profile updated successfully.", false)

  /** How a save ended: the updated profile, a response that was not ok with the `message` of
      its body when that is non-empty, or a thrown error with its message (`""` for none). */
  datatype SaveOutcome = Saved(profile: UserProfile) | Refused(bodyMessage: Option<string>) | Threw(message: string)

  /** The text of the failure toast: `error.message || 'Could not update profile.'`, where a
      refusal throws `errorData.message || 'Failed to update profile'`. */
  function SaveFailureText(outcome: SaveOutcome): (t: string)
    requires !outcome.Saved?
    ensures t != ""
    ensures outcome.Refused? && outcome.bodyMessage.Some? && outcome.bodyMessage.value != "" ==> t == outcome.bodyMessage.value
    ensures outcome.Threw? && outcome.message != "" ==> t == outcome.message
  {
    match outcome
    case Refused(bodyMessage) => if bodyMessage.Some? && bodyMessage.value != "" then bodyMessage.value else "Failed to update profile"
    case Threw(message) => if message != "" then message else "Could not update profile."
  }

  /** What the page renders: the loading text, the failure text, or the card, as a form while
      editing. */
  datatype View = LoadingView | NotLoadedView | ProfileCard(profile: UserProfile, editing: bool)

  /** A text that is present and non-empty, as JavaScript's truthiness tests it. */
  predicate Present(s: Option<string>) {
    s.Some? && s.value != ""
  }

  class ProfilePage {
    /** `auth?.token`, fixed while the page is shown. */
    const token: Option<string>
    var profile: Option<UserProfile>
    var isLoading: bool
    var isEditing: bool
    var formData: FormData
    var requests: seq<Request>
    var toasts: seq<Toast>

    /** Without a token nothing is ever requested, so the page stays loading with no profile. */
    ghost predicate Valid()
      reads this
    {
      !Present(token) ==> requests == [] && isLoading && profile.None?
    }

    constructor(token: Option<string>)
      ensures Valid()
      ensures this.token == token && profile == None && isLoading && !isEditing
      ensures formData == EmptyForm && requests == [] && toasts == []
    {
      this.token := token;
      profile := None;
      isLoading := true;
      isEditing := false;
      formData := EmptyForm;
      requests := [];
      toasts := [];
    }

    function Render(): (v: View)
      reads this
      ensures Valid() && !Present(token) ==> v == LoadingView
      ensures v.LoadingView? <==> isLoading && profile.None?
      ensures v.ProfileCard? ==> profile == Some(v.profile) && v.editing == isEditing
    {
      if isLoading && profile.None? then LoadingView
      else if profile.None? then NotLoadedView
      else ProfileCard(profile.value, isEditing)
    }

    /** The start of `fetchProfile`: without a token nothing happens; otherwise loading starts
        and the profile is requested. */
    method StartFetch()
      requires Valid()
      modifies this
      ensures Valid()
      ensures !Present(token) ==> unchanged(this)
      ensures Present(token) ==> isLoading && requests == old(requests) + [GetProfile(token.value)]
      ensures profile == old(profile) && isEditing == old(isEditing) && formData == old(formData)
      ensures toasts == old(toasts)
    {
      if !Present(token) {
        return;
      }
      isLoading := true;
      requests := requests + [GetProfile(token.value)];
    }

    /** The end of `fetchProfile`, reached only after its request: the profile is stored and
        fills the form, or a toast reports the failure; loading ends either way. */
    method FinishFetch(outcome: Option<UserProfile>)
      requires Valid() && Present(token)
      modifies this
      ensures Valid() && !isLoading
      ensures outcome.Some? ==> profile == outcome && formData == FormOf(outcome.value) && toasts == old(toasts)
      ensures outcome.None? ==> profile == old(profile) && formData == old(formData)
                                && toasts == old(toasts) + [LoadFailedToast]
      ensures isEditing == old(isEditing) && requests == old(requests)
    {
      if outcome.Some? {
        profile := outcome;
        formData := FormData(OrEmpty(outcome.value.fullName), OrEmpty(outcome.value.bio),
                             OrEmpty(outcome.value.location));
      } else {
        toasts := toasts + [LoadFailedToast];
      }
      isLoading := false;
    }

    /** `handleInputChange`: exactly the named field takes the typed text. */
    method HandleInputChange(field: Field, value: string)
      requires Valid()
      modifies this
      ensures Valid()
      ensures formData.fullName == (if field == FullName then value else old(formData.fullName))
      ensures formData.bio == (if field == Bio then value else old(formData.bio))
      ensures formData.location == (if field == Location then value else old(formData.location))
      ensures profile == old(profile) && isLoading == old(isLoading) && isEditing == old(isEditing)
      ensures requests == old(requests) && toasts == old(toasts)
    {
      match field {
        case FullName => formData := formData.(fullName := value);
        case Bio => formData := formData.(bio := value);
        case Location => formData := formData.(location := value);
      }
    }

    /** `handleEditToggle`: edit mode flips; cancelling an edit of a loaded profile discards
        the typed changes by refilling the form from the profile. */
    method HandleEditToggle()
      requires Valid()
      modifies this
      ensures Valid()
      ensures isEditing == !old(isEditing)
      ensures old(isEditing) && old(profile).Some? ==> formData == FormOf(old(profile).value)
      ensures !(old(isEditing) && old(profile).Some?) ==> formData == old(formData)
      ensures profile == old(profile) && isLoading == old(isLoading)
      ensures requests == old(requests) && toasts == old(toasts)
    {
      if isEditing && profile.Some? {
        formData := FormData(OrEmpty(profile.value.fullName), OrEmpty(profile.value.bio),
                             OrEmpty(profile.value.location));
      }
      isEditing := !isEditing;
    }

    /** The start of `handleSubmit`: without a token nothing happens; otherwise loading starts
        and the form is sent. */
    method StartSubmit()
      requires Valid()
      modifies this
      ensures Valid()
      ensures !Present(token) ==> unchanged(this)
      ensures Present(token) ==> isLoading && requests == old(requests) + [PutProfile(token.value, old(formData))]
      ensures profile == old(profile) && isEditing == old(isEditing) && formData == old(formData)
      ensures toasts == old(toasts)
    {
      if !Present(token) {
        return;
      }
      isLoading := true;
      requests := requests + [PutProfile(token.value, formData)];
    }

    /** The end of `handleSubmit`, reached only after its request: a save replaces the profile
        and leaves edit mode; a failure keeps both and shows why. Loading ends either way, and
        the form keeps what was typed. */
    method FinishSubmit(outcome: SaveOutcome)
      requires Valid() && Present(token)
      modifies this
      ensures Valid() && !isLoading && formData == old(formData) && requests == old(requests)
      ensures outcome.Saved? ==> profile == Some(outcome.profile) && !isEditing
                                 && toasts == old(toasts) + [SavedToast]
      ensures !outcome.Saved? ==> profile == old(profile) && isEditing == old(isEditing)
                                  && toasts == old(toasts) + [Toast("Error", SaveFailureText(outcome), true)]
    {
      if outcome.Saved? {
        profile := Some(outcome.profile);
        isEditing := false;
        toasts := toasts + [SavedToast];
      } else {
        toasts := toasts + [Toast("Error", SaveFailureText(outcome), true)];
      }
      isLoading := false;
    }
  }
}
