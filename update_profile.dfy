/** The profile editor, src/pages/UpdateProfile.jsx: its form values taken
    from the signed-in user, the Edit/Cancel toggle and the submit cycle of
    the loading, error, success and editing state. */
module UpdateProfile {
  import opened Common
  import Session

  const SuccessText := "Profile updated successfully!"
  const FailureText := "Failed to update profile"

  datatype ProfileForm = ProfileForm(name: string, email: string, website: string)

  /** The argument of `updateUserProfile`. */
  datatype ProfileUpdate = ProfileUpdate(name: string, website: string)

  /** The form values for a user, a missing field becoming "". The published
      user has no `website` field, so that value is always "". */
  function FormFor(user: Option<Session.CurrentUser>): (f: ProfileForm)
    ensures user.Some? ==> f.name == OrElse(user.value.name, "") && f.email == OrElse(user.value.email, "")
    ensures user.None? ==> f.name == "" && f.email == ""
    ensures f.website == ""
  {
    if user.Some? then ProfileForm(OrElse(user.value.name, ""), OrElse(user.value.email, ""), "")
    else ProfileForm("", "", "")
  }

  /** The message shown for a failed update: `err.message || …`. */
  function ErrorText(message: string): (text: string)
    ensures text != ""
    ensures message != "" ==> text == message
  {
    if message != "" then message else FailureText
  }

  class ProfileEditor {
    var isEditing: bool
    var loading: bool
    var error: string
    var success: string
    var form: ProfileForm

    constructor (user: Option<Session.CurrentUser>)
      ensures !isEditing && !loading && error == "" && success == ""
      ensures form == FormFor(user)
    {
      isEditing := false;
      loading := false;
      error := "";
      success := "";
      form := FormFor(user);
    }

    /** The success banner is inside the edit form, so it shows only while
        editing. */
    predicate ShowsSuccess()
      reads this
    {
      isEditing && success != ""
    }

    /** The effect on `user`: the form is reset from a present user and kept
        when the user becomes absent. */
    method OnUserChanged(user: Option<Session.CurrentUser>)
      modifies this
      ensures user.Some? ==> form == FormFor(user)
      ensures user.None? ==> form == old(form)
      ensures isEditing == old(isEditing) && loading == old(loading)
      ensures error == old(error) && success == old(success)
    {
      if user.Some? {
        form := FormFor(user);
      }
    }

    /** Edit Profile; a message left from an earlier submit shows again. */
    method StartEdit()
      modifies this
      ensures isEditing && form == old(form) && error == old(error) && success == old(success)
      ensures loading == old(loading)
      ensures ShowsSuccess() <==> old(success) != ""
    {
      isEditing := true;
    }

    /** Cancel leaves the typed values in the form. */
    method Cancel()
      modifies this
      ensures !isEditing && form == old(form) && error == old(error) && success == old(success)
      ensures loading == old(loading)
    {
      isEditing := false;
    }

    /** Typing into the form. The email input is disabled, so only the name
        and the website can change. */
    method Edit(name: string, website: string)
      modifies this
      ensures form == old(form).(name := name, website := website)
      ensures isEditing == old(isEditing) && loading == old(loading)
      ensures error == old(error) && success == old(success)
    {
      form := form.(name := name, website := website);
    }

    /** Save Changes. The website input has type "url", so the browser
        blocks the submit unless the website is empty or
        `websiteIsUrl` (the browser's verdict on it); an empty name then
        fails the form's `required` rule. A blocked submit sends nothing
        and changes nothing. Otherwise the name and the website, never the
        email, go to the profile update, whose outcome is `outcome`. */
    method Submit(websiteIsUrl: bool, outcome: Outcome) returns (sent: Option<ProfileUpdate>)
      requires isEditing && !loading
      modifies this
      ensures form == old(form) && !loading
      ensures old(form).website != "" && !websiteIsUrl ==>
                sent == None && isEditing && error == old(error) && success == old(success)
      ensures old(form).name == "" ==> sent == None && isEditing && error == old(error) && success == old(success)
      ensures old(form).name != "" && (old(form).website == "" || websiteIsUrl) ==>
                sent == Some(ProfileUpdate(old(form).name, old(form).website))
      ensures sent.Some? && outcome.Done? ==> success == SuccessText && error == "" && !isEditing && !ShowsSuccess()
      ensures sent.Some? && outcome.Failed? ==> error == ErrorText(outcome.message) && success == "" && isEditing
    {
      sent := None;
      if (form.website == "" || websiteIsUrl) && form.name != "" {
        loading := true;
        error := "";
        success := "";
        sent := Some(ProfileUpdate(form.name, form.website));
        if outcome.Done? {
          success := SuccessText;
          isEditing := false;
        } else {
          error := ErrorText(outcome.message);
        }
        loading := false;
      }
    }
  }
}
