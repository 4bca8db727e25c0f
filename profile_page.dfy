/** The profile page (app/profile/page.tsx): the effect that redirects a
    signed-out visitor and prefills the form from the profile, and saving
    the three contact fields. */
module ProfilePage {
  import opened Wrappers
  import opened Auth

  datatype MessageKind = Success | Failure

  /** The banner shown under the form. */
  datatype Message = Message(kind: MessageKind, text: string)

  /** The update the page sends: the row `id == user.id`, three columns. */
  datatype ProfileUpdate = ProfileUpdate(id: string, fullName: string, phone: string, address: string)

  /** The gateway's answer to the update. */
  datatype UpdateAnswer = Updated | UpdateFailed(message: string)

  const NoUserMessage := "No user logged in"
  const SavedMessage := "Profile updated successfully!"

  class ProfileForm {
    var fullName: string
    var phone: string
    var address: string
    var saving: bool
    var message: Option<Message>

    constructor ()
      ensures fullName == "" && phone == "" && address == "" && !saving && message == None
    {
      fullName, phone, address, saving, message := "", "", "", false, None;
    }

    /** The page's effect: a signed-out visitor, once auth has loaded, is
        sent to `/login`; a present profile overwrites the three fields,
        an absent field becoming the empty string. */
    method AuthEffect(authLoading: bool, user: Option<User>, profile: Option<Profile>)
      returns (navigate: Option<string>)
      modifies this`fullName, this`phone, this`address
      ensures navigate.Some? <==> !authLoading && user.None?
      ensures navigate.Some? ==> navigate.value == "/login"
      ensures profile.Some? ==>
        && fullName == profile.value.fullName.GetOr("")
        && phone == profile.value.phone.GetOr("")
        && address == profile.value.address.GetOr("")
      ensures profile.None? ==> fullName == old(fullName) && phone == old(phone) && address == old(address)
    {
      navigate := if !authLoading && user.None? then Some("/login") else None;
      if profile.Some? {
        fullName := profile.value.fullName.GetOr("");
        phone := profile.value.phone.GetOr("");
        address := profile.value.address.GetOr("");
      }
    }

    /** The first two steps of `handleSave`: saving starts and the old
        message is cleared. */
    method BeginSave()
      modifies this`saving, this`message
      ensures saving && message == None
    {
      saving := true;
      message := None;
    }

    /** `handleSave`, run from the form while not saving (the button is
        disabled otherwise). Without a user it fails with "No user logged
        in" and sends nothing. Otherwise it updates exactly the row of the
        user's id with the three fields as they stand; success gives the
        success message, failure an error carrying the gateway's message.
        Saving is false at the end, and the message always comes from this
        save. */
    method Save(user: Option<User>, answer: UpdateAnswer) returns (update: Option<ProfileUpdate>)
      requires !saving
      modifies this`saving, this`message
      ensures !saving && message.Some?
      ensures user.None? ==> update == None && message == Some(Message(Failure, NoUserMessage))
      ensures user.Some? ==> update == Some(ProfileUpdate(user.value.id, fullName, phone, address))
      ensures user.Some? && answer.Updated? ==> message == Some(Message(Success, SavedMessage))
      ensures user.Some? && answer.UpdateFailed? ==> message == Some(Message(Failure, answer.message))
    {
      BeginSave();
      update := None;
      if user.None? {
        message := Some(Message(Failure, NoUserMessage));
      } else {
        update := Some(ProfileUpdate(user.value.id, fullName, phone, address));
        match answer {
          case Updated => message := Some(Message(Success, SavedMessage));
          case UpdateFailed(text) => message := Some(Message(Failure, text));
        }
      }
      saving := false;
    }
  }
}
