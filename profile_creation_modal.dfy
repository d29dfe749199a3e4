/** The profile creation modal: the same picture checks as the edit form,
    the picture stored under the user's id, and the whole profile written
    by upsert, so creating it again overwrites it. */
module ProfileCreationModal {
  import opened Common
  import opened Toasts
  import opened ProfileEditForm

  const Created: string := "Perfil criado com sucesso!"
  const CreateFailed: string := "Erro ao criar perfil"

  /** Upserting a profile: the row with that id is replaced, every other
      row is kept. */
  function Upsert(profiles: map<string, ProfileRecord>, r: ProfileRecord): (after: map<string, ProfileRecord>)
    ensures r.id in after && after[r.id] == r
    ensures forall id :: id in profiles && id != r.id ==> id in after && after[id] == profiles[id]
    ensures after.Keys == profiles.Keys + {r.id}
  {
    profiles[r.id := r]
  }

  /** Creating a profile twice leaves only the second record: the upsert
      overwrites rather than failing or duplicating. */
  lemma RecreateOverwrites(profiles: map<string, ProfileRecord>, first: ProfileRecord, second: ProfileRecord)
    requires first.id == second.id
    ensures Upsert(Upsert(profiles, first), second) == Upsert(profiles, second)
  {
  }

  class CreationModal {
    const userId: string
    var fullName: string
    var companyName: string
    var phone: string
    var isServiceProvider: bool
    var serviceType: string
    var profileImage: Option<ImageFile>
    var imagePreview: Option<string>
    var profiles: map<string, ProfileRecord>
    var toasts: seq<Toast>
    /** Whether `onClose` was called. */
    var closed: bool

    constructor (userId: string, profiles: map<string, ProfileRecord>)
      ensures this.userId == userId && this.profiles == profiles
      ensures fullName == "" && companyName == "" && phone == "" && !isServiceProvider && serviceType == ""
      ensures profileImage == None && imagePreview == None && toasts == [] && !closed
    {
      this.userId := userId;
      fullName, companyName, phone := "", "", "";
      isServiceProvider := false;
      serviceType := "";
      profileImage, imagePreview := None, None;
      this.profiles := profiles;
      toasts := [];
      closed := false;
    }

    /** `handleImageSelect`, with the edit form's checks. */
    method HandleImageSelect(file: Option<ImageFile>, dataUrl: string)
      modifies this
      ensures file.None? ==> profileImage == old(profileImage) && imagePreview == old(imagePreview) && toasts == old(toasts)
      ensures file.Some? && CheckImage(file.value) != Accepted ==>
        profileImage == old(profileImage) && imagePreview == old(imagePreview) &&
        toasts == old(toasts) + [RejectionToast(CheckImage(file.value))]
      ensures file.Some? && CheckImage(file.value) == Accepted ==>
        profileImage == file && imagePreview == Some(dataUrl) && toasts == old(toasts)
      ensures profiles == old(profiles) && closed == old(closed) && fullName == old(fullName)
    {
      if file.None? {
        return;
      }
      var check := CheckImage(file.value);
      if check != Accepted {
        toasts := toasts + [RejectionToast(check)];
        return;
      }
      profileImage := file;
      imagePreview := Some(dataUrl);
    }

    /** `handleSubmit`: the picture is uploaded first (no picture, or a
        failed upload, leaves the picture null), then the record is
        upserted; success closes the modal, an error only toasts. */
    method HandleSubmit(uploadFails: bool, publicUrl: string -> string, upsertError: Option<string>)
      modifies this
      ensures var record := FormRecord(userId, fullName, companyName, phone, isServiceProvider, serviceType,
                                           PictureUrl(userId, profileImage, uploadFails, publicUrl, None));
        var uploadToasts := if profileImage.Some? && uploadFails then [Toast(ToastKind.Error, ImageUploadFailed)] else [];
        && (upsertError.Some? ==>
              profiles == old(profiles) && closed == old(closed) &&
              toasts == old(toasts) + uploadToasts + [Toast(ToastKind.Error, CreateFailed)])
        && (upsertError.None? ==>
              profiles == Upsert(old(profiles), record) && closed &&
              toasts == old(toasts) + uploadToasts + [Toast(Success, Created)])
      ensures fullName == old(fullName) && profileImage == old(profileImage) && imagePreview == old(imagePreview)
      ensures companyName == old(companyName) && phone == old(phone) && serviceType == old(serviceType)
      ensures isServiceProvider == old(isServiceProvider)
    {
      if profileImage.Some? && uploadFails {
        toasts := toasts + [Toast(ToastKind.Error, ImageUploadFailed)];
      }
      var url := PictureUrl(userId, profileImage, uploadFails, publicUrl, None);
      var record := FormRecord(userId, fullName, companyName, phone, isServiceProvider, serviceType, url);
      if upsertError.Some? {
        toasts := toasts + [Toast(ToastKind.Error, CreateFailed)];
        return;
      }
      profiles := Upsert(profiles, record);
      toasts := toasts + [Toast(Success, Created)];
      closed := true;
    }
  }
}
