/** The profile page: the signed-in user's profile shown read-only or in
    edit mode, saved as typed, and a new photo uploaded with a size check
    only. Profile writes go through `updateProfile` and are recorded in the
    order they are sent. */
module ProfilePage {
  import opened Common
  import opened Toasts
  import opened ProfileEditForm

  const PhotoTooLarge: string := "A foto deve ter no máximo 5MB"
  const PhotoUpdated: string := "Foto de perfil atualizada com sucesso!"
  const PhotoFailed: string := "Erro ao atualizar foto de perfil"
  const ProfileSaved: string := "Perfil atualizado com sucesso!"
  const ProfileSaveFailed: string := "Erro ao atualizar perfil"
  const NotProvided: string := "Não informado"

  /** A call of `updateProfile`: the fields of the edit mode, or the new
      photo's URL; `id` is the user the upsert is keyed by. */
  datatype ProfileWrite =
    | SaveFields(id: string, fullName: string, phone: string, companyName: string, isServiceProvider: bool,
                 serviceType: string)
    | SetPicture(id: string, url: string)

  /** `${user?.id}`: the id, or the text `undefined` when nobody is signed
      in. */
  function UserIdText(userId: Option<string>): (t: string)
    ensures userId.Some? ==> t == userId.value
    ensures userId.None? ==> t == "undefined"
  {
    if userId.Some? then userId.value else "undefined"
  }

  /** `updateProfile` does nothing for a missing or empty user id. */
  predicate CanWrite(userId: Option<string>)
  {
    userId.Some? && userId.value != ""
  }

  /** The toasts and writes of one photo upload. */
  datatype PhotoResult = PhotoResult(toasts: seq<Toast>, writes: seq<ProfileWrite>)

  /** `handlePhotoUpload` as written: the file calls `supabase.storage` but
      the file never imports `supabase`, so the first use throws a
      reference error, which the handler catches. Every photo that passes
      the size check ends in the failure toast and nothing is written. */
  function PhotoUploadAsWritten(file: Option<ImageFile>): (r: PhotoResult)
    ensures r.writes == []
  {
    if file.None? then PhotoResult([], [])
    else if file.value.size > MaxImageBytes then PhotoResult([Toast(ToastKind.Error, PhotoTooLarge)], [])
    else PhotoResult([Toast(ToastKind.Error, PhotoFailed)], [])
  }

  /** `handlePhotoUpload` with the database client in scope: only the size
      is checked; the photo is stored as `<user id>.<ext>` and its public
      URL saved through `updateProfile`, which writes nothing without a
      user. An upload or update error gives the failure toast. */
  function PhotoUpload(userId: Option<string>, file: Option<ImageFile>, uploadFails: bool, publicUrl: string -> string,
                       updateFails: bool): (r: PhotoResult)
    ensures file.None? ==> r == PhotoResult([], [])
    ensures file.Some? && file.value.size > MaxImageBytes ==> r == PhotoResult([Toast(ToastKind.Error, PhotoTooLarge)], [])
    ensures file.Some? && file.value.size <= MaxImageBytes && (uploadFails || (CanWrite(userId) && updateFails)) ==>
      r == PhotoResult([Toast(ToastKind.Error, PhotoFailed)], [])
    ensures r.writes != [] <==>
      file.Some? && file.value.size <= MaxImageBytes && !uploadFails && CanWrite(userId) && !updateFails
    ensures r.writes != [] ==>
      r.writes == [SetPicture(userId.value, publicUrl(StorageName(userId.value, file.value.name)))] &&
      r.toasts == [Toast(Success, PhotoUpdated)]
  {
    if file.None? then PhotoResult([], [])
    else if file.value.size > MaxImageBytes then PhotoResult([Toast(ToastKind.Error, PhotoTooLarge)], [])
    else
      var path := StorageName(UserIdText(userId), file.value.name);
      if uploadFails then PhotoResult([Toast(ToastKind.Error, PhotoFailed)], [])
      else if !CanWrite(userId) then PhotoResult([Toast(Success, PhotoUpdated)], [])
      else if updateFails then PhotoResult([Toast(ToastKind.Error, PhotoFailed)], [])
      else PhotoResult([Toast(Success, PhotoUpdated)], [SetPicture(userId.value, publicUrl(path))])
  }

  /** As written, a signed-in user's photo of any accepted size is never
      saved, even when storage and database would both succeed; with the
      client in scope the same upload is saved. */
  lemma PhotoNeverSavedAsWritten(userId: string, file: ImageFile, publicUrl: string -> string)
    requires userId != "" && file.size <= MaxImageBytes
    ensures PhotoUploadAsWritten(Some(file)) == PhotoResult([Toast(ToastKind.Error, PhotoFailed)], [])
    ensures PhotoUpload(Some(userId), Some(file), false, publicUrl, false).writes ==
      [SetPicture(userId, publicUrl(StorageName(userId, file.name)))]
  {
  }

  /** The page checks the size only: a small file of any type is uploaded,
      where the profile forms would reject it. */
  lemma NoTypeCheck(userId: string, publicUrl: string -> string)
    requires userId != ""
    ensures var pdf := ImageFile("cv.pdf", 1024, "application/pdf");
      PhotoUpload(Some(userId), Some(pdf), false, publicUrl, false).writes != [] &&
      CheckImage(pdf) == WrongType
  {
  }

  /** Signed out, the photo would be stored as `undefined.<ext>`. */
  lemma SignedOutPhotoPath(fileName: string)
    ensures StorageName(UserIdText(None), fileName) == "undefined." + LastPart(fileName, '.')
  {
  }

  /** The service-type line: one of the three labels, `Não informado` when
      the type is empty or missing, and nothing for any other type. */
  function ServiceLabel(serviceType: Option<string>): (shown: string)
    ensures serviceType == Some("technical") ==> shown == "Suporte Técnico"
    ensures serviceType == Some("maintenance") ==> shown == "Manutenção"
    ensures serviceType == Some("consulting") ==> shown == "Consultoria"
    ensures serviceType.None? || serviceType == Some("") ==> shown == NotProvided
    ensures shown == "" <==>
      serviceType.Some? && serviceType.value !in ["", "technical", "maintenance", "consulting"]
  {
    (if serviceType == Some("technical") then "Suporte Técnico" else "") +
    (if serviceType == Some("maintenance") then "Manutenção" else "") +
    (if serviceType == Some("consulting") then "Consultoria" else "") +
    (if serviceType.None? || serviceType.value == "" then NotProvided else "")
  }

  class ProfilePageView {
    const userId: Option<string>
    var isEditing: bool
    var fullName: string
    var phone: string
    var companyName: string
    var isServiceProvider: bool
    var serviceType: string
    var writes: seq<ProfileWrite>
    var toasts: seq<Toast>

    /** The edit fields start from the profile available at the first
        render (none while it is loading), null texts as empty strings. */
    constructor (userId: Option<string>, profile: Option<Profile>)
      ensures this.userId == userId && !isEditing && writes == [] && toasts == []
      ensures profile.None? ==> fullName == "" && phone == "" && companyName == "" && !isServiceProvider && serviceType == ""
      ensures profile.Some? ==>
        fullName == OrEmpty(profile.value.fullName) && phone == OrEmpty(profile.value.phone) &&
        companyName == OrEmpty(profile.value.companyName) && isServiceProvider == profile.value.isServiceProvider &&
        serviceType == OrEmpty(profile.value.serviceType)
    {
      this.userId := userId;
      isEditing := false;
      if profile.Some? {
        fullName := OrEmpty(profile.value.fullName);
        phone := OrEmpty(profile.value.phone);
        companyName := OrEmpty(profile.value.companyName);
        isServiceProvider := profile.value.isServiceProvider;
        serviceType := OrEmpty(profile.value.serviceType);
      } else {
        fullName, phone, companyName, isServiceProvider, serviceType := "", "", "", false, "";
      }
      writes := [];
      toasts := [];
    }

    /** `Editar Perfil`. */
    method StartEditing()
      modifies this
      ensures isEditing && writes == old(writes) && toasts == old(toasts)
      ensures fullName == old(fullName) && phone == old(phone) && companyName == old(companyName)
    {
      isEditing := true;
    }

    /** `Cancelar`: leaves edit mode and writes nothing. The typed values
        stay in the fields. */
    method Cancel()
      modifies this
      ensures !isEditing && writes == old(writes) && toasts == old(toasts)
      ensures fullName == old(fullName) && phone == old(phone) && companyName == old(companyName)
    {
      isEditing := false;
    }

    /** `handleSaveProfile`: the fields are sent as typed, empty strings
        included. Success (or no user, when nothing is sent) leaves edit
        mode; an error keeps it. */
    method HandleSaveProfile(updateFails: bool)
      modifies this
      ensures CanWrite(userId) && updateFails ==>
        isEditing == old(isEditing) && writes == old(writes) && toasts == old(toasts) + [Toast(ToastKind.Error, ProfileSaveFailed)]
      ensures CanWrite(userId) && !updateFails ==>
        !isEditing && toasts == old(toasts) + [Toast(Success, ProfileSaved)] &&
        writes == old(writes) + [SaveFields(userId.value, fullName, phone, companyName, isServiceProvider, serviceType)]
      ensures !CanWrite(userId) ==> !isEditing && writes == old(writes) && toasts == old(toasts) + [Toast(Success, ProfileSaved)]
      ensures fullName == old(fullName) && phone == old(phone) && companyName == old(companyName)
      ensures isServiceProvider == old(isServiceProvider) && serviceType == old(serviceType)
    {
      if CanWrite(userId) {
        if updateFails {
          toasts := toasts + [Toast(ToastKind.Error, ProfileSaveFailed)];
          return;
        }
        writes := writes + [SaveFields(userId.value, fullName, phone, companyName, isServiceProvider, serviceType)];
      }
      isEditing := false;
      toasts := toasts + [Toast(Success, ProfileSaved)];
    }

    /** The photo input's change handler, with the client in scope. */
    method HandlePhotoUpload(file: Option<ImageFile>, uploadFails: bool, publicUrl: string -> string, updateFails: bool)
      modifies this
      ensures var r := PhotoUpload(userId, file, uploadFails, publicUrl, updateFails);
        toasts == old(toasts) + r.toasts && writes == old(writes) + r.writes
      ensures isEditing == old(isEditing) && fullName == old(fullName)
    {
      var r := PhotoUpload(userId, file, uploadFails, publicUrl, updateFails);
      toasts := toasts + r.toasts;
      writes := writes + r.writes;
    }
  }
}
