/** The profile edit form: picking a profile picture (checked for size and
    type), uploading it under the profile's id, and saving the profile with
    empty optional fields sent as null. The storage upload and the profile
    upsert report their errors as inputs; the public URL of a stored
    picture is a function given by the caller. */
module ProfileEditForm {
  import opened Common
  import opened Toasts

  /** 5 MiB, the largest picture accepted. */
  const MaxImageBytes: nat := 5 * 1024 * 1024

  const ImageTypes: seq<string> := ["image/jpeg", "image/png"]

  const ImageTooLarge: string := "A imagem deve ter no máximo 5MB"
  const ImageWrongType: string := "Apenas imagens JPEG e PNG são permitidas"
  const ImageUploadFailed: string := "Erro ao fazer upload da imagem"

  /** A picked file. */
  datatype ImageFile = ImageFile(name: string, size: nat, mimeType: string)

  datatype ImageCheck = Accepted | TooLarge | WrongType

  /** The checks of `handleImageSelect`, size first. */
  function CheckImage(f: ImageFile): (c: ImageCheck)
    ensures c == Accepted <==> f.size <= MaxImageBytes && f.mimeType in ImageTypes
    ensures c == TooLarge <==> f.size > MaxImageBytes
    ensures c == WrongType <==> f.size <= MaxImageBytes && f.mimeType !in ImageTypes
  {
    if f.size > MaxImageBytes then TooLarge
    else if f.mimeType !in ImageTypes then WrongType
    else Accepted
  }

  /** Exactly 5 MiB is accepted, one byte more is not, and an oversized
      file of the wrong type is reported as oversized. */
  lemma ImageSizeBoundary(name: string)
    ensures CheckImage(ImageFile(name, 5242880, "image/png")) == Accepted
    ensures CheckImage(ImageFile(name, 5242881, "image/png")) == TooLarge
    ensures CheckImage(ImageFile(name, 5242881, "image/gif")) == TooLarge
  {
  }

  /** The error toast for a rejected picture. */
  function RejectionToast(c: ImageCheck): (t: Toast)
    requires c != Accepted
    ensures t.kind == ToastKind.Error
    ensures c == TooLarge ==> t.message == ImageTooLarge
    ensures c == WrongType ==> t.message == ImageWrongType
  {
    if c == TooLarge then Toast(ToastKind.Error, ImageTooLarge) else Toast(ToastKind.Error, ImageWrongType)
  }

  /** The storage name of a picture: the owner's id, a dot, and the text
      after the last dot of the file's name (all of it when it has none). */
  function StorageName(ownerId: string, fileName: string): string
  {
    ownerId + "." + LastPart(fileName, '.')
  }

  /** A picture named `base.ext` is stored as `id.ext`, whatever dots the
      base contains; a name without a dot is kept whole as the extension. */
  lemma StorageNameExtension(ownerId: string, base: string, ext: string)
    requires '.' !in ext
    ensures StorageName(ownerId, base + "." + ext) == ownerId + "." + ext
    ensures StorageName(ownerId, ext) == ownerId + "." + ext
  {
    LastPartAfter(base, ext, '.');
    assert base + "." + ext == base + ['.'] + ext;
  }

  /** `s || null`. */
  function NullIfEmpty(s: string): (r: Option<string>)
    ensures r.None? <==> s == ""
    ensures r.Some? ==> r.value == s
  {
    if s == "" then None else Some(s)
  }

  /** The profile columns the forms write. */
  datatype ProfileRecord = ProfileRecord(id: string, fullName: string, companyName: Option<string>, phone: Option<string>,
                                         isServiceProvider: bool, serviceType: Option<string>,
                                         profilePicture: Option<string>)

  /** A stored profile as the form receives it; the text columns may be
      null. */
  datatype Profile = Profile(id: string, fullName: Option<string>, companyName: Option<string>, phone: Option<string>,
                             isServiceProvider: bool, serviceType: Option<string>, profilePicture: Option<string>)

  /** The picture URL to save: the stored picture's public URL after a
      successful upload, `fallback` with no new picture or when the upload
      failed. */
  function PictureUrl(ownerId: string, image: Option<ImageFile>, uploadFails: bool, publicUrl: string -> string,
                      fallback: Option<string>): (url: Option<string>)
    ensures image.None? || uploadFails ==> url == fallback
    ensures image.Some? && !uploadFails ==> url == Some(publicUrl(StorageName(ownerId, image.value.name)))
  {
    if image.None? || uploadFails then fallback else Some(publicUrl(StorageName(ownerId, image.value.name)))
  }

  /** The record both profile forms save: the name and the provider flag
      as typed, the optional texts null when empty. */
  function FormRecord(id: string, fullName: string, companyName: string, phone: string, isServiceProvider: bool,
                        serviceType: string, picture: Option<string>): (r: ProfileRecord)
    ensures r.id == id && r.fullName == fullName && r.isServiceProvider == isServiceProvider
    ensures r.companyName == NullIfEmpty(companyName) && r.phone == NullIfEmpty(phone)
    ensures r.serviceType == NullIfEmpty(serviceType) && r.profilePicture == picture
  {
    ProfileRecord(id, fullName, NullIfEmpty(companyName), NullIfEmpty(phone), isServiceProvider,
                  NullIfEmpty(serviceType), picture)
  }

  /** Saving an untouched form writes the profile back as it was, except
      that empty optional texts become null. */
  lemma UntouchedFormRoundTrip(p: Profile)
    requires p.companyName != Some("") && p.phone != Some("") && p.serviceType != Some("")
    ensures FormRecord(p.id, OrEmpty(p.fullName), OrEmpty(p.companyName), OrEmpty(p.phone), p.isServiceProvider,
                         OrEmpty(p.serviceType), p.profilePicture)
         == ProfileRecord(p.id, OrEmpty(p.fullName), p.companyName, p.phone, p.isServiceProvider, p.serviceType,
                          p.profilePicture)
  {
  }

  const Updated: string := "Perfil atualizado com sucesso!"
  const UpdateFailed: string := "Erro ao atualizar perfil"

  class EditForm {
    const profile: Profile
    var fullName: string
    var companyName: string
    var phone: string
    var isServiceProvider: bool
    var serviceType: string
    var profileImage: Option<ImageFile>
    var imagePreview: Option<string>
    /** The `profiles` table, by id. */
    var profiles: map<string, ProfileRecord>
    var toasts: seq<Toast>
    /** Whether `onSave` was called. */
    var saved: bool

    /** The fields start from the profile, null texts as empty strings, and
        the preview shows the current picture. */
    constructor (profile: Profile, profiles: map<string, ProfileRecord>)
      ensures this.profile == profile && this.profiles == profiles
      ensures fullName == OrEmpty(profile.fullName) && companyName == OrEmpty(profile.companyName)
      ensures phone == OrEmpty(profile.phone) && serviceType == OrEmpty(profile.serviceType)
      ensures isServiceProvider == profile.isServiceProvider
      ensures profileImage == None && imagePreview == profile.profilePicture
      ensures toasts == [] && !saved
    {
      this.profile := profile;
      fullName := OrEmpty(profile.fullName);
      companyName := OrEmpty(profile.companyName);
      phone := OrEmpty(profile.phone);
      isServiceProvider := profile.isServiceProvider;
      serviceType := OrEmpty(profile.serviceType);
      profileImage := None;
      imagePreview := profile.profilePicture;
      this.profiles := profiles;
      toasts := [];
      saved := false;
    }

    /** `handleImageSelect`: an accepted file becomes the selection and its
        data URL the preview; a rejected one only adds its error toast. */
    method HandleImageSelect(file: Option<ImageFile>, dataUrl: string)
      modifies this
      ensures file.None? ==> profileImage == old(profileImage) && imagePreview == old(imagePreview) && toasts == old(toasts)
      ensures file.Some? && CheckImage(file.value) != Accepted ==>
        profileImage == old(profileImage) && imagePreview == old(imagePreview) &&
        toasts == old(toasts) + [RejectionToast(CheckImage(file.value))]
      ensures file.Some? && CheckImage(file.value) == Accepted ==>
        profileImage == file && imagePreview == Some(dataUrl) && toasts == old(toasts)
      ensures profiles == old(profiles) && saved == old(saved) && fullName == old(fullName)
    {
      if file.None? {
        return;
      }
      var check := CheckImage(file.value);
      if check != Accepted {
        toasts := toasts + [RejectionToast(check)];
        return;
      }
      profileImage := file;
      imagePreview := Some(dataUrl);
    }

    /** `handleSubmit`: the picture is uploaded first (a failed upload is
        toasted and the current picture kept), then the record is upserted
        under the profile's id. A profile without an id writes nothing but
        still reports success. */
    method HandleSubmit(uploadFails: bool, publicUrl: string -> string, upsertError: Option<string>)
      modifies this
      ensures var record := FormRecord(profile.id, fullName, companyName, phone, isServiceProvider, serviceType,
                                         PictureUrl(profile.id, profileImage, uploadFails, publicUrl, profile.profilePicture));
        var uploadToasts := if profileImage.Some? && uploadFails then [Toast(ToastKind.Error, ImageUploadFailed)] else [];
        && (profile.id == "" ==>
              profiles == old(profiles) && saved && toasts == old(toasts) + uploadToasts + [Toast(Success, Updated)])
        && (profile.id != "" && upsertError.Some? ==>
              profiles == old(profiles) && saved == old(saved) &&
              toasts == old(toasts) + uploadToasts + [Toast(ToastKind.Error, UpdateFailed)])
        && (profile.id != "" && upsertError.None? ==>
              profiles == old(profiles)[profile.id := record] && saved &&
              toasts == old(toasts) + uploadToasts + [Toast(Success, Updated)])
      ensures fullName == old(fullName) && profileImage == old(profileImage) && imagePreview == old(imagePreview)
      ensures companyName == old(companyName) && phone == old(phone) && serviceType == old(serviceType)
      ensures isServiceProvider == old(isServiceProvider)
    {
      if profileImage.Some? && uploadFails {
        toasts := toasts + [Toast(ToastKind.Error, ImageUploadFailed)];
      }
      var url := PictureUrl(profile.id, profileImage, uploadFails, publicUrl, profile.profilePicture);
      var record := FormRecord(profile.id, fullName, companyName, phone, isServiceProvider, serviceType, url);
      if profile.id != "" {
        if upsertError.Some? {
          toasts := toasts + [Toast(ToastKind.Error, UpdateFailed)];
          return;
        }
        profiles := profiles[profile.id := record];
      }
      toasts := toasts + [Toast(Success, Updated)];
      saved := true;
    }
  }
}
