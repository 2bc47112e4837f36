/**
 * The profile photo control (components/AvatarUpload.js): the checks on the
 * chosen file, the storage path it is uploaded to, the cache-busted URL handed
 * back to the page, and the `uploading` flag. The storage upload's answer, the
 * public URL and the clock are inputs; alerts and calls are reported as effects.
 */
module AvatarUpload {
  import opened Js
  import ServiceCard

  /** The placeholder shown without a photo: the same initials rule as a listing card. */
  function AvatarInitials(fullName: Option<string>): (r: string)
    ensures !Truthy(fullName) ==> r == "?"
    ensures Truthy(fullName) ==> r == Upper(ServiceCard.WordStarts(fullName.value, true))
    ensures Truthy(fullName) ==> |r| <= |Split(fullName.value, ' ')|
    ensures Truthy(fullName) ==> forall i :: 0 <= i < |r| ==> !IsLowerLetter(r[i])
  {
    if Truthy(fullName) then ServiceCard.InitialsShape(fullName.value); ServiceCard.Initials(fullName)
    else ServiceCard.Initials(fullName)
  }

  /** The selected file: its name, MIME type and size in bytes. */
  datatype File = File(name: string, mimeType: string, size: int)

  /** The largest accepted photo: 5 MiB. */
  const MaxPhotoBytes: int := 5 * 1024 * 1024

  const NotAnImage: string := "Please select an image file."
  const TooLarge: string := "Image must be under 5MB."

  /** The alert raised before any upload, if the file is refused. */
  function Rejection(file: File): (alert: Option<string>)
    ensures alert.None? <==> StartsWith(file.mimeType, "image/") && file.size <= MaxPhotoBytes
    ensures !StartsWith(file.mimeType, "image/") ==> alert == Some(NotAnImage)
    ensures StartsWith(file.mimeType, "image/") && file.size > MaxPhotoBytes ==> alert == Some(TooLarge)
  {
    if !StartsWith(file.mimeType, "image/") then Some(NotAnImage)
    else if file.size > MaxPhotoBytes then Some(TooLarge)
    else None
  }

  /** `file.name.split('.').pop()` */
  function Extension(name: string): (ext: string)
    ensures '.' !in ext
    ensures '.' !in name ==> ext == name
  {
    SplitJoin(name, '.');
    if '.' !in name then SplitWithoutSep(name, '.'); Last(Split(name, '.'))
    else Last(Split(name, '.'))
  }

  /** The extension is the text after the last '.', or the whole name when there is no '.'. */
  lemma ExtensionAfterLastDot(name: string)
    ensures '.' !in Extension(name)
    ensures '.' !in name ==> Extension(name) == name
    ensures '.' in name ==> exists stem: string :: stem + "." + Extension(name) == name
  {
    var parts := Split(name, '.');
    SplitJoin(name, '.');
    if '.' !in name {
      SplitWithoutSep(name, '.');
    } else {
      // a single piece would be the whole name, which holds a '.'
      assert |parts| >= 2;
      JoinLast(parts, '.');
      var stem := Join(parts[..|parts| - 1], '.');
      assert stem + "." + Extension(name) == name;
    }
  }

  /** `${userId}/avatar.${fileExt}` */
  function AvatarPath(userId: string, fileName: string): (path: string)
    ensures StartsWith(path, userId + "/avatar.") && '.' !in path[|userId + "/avatar."|..]
    ensures '.' !in fileName ==> path == userId + "/avatar." + fileName
    ensures '.' in fileName ==> exists stem: string :: stem + "." + path[|userId + "/avatar."|..] == fileName
  {
    ExtensionAfterLastDot(fileName);
    userId + "/avatar." + Extension(fileName)
  }

  /** `urlData.publicUrl + '?t=' + Date.now()` */
  function VersionedUrl(publicUrl: string, now: nat): (url: string)
    ensures StartsWith(url, publicUrl + "?t=")
    ensures url == publicUrl + "?t=" + NatToString(now)
    ensures |url| > |publicUrl| + 3
    ensures forall i :: |publicUrl| + 3 <= i < |url| ==> IsDigit(url[i])
    ensures DecimalValue(url[|publicUrl| + 3..]) == now
  {
    NatToStringDecimal(now);
    var url := publicUrl + "?t=" + NatToString(now);
    assert url[|publicUrl| + 3..] == NatToString(now);
    url
  }

  /** What one call of `handlePhotoUpload` did. */
  datatype Effects = Effects(
    alert: Option<string>,           // the message of `alert(...)`, if raised
    uploadedTo: Option<string>,      // the storage path of the upload, if attempted
    profilePhoto: Option<string>,    // the `photo_url` written to `profiles`, if any
    photoUpdate: Option<string>)     // the argument of `onPhotoUpdate`, if called

  const NoEffects: Effects := Effects(None, None, None, None)

  /** The control's state: its props and the `uploading` flag. */
  class AvatarUploader {
    const userId: string
    const photoUrl: Option<string>
    const fullName: Option<string>
    var uploading: bool

    constructor (userId: string, photoUrl: Option<string>, fullName: Option<string>)
      ensures this.userId == userId && this.photoUrl == photoUrl && this.fullName == fullName
      ensures !uploading
    {
      this.userId := userId;
      this.photoUrl := photoUrl;
      this.fullName := fullName;
      uploading := false;
    }

    /**
     * `handlePhotoUpload`, given the chosen file (if any), the storage's upload error (if any),
     * the public URL of the stored file and the current time in milliseconds.
     */
    method HandlePhotoUpload(file: Option<File>, uploadError: Option<string>, publicUrl: string, now: nat)
      returns (effects: Effects)
      modifies this
      ensures file.None? ==> effects == NoEffects && uploading == old(uploading)
      ensures file.Some? && Rejection(file.value).Some? ==>
        effects == NoEffects.(alert := Rejection(file.value)) && uploading == old(uploading)
      ensures file.Some? && Rejection(file.value).None? && uploadError.Some? ==>
        effects == NoEffects.(alert := Some("Upload failed: " + uploadError.value),
                              uploadedTo := Some(AvatarPath(userId, file.value.name)))
        && !uploading
      ensures file.Some? && Rejection(file.value).None? && uploadError.None? ==>
        var url := VersionedUrl(publicUrl, now);
        effects == Effects(None, Some(AvatarPath(userId, file.value.name)), Some(url), Some(url))
        && !uploading
    {
      effects := NoEffects;
      if file.None? {
        return;
      }
      var rejection := Rejection(file.value);
      if rejection.Some? {
        effects := effects.(alert := rejection);
        return;
      }
      uploading := true;
      var filePath := userId + "/avatar." + Extension(file.value.name);
      effects := effects.(uploadedTo := Some(filePath));
      if uploadError.Some? {
        effects := effects.(alert := Some("Upload failed: " + uploadError.value));
        uploading := false;
        return;
      }
      var newUrl := publicUrl + "?t=" + NatToString(now);
      effects := effects.(profilePhoto := Some(newUrl));
      effects := effects.(photoUpdate := Some(newUrl));
      uploading := false;
    }
  }

  /** Exactly 5 MiB is accepted, one byte more is refused. */
  lemma SizeLimitBoundary(name: string, mimeType: string)
    requires StartsWith(mimeType, "image/")
    ensures Rejection(File(name, mimeType, 5 * 1024 * 1024)).None?
    ensures Rejection(File(name, mimeType, 5 * 1024 * 1024 + 1)) == Some(TooLarge)
  {
  }
}
