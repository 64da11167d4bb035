/** The avatar picker: the checks applied to a chosen file, and where the cropped image is
    stored. */
module AvatarUpload {
  import opened Wrappers
  import opened JsString

  const NoFileSelected: string := "You must select an image to upload."
  const FileTooLarge: string := "File size must be less than 5MB"
  const NotAnImage: string := "File must be an image"
  /** 5 MiB in bytes; a file of exactly this size is accepted. */
  const MaxFileSize: int := 5 * 1024 * 1024

  /** A chosen file: its size in bytes and its MIME type. */
  datatype File = File(name: string, size: int, mimeType: string)

  /** The file is small enough and of an image type. */
  predicate Acceptable(f: File) {
    f.size <= MaxFileSize && StartsWith(f.mimeType, "image/")
  }

  /** The picker's state: the error line, the success flag, the file last chosen, and whether
      the file is being read for the crop dialog. */
  class Picker {
    var error: Option<string>
    var success: bool
    var selectedFile: Option<File>
    var reading: bool

    constructor()
      ensures error.None? && !success && selectedFile.None? && !reading
    {
      error := None;
      success := false;
      selectedFile := None;
      reading := false;
    }

    /** `onSelectFile` for the input's `files`. */
    method OnSelectFile(files: seq<File>)
      modifies this
      // The error and success flags are reset first.
      ensures !success
      ensures |files| == 0 ==> error == Some(NoFileSelected) && selectedFile == old(selectedFile) && reading == old(reading)
      // The first file is recorded before it is checked, even when it is then rejected.
      ensures |files| > 0 ==> selectedFile == Some(files[0])
      // Size is checked before type, so an oversized non-image reports its size.
      ensures |files| > 0 && files[0].size > MaxFileSize ==> error == Some(FileTooLarge) && reading == old(reading)
      ensures |files| > 0 && files[0].size <= MaxFileSize && !StartsWith(files[0].mimeType, "image/") ==>
        error == Some(NotAnImage) && reading == old(reading)
      ensures |files| > 0 && Acceptable(files[0]) ==> error.None? && reading
      ensures error.None? <==> |files| > 0 && Acceptable(files[0])
    {
      error := None;
      success := false;
      if |files| == 0 {
        error := Some(NoFileSelected);
        return;
      }
      var file := files[0];
      selectedFile := Some(file);
      if file.size > 5 * 1024 * 1024 {
        error := Some(FileTooLarge);
        return;
      }
      if !StartsWith(file.mimeType, "image/") {
        error := Some(NotAnImage);
        return;
      }
      reading := true;
    }
  }

  /** `${userId}/avatar.${fileExt}` with the extension fixed to "jpeg" whatever was uploaded. */
  function StoragePath(userId: string): (r: string)
    ensures |r| == |userId| + 12 && r[..|userId|] == userId
  {
    userId + "/avatar." + "jpeg"
  }

  /** Each user has one avatar object, overwritten by every upload, and no two users share it. */
  lemma StoragePathInjective(a: string, b: string)
    ensures StoragePath(a) == StoragePath(b) ==> a == b
  {
    if StoragePath(a) == StoragePath(b) {
      assert |a| == |b|;
      assert a == StoragePath(a)[..|a|];
    }
  }
}
