/**
 * The medical-image upload form (src/components/medical/ImageUpload.tsx): a
 * chosen file is kept only when it is an image of at most 5 MiB; an upload
 * stores the file under a path built from the user id and the current time,
 * then records its metadata, and on success clears the form. Storage and
 * table calls are parameters that succeed or fail; `Date.now()` is `now`.
 */
module ImageUpload {

  import opened Wrappers
  import opened Strings
  import opened Entities

  /** The browser's `File`: its name, MIME type and size in bytes. */
  datatype File = File(name: string, mimeType: string, size: nat)

  /** 5 MiB, the largest accepted size. */
  const MaxSize: nat := 5 * 1024 * 1024

  /** The outcome of `handleFileChange`'s two checks, in the order they are made. */
  datatype FileCheck = NotAnImage | TooLarge | Accepted

  function CheckFile(f: File): (c: FileCheck)
    ensures c == Accepted <==> StartsWith(f.mimeType, "image/") && f.size <= MaxSize
    ensures c == NotAnImage <==> !StartsWith(f.mimeType, "image/")
    ensures c == TooLarge ==> f.size > MaxSize
  {
    if !StartsWith(f.mimeType, "image/") then NotAnImage
    else if f.size > MaxSize then TooLarge
    else Accepted
  }

  /** The size bound is inclusive: exactly 5 MiB passes, one byte more does not. */
  lemma SizeBoundInclusive(name: string, mimeType: string)
    requires StartsWith(mimeType, "image/")
    ensures CheckFile(File(name, mimeType, 5242880)) == Accepted
    ensures CheckFile(File(name, mimeType, 5242881)) == TooLarge
  {
  }

  /** `file.name.split('.').pop()`. */
  function Extension(name: string): (ext: string)
    ensures '.' !in ext && |ext| <= |name| && ext == name[|name| - |ext|..]
    ensures '.' !in name ==> ext == name
    ensures |ext| < |name| ==> name[|name| - |ext| - 1] == '.'
  {
    LastPieceIsAfterLastSeparator(name, '.');
    LastPiece(name, '.')
  }

  /** `${user.id}/${Date.now()}.${fileExt}`. */
  function FileName(userId: UserId, now: nat, ext: string): string {
    userId + "/" + NatToString(now) + "." + ext
  }

  /** `${user.id}/${fileName}`: the user id appears twice. */
  function FilePath(userId: UserId, now: nat, name: string): string {
    userId + "/" + FileName(userId, now, Extension(name))
  }

  /** The text after a last separator is the last piece. */
  lemma LastPieceAfter(a: string, sep: char, b: string)
    requires sep !in b
    ensures LastPiece(a + [sep] + b, sep) == b
  {
    SplitConcat(a, sep, b);
    SplitWithoutSeparator(b, sep);
  }

  /**
   * For a user id and a file name without `/`, the stored path splits into
   * the user id, the user id again and `<now>.<ext>`, and the extension read
   * back from the path is the file's own.
   */
  lemma PathLayout(userId: UserId, now: nat, name: string)
    requires '/' !in userId && '/' !in name
    ensures Split(FilePath(userId, now, name), '/') == [userId, userId, NatToString(now) + "." + Extension(name)]
    ensures LastPiece(FilePath(userId, now, name), '.') == Extension(name)
  {
    var stamp := NatToString(now);
    var ext := Extension(name);
    NoSlashInFileName(stamp, ext, name);
    PathPieces(userId, stamp, ext);
    PathExtension(userId, stamp, ext);
  }

  /** Neither the digits of the time stamp nor an extension taken from a name without `/` hold a `/`. */
  lemma NoSlashInFileName(stamp: string, ext: string, name: string)
    requires '/' !in name && |ext| <= |name| && ext == name[|name| - |ext|..]
    requires forall i :: 0 <= i < |stamp| ==> IsDigit(stamp[i])
    ensures '/' !in stamp + "." + ext
  {
    assert '/' !in ext by {
      assert forall i :: 0 <= i < |ext| ==> ext[i] == name[|name| - |ext| + i];
    }
    assert '/' !in stamp;
  }

  /** A path with two `/` after the user id, and none elsewhere, splits at them. */
  lemma PathPieces(userId: UserId, stamp: string, ext: string)
    requires '/' !in userId && '/' !in stamp + "." + ext
    ensures Split(userId + "/" + (userId + "/" + stamp + "." + ext), '/') == [userId, userId, stamp + "." + ext]
  {
    var last := stamp + "." + ext;
    assert userId + "/" + (userId + "/" + stamp + "." + ext) == userId + ['/'] + (userId + ['/'] + last);
    SplitAtFirst(userId, '/', userId + ['/'] + last);
    SplitAtFirst(userId, '/', last);
    SplitWithoutSeparator(last, '/');
  }

  /** The extension read back from the path is the one written after its last `.`. */
  lemma PathExtension(userId: UserId, stamp: string, ext: string)
    requires '.' !in ext
    ensures LastPiece(userId + "/" + (userId + "/" + stamp + "." + ext), '.') == ext
  {
    assert userId + "/" + (userId + "/" + stamp + "." + ext) == (userId + ['/'] + userId + ['/'] + stamp) + ['.'] + ext;
    LastPieceAfter(userId + ['/'] + userId + ['/'] + stamp, '.', ext);
  }

  /** A `medical_images` row. */
  datatype ImageRow = ImageRow(
    patientId: UserId,
    appointmentId: Option<string>,
    filePath: string,
    fileName: string,
    fileType: string,
    description: Option<string>)

  /** The metadata inserted after the file is stored; an absent or empty appointment id is null. */
  function Metadata(userId: UserId, appointmentId: Option<string>, path: string, f: File, description: string): (row: ImageRow)
    ensures row.patientId == userId && row.filePath == path
    ensures row.fileName == f.name && row.fileType == f.mimeType
    ensures row.appointmentId.None? <==> appointmentId.GetOr("") == ""
    ensures row.appointmentId.Some? ==> appointmentId == row.appointmentId
    ensures row.description.None? <==> description == ""
    ensures row.description.GetOr("") == description
  {
    ImageRow(userId, NullIfEmpty(appointmentId.GetOr("")), path, f.name, f.mimeType, NullIfEmpty(description))
  }

  class Uploader {
    var file: Option<File>
    var preview: Option<string>
    var description: string
    var uploading: bool
    /** The storage uploads attempted, by path. */
    var stored: seq<string>
    /** The metadata rows whose insert was attempted. */
    var inserted: seq<ImageRow>
    /** How many times `onUploadComplete` was called. */
    var completed: nat

    constructor ()
      ensures file == None && preview == None && description == "" && !uploading
      ensures stored == [] && inserted == [] && completed == 0
    {
      file := None;
      preview := None;
      description := "";
      uploading := false;
      stored := [];
      inserted := [];
      completed := 0;
    }

    /**
     * `handleFileChange`: a selected file is kept only when it passes both
     * checks; a rejected one leaves the held file as it was. The preview is
     * set later by the file reader (`PreviewLoaded`).
     */
    method HandleFileChange(selected: Option<File>)
      modifies this
      ensures file == (if selected.Some? && CheckFile(selected.value) == Accepted then selected else old(file))
      ensures preview == old(preview) && description == old(description) && uploading == old(uploading)
      ensures stored == old(stored) && inserted == old(inserted) && completed == old(completed)
    {
      if selected.Some? {
        var f := selected.value;
        if CheckFile(f) == Accepted {
          file := Some(f);
        }
      }
    }

    /** The reader's `onloadend`. */
    method PreviewLoaded(dataUrl: string)
      modifies this`preview
      ensures preview == Some(dataUrl)
    {
      preview := Some(dataUrl);
    }

    method SetDescription(text: string)
      modifies this`description
      ensures description == text
    {
      description := text;
    }

    /** `clearFile`. */
    method ClearFile()
      modifies this`file, this`preview
      ensures file == None && preview == None
    {
      file := None;
      preview := None;
    }

    /**
     * `handleUpload`. `user` is `None` when there is no signed-in user (or
     * `getUser` throws, which ends the same way); `storageOk` and `dbOk` are
     * the outcomes of the upload and of the insert. Nothing is called without
     * a file or a user; the metadata is inserted only after the file is
     * stored; only when both succeed is the form cleared.
     */
    method HandleUpload(user: Option<UserId>, now: nat, appointmentId: Option<string>, storageOk: bool, dbOk: bool)
      modifies this
      ensures old(file).None? ==> file == old(file) && preview == old(preview) && description == old(description)
                                  && uploading == old(uploading) && stored == old(stored)
                                  && inserted == old(inserted) && completed == old(completed)
      ensures old(file).Some? ==> !uploading
      ensures old(file).Some? && user.None? ==> file == old(file) && preview == old(preview) && description == old(description)
                                                && stored == old(stored) && inserted == old(inserted) && completed == old(completed)
      ensures old(file).Some? && user.Some? ==>
                var path := FilePath(user.value, now, old(file).value.name);
                var row := Metadata(user.value, appointmentId, path, old(file).value, old(description));
                stored == old(stored) + [path]
                && inserted == old(inserted) + (if storageOk then [row] else [])
                && (storageOk && dbOk ==> file == None && preview == None && description == "" && completed == old(completed) + 1)
                && (!(storageOk && dbOk) ==> file == old(file) && preview == old(preview) && description == old(description)
                                             && completed == old(completed))
    {
      if file.None? {
        return;
      }
      var f := file.value;
      uploading := true;
      if user.Some? {
        var uid := user.value;
        var path := FilePath(uid, now, f.name);
        stored := stored + [path];
        if storageOk {
          inserted := inserted + [Metadata(uid, appointmentId, path, f, description)];
          if dbOk {
            file := None;
            preview := None;
            description := "";
            completed := completed + 1;
          }
        }
      }
      uploading := false;
    }
  }
}
