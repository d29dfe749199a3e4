/** The file manager of a device: picking files, uploading them one after
    the other through the transfer hook, dropping a picked file, and
    sharing a stored file by a signed link. */
module FileManager {
  import opened Common
  import opened Toasts
  import opened FileTransfer

  datatype FileIcon = ImageIcon | VideoIcon | AudioIcon | ArchiveIcon | GenericIcon

  /** `getFileIcon`: the MIME type is tested against image, video and audio
      prefixes, then for `zip` or `rar` anywhere in it, in that order. */
  function GetFileIcon(mimeType: string): (icon: FileIcon)
    ensures icon == ImageIcon <==> StartsWith(mimeType, "image/")
    ensures icon == VideoIcon <==> !StartsWith(mimeType, "image/") && StartsWith(mimeType, "video/")
    ensures icon == AudioIcon <==>
      !StartsWith(mimeType, "image/") && !StartsWith(mimeType, "video/") && StartsWith(mimeType, "audio/")
    ensures icon == ArchiveIcon <==>
      !StartsWith(mimeType, "image/") && !StartsWith(mimeType, "video/") && !StartsWith(mimeType, "audio/") &&
      (Contains(mimeType, "zip") || Contains(mimeType, "rar"))
  {
    if StartsWith(mimeType, "image/") then ImageIcon
    else if StartsWith(mimeType, "video/") then VideoIcon
    else if StartsWith(mimeType, "audio/") then AudioIcon
    else if Contains(mimeType, "zip") || Contains(mimeType, "rar") then ArchiveIcon
    else GenericIcon
  }

  /** The prefix tests come first: a zip image is shown as an image, and a
      zip archive as an archive. */
  lemma IconPriority()
    ensures GetFileIcon("image/zip") == ImageIcon
    ensures GetFileIcon("application/zip") == ArchiveIcon
    ensures GetFileIcon("application/x-rar-compressed") == ArchiveIcon
  {
    var zip, rar := "application/zip", "application/x-rar-compressed";
    NotMedia(zip);
    NotMedia(rar);
    assert zip[12..15] == "zip";
    assert OccursAt(zip, "zip", 12);
    assert rar[14..17] == "rar";
    assert OccursAt(rar, "rar", 14);
  }

  /** A type whose second letter is `p` has none of the media prefixes. */
  lemma NotMedia(mimeType: string)
    requires |mimeType| >= 6 && mimeType[1] == 'p'
    ensures !StartsWith(mimeType, "image/") && !StartsWith(mimeType, "video/") && !StartsWith(mimeType, "audio/")
  {
    assert mimeType[..6][1] == 'p';
  }

  /** `files.filter((_, i) => i !== index)`: drops the element at `index`
      and keeps the others in order; an index out of range drops nothing. */
  function {:induction false} RemoveAt<T>(s: seq<T>, index: int): (r: seq<T>)
    ensures 0 <= index < |s| ==> r == s[..index] + s[index + 1..]
    ensures !(0 <= index < |s|) ==> r == s
  {
    if s == [] then []
    else if index == 0 then s[1..]
    else
      var rest := RemoveAt(s[1..], index - 1);
      assert 0 < index < |s| ==> s[1..][..index - 1] + s[1..][index..] == s[1..index] + s[index + 1..];
      assert 0 < index < |s| ==> [s[0]] + s[1..index] == s[..index];
      [s[0]] + rest
  }

  const UploadFailed: string := "Erro ao enviar arquivo(s)"
  const ShareCopied: string := "Link de compartilhamento copiado!"
  const ShareFailed: string := "Erro ao compartilhar arquivo"

  /** Seconds a shared link stays valid: 24 hours. */
  const ShareLinkSeconds: nat := 86400

  /** The toast after one upload succeeded. */
  function UploadedToast(f: LocalFile): (t: Toast)
    ensures t.kind == Success && t.message == f.name + " enviado com sucesso!"
  {
    Toast(Success, f.name + " enviado com sucesso!")
  }

  /** What the transfer hook is given for one upload: the fresh transfer id,
      the progress events and the errors storage and the table report. */
  datatype UploadInputs = UploadInputs(transferId: string, events: seq<ProgressEvent>,
                                       uploadError: Option<Thrown>, insertError: Option<Thrown>)

  predicate UploadFails(u: UploadInputs)
  {
    u.uploadError.Some? || u.insertError.Some?
  }

  /** The position of the first upload that fails, or the number of uploads
      when none does. */
  function FirstFailure(inputs: seq<UploadInputs>): (k: nat)
    ensures k <= |inputs|
    ensures forall i :: 0 <= i < k ==> !UploadFails(inputs[i])
    ensures k < |inputs| ==> UploadFails(inputs[k])
  {
    if inputs == [] then 0
    else if UploadFails(inputs[0]) then 0
    else 1 + FirstFailure(inputs[1..])
  }

  /** The error an upload that fails rethrows: the storage error, else the
      table's. */
  function FailureOf(u: UploadInputs): Thrown
    requires UploadFails(u)
  {
    if u.uploadError.Some? then u.uploadError.value else u.insertError.value
  }

  /** The storage paths the first `n` uploads write. */
  function StoredPaths(deviceId: string, path: string, files: seq<LocalFile>, inputs: seq<UploadInputs>, n: nat)
    : set<string>
    requires n <= |files| == |inputs|
  {
    if n == 0 then {}
    else StoredPaths(deviceId, path, files, inputs, n - 1) + {UploadPath(deviceId, path, inputs[n - 1].transferId, files[n - 1].name)}
  }

  /** The paths stored are exactly those of the first `n` uploads. */
  lemma {:induction false} StoredPathsOf(deviceId: string, path: string, files: seq<LocalFile>, inputs: seq<UploadInputs>,
                                         n: nat)
    requires n <= |files| == |inputs|
    ensures forall i :: 0 <= i < n ==> UploadPath(deviceId, path, inputs[i].transferId, files[i].name)
                                       in StoredPaths(deviceId, path, files, inputs, n)
    ensures forall p :: p in StoredPaths(deviceId, path, files, inputs, n) ==>
      exists i :: 0 <= i < n && p == UploadPath(deviceId, path, inputs[i].transferId, files[i].name)
  {
    if n > 0 {
      StoredPathsOf(deviceId, path, files, inputs, n - 1);
    }
  }

  /** The transfer map once the first `n` uploads completed. */
  function CompletedTransfers(transfers: map<string, Transfer>, inputs: seq<UploadInputs>, n: nat)
    : map<string, Transfer>
    requires n <= |inputs|
  {
    if n == 0 then transfers
    else CompletedTransfers(transfers, inputs, n - 1)[inputs[n - 1].transferId := Finished]
  }

  /** Once the first `n` uploads completed each of their entries is
      finished, and every other entry is kept. */
  lemma {:induction false} CompletedTransfersOf(transfers: map<string, Transfer>, inputs: seq<UploadInputs>, n: nat)
    requires n <= |inputs|
    ensures forall i :: 0 <= i < n ==> inputs[i].transferId in CompletedTransfers(transfers, inputs, n) &&
                                       CompletedTransfers(transfers, inputs, n)[inputs[i].transferId] == Finished
    ensures forall id :: id !in transfers && (forall i :: 0 <= i < n ==> inputs[i].transferId != id) ==>
      id !in CompletedTransfers(transfers, inputs, n)
    ensures forall id :: id in transfers && (forall i :: 0 <= i < n ==> inputs[i].transferId != id) ==>
      id in CompletedTransfers(transfers, inputs, n) && CompletedTransfers(transfers, inputs, n)[id] == transfers[id]
  {
    if n > 0 {
      CompletedTransfersOf(transfers, inputs, n - 1);
    }
  }

  /** The `files` rows written by uploads that succeeded. */
  function UploadedRows(deviceId: string, path: string, files: seq<LocalFile>, inputs: seq<UploadInputs>): (rows: seq<FileRow>)
    requires |files| == |inputs|
    ensures |rows| == |files|
    ensures forall i :: 0 <= i < |rows| ==> rows[i].id == inputs[i].transferId && rows[i].name == files[i].name
  {
    seq(|files|, i requires 0 <= i < |files| =>
      FileRow(inputs[i].transferId, deviceId, files[i].name,
              UploadPath(deviceId, path, inputs[i].transferId, files[i].name), files[i].size, files[i].mimeType))
  }

  /** One more successful upload adds its row and its toast at the end. */
  lemma UploadedPrefix(deviceId: string, path: string, files: seq<LocalFile>, inputs: seq<UploadInputs>, i: nat)
    requires |files| == |inputs| && i < |files|
    ensures UploadedRows(deviceId, path, files[..i + 1], inputs[..i + 1]) ==
      UploadedRows(deviceId, path, files[..i], inputs[..i]) +
      [FileRow(inputs[i].transferId, deviceId, files[i].name, UploadPath(deviceId, path, inputs[i].transferId, files[i].name),
               files[i].size, files[i].mimeType)]
    ensures Map(files[..i + 1], UploadedToast) == Map(files[..i], UploadedToast) + [UploadedToast(files[i])]
  {
    assert files[..i + 1] == files[..i] + [files[i]];
    assert inputs[..i + 1] == inputs[..i] + [inputs[i]];
    MapConcat(files[..i], [files[i]], UploadedToast);
  }

  class FileManagerView {
    const hook: FileTransferHook
    var currentPath: string
    var selectedFiles: seq<LocalFile>
    var showShareModal: bool
    var shareEmail: string
    var selectedFileToShare: Option<string>
    var clipboard: Option<string>
    var toasts: seq<Toast>

    constructor (hook: FileTransferHook)
      ensures this.hook == hook && currentPath == "" && selectedFiles == []
      ensures !showShareModal && shareEmail == "" && selectedFileToShare == None
      ensures clipboard == None && toasts == []
    {
      this.hook := hook;
      currentPath := "";
      selectedFiles := [];
      showShareModal := false;
      shareEmail := "";
      selectedFileToShare := None;
      clipboard := None;
      toasts := [];
    }

    /** `handleFileSelect`: the picked files replace the selection. */
    method HandleFileSelect(files: seq<LocalFile>)
      modifies this
      ensures selectedFiles == files
      ensures currentPath == old(currentPath) && toasts == old(toasts)
    {
      selectedFiles := files;
    }

    /** The remove button of the selected file at `index`. */
    method RemoveSelected(index: nat)
      modifies this
      ensures selectedFiles == RemoveAt(old(selectedFiles), index)
      ensures currentPath == old(currentPath) && toasts == old(toasts)
    {
      selectedFiles := RemoveAt(selectedFiles, index);
    }

    /** `handleUpload`: the selected files are uploaded in order, each
        success toasted; the first failure ends the loop with one error
        toast and keeps the selection, which is cleared only when every
        upload succeeded. The transfer hook keeps the objects, rows and
        transfer entries of the uploads up to the failing one: a failure in
        the table still leaves its object in storage, and the failing
        upload's entry records its error. */
    method HandleUpload(inputs: seq<UploadInputs>)
      requires |inputs| == |selectedFiles|
      requires forall i, j :: 0 <= i < |inputs| && 0 <= j < |inputs[i].events| ==> inputs[i].events[j].total > 0.0
      modifies this, hook
      ensures selectedFiles == (if FirstFailure(inputs) == |inputs| then [] else old(selectedFiles))
      ensures UploadsEnded(old(selectedFiles), inputs, old(toasts), old(hook.files), old(hook.storage), old(hook.transfers))
      ensures currentPath == old(currentPath)
    {
      var files := selectedFiles;
      ghost var k := FirstFailure(inputs);
      var i := 0;
      assert files[..0] == [] && inputs[..0] == [];
      while i < |files|
        invariant 0 <= i <= k
        invariant selectedFiles == files && currentPath == old(currentPath)
        invariant UploadedUpTo(files, inputs, i, old(toasts), old(hook.files), old(hook.storage), old(hook.transfers))
      {
        var failed := UploadStep(files, inputs, i, old(toasts), old(hook.files), old(hook.storage), old(hook.transfers));
        if failed {
          return;
        }
        i := i + 1;
      }
      FinishUploads(files, inputs, old(toasts), old(hook.files), old(hook.storage), old(hook.transfers));
    }

    /** The end of the loop once every upload succeeded: the selection is
        cleared. */
    method FinishUploads(files: seq<LocalFile>, inputs: seq<UploadInputs>, ghost toasts0: seq<Toast>,
                         ghost rows0: seq<FileRow>, ghost storage0: set<string>, ghost transfers0: map<string, Transfer>)
      requires FirstFailure(inputs) == |inputs|
      requires UploadedUpTo(files, inputs, |files|, toasts0, rows0, storage0, transfers0)
      modifies this
      ensures selectedFiles == [] && currentPath == old(currentPath)
      ensures UploadsEnded(files, inputs, toasts0, rows0, storage0, transfers0)
    {
      assert files[..|files|] == files && inputs[..|inputs|] == inputs;
      selectedFiles := [];
    }

    /** The state `handleUpload` ends in, from the given toasts, rows,
        objects and transfer entries: with `k` the first failing upload
        (`|files|` when none fails), the `k` successes are toasted, rowed,
        stored and finished, and a failing upload adds the error toast, its
        failed entry, and its object when only the table insert failed. */
    ghost predicate UploadsEnded(files: seq<LocalFile>, inputs: seq<UploadInputs>, toasts0: seq<Toast>,
                                 rows0: seq<FileRow>, storage0: set<string>, transfers0: map<string, Transfer>)
      reads this, hook
    {
      var k := FirstFailure(inputs);
      && |files| == |inputs|
      && toasts == toasts0 + Map(files[..k], UploadedToast) +
                   (if k < |inputs| then [Toast(ToastKind.Error, UploadFailed)] else [])
      && hook.files == rows0 + UploadedRows(hook.deviceId, currentPath, files[..k], inputs[..k])
      && hook.storage == storage0 + StoredPaths(hook.deviceId, currentPath, files, inputs, k) +
           (if k < |inputs| && inputs[k].uploadError.None?
            then {UploadPath(hook.deviceId, currentPath, inputs[k].transferId, files[k].name)} else {})
      && hook.transfers == (if k < |inputs|
                            then CompletedTransfers(transfers0, inputs, k)
                                   [inputs[k].transferId := Failure(FailureOf(inputs[k]), "Upload failed")]
                            else CompletedTransfers(transfers0, inputs, k))
    }

    /** The state after the first `n` uploads of `files` succeeded, from
        the given toasts, rows, objects and transfer entries. */
    ghost predicate UploadedUpTo(files: seq<LocalFile>, inputs: seq<UploadInputs>, n: nat, toasts0: seq<Toast>,
                                 rows0: seq<FileRow>, storage0: set<string>, transfers0: map<string, Transfer>)
      reads this, hook
    {
      && n <= |files| == |inputs|
      && toasts == toasts0 + Map(files[..n], UploadedToast)
      && hook.files == rows0 + UploadedRows(hook.deviceId, currentPath, files[..n], inputs[..n])
      && hook.storage == storage0 + StoredPaths(hook.deviceId, currentPath, files, inputs, n)
      && hook.transfers == CompletedTransfers(transfers0, inputs, n)
    }

    /** Upload `n` of the loop, after the first `n` succeeded: a success
        extends the state to `n + 1` uploads; a failure is the first one,
        and leaves the state `handleUpload` ends in. */
    method UploadStep(files: seq<LocalFile>, inputs: seq<UploadInputs>, n: nat, ghost toasts0: seq<Toast>,
                      ghost rows0: seq<FileRow>, ghost storage0: set<string>, ghost transfers0: map<string, Transfer>)
      returns (failed: bool)
      requires n < |files| == |inputs|
      requires forall j :: 0 <= j < |inputs[n].events| ==> inputs[n].events[j].total > 0.0
      requires UploadedUpTo(files, inputs, n, toasts0, rows0, storage0, transfers0)
      requires n <= FirstFailure(inputs)
      modifies this, hook
      ensures failed == UploadFails(inputs[n])
      ensures failed ==> UploadsEnded(files, inputs, toasts0, rows0, storage0, transfers0)
      ensures !failed ==> UploadedUpTo(files, inputs, n + 1, toasts0, rows0, storage0, transfers0)
      ensures selectedFiles == old(selectedFiles) && currentPath == old(currentPath)
    {
      failed := UploadOne(files[n], inputs[n]);
      if !failed {
        UploadedPrefix(hook.deviceId, currentPath, files, inputs, n);
      }
    }

    /** One upload of the loop, through the transfer hook: a success adds
        its object, its row, its finished entry and its toast; a failure
        adds the error toast and the failing entry, and its object too when
        only the table insert failed. */
    method UploadOne(file: LocalFile, input: UploadInputs) returns (failed: bool)
      requires forall j :: 0 <= j < |input.events| ==> input.events[j].total > 0.0
      modifies this, hook
      ensures failed == UploadFails(input)
      ensures var filePath := UploadPath(hook.deviceId, currentPath, input.transferId, file.name);
        && (!failed ==>
              toasts == old(toasts) + [UploadedToast(file)] &&
              hook.files == old(hook.files) + [FileRow(input.transferId, hook.deviceId, file.name, filePath, file.size,
                                                       file.mimeType)] &&
              hook.storage == old(hook.storage) + {filePath} &&
              hook.transfers == old(hook.transfers)[input.transferId := Finished])
        && (failed ==>
              toasts == old(toasts) + [Toast(ToastKind.Error, UploadFailed)] &&
              hook.files == old(hook.files) &&
              hook.storage == old(hook.storage) + (if input.uploadError.None? then {filePath} else {}) &&
              hook.transfers == old(hook.transfers)[input.transferId := Failure(FailureOf(input), "Upload failed")])
      ensures selectedFiles == old(selectedFiles) && currentPath == old(currentPath)
    {
      var r := hook.UploadFile(file, currentPath, input.transferId, input.events, input.uploadError, input.insertError);
      failed := r.Rethrown?;
      if failed {
        toasts := toasts + [Toast(ToastKind.Error, UploadFailed)];
      } else {
        toasts := toasts + [UploadedToast(file)];
      }
    }

    /** `handleShare`, with `signedUrl` the outcome of creating the link for
        86400 seconds: nothing happens unless a file and an e-mail are set;
        on success the link is copied, toasted and the share state reset. */
    method HandleShare(signedUrl: Result<string>)
      modifies this
      ensures old(selectedFileToShare).None? || old(shareEmail) == "" ==>
        toasts == old(toasts) && clipboard == old(clipboard) && shareEmail == old(shareEmail) &&
        showShareModal == old(showShareModal) && selectedFileToShare == old(selectedFileToShare)
      ensures old(selectedFileToShare).Some? && old(shareEmail) != "" && signedUrl.Err? ==>
        toasts == old(toasts) + [Toast(ToastKind.Error, ShareFailed)] && clipboard == old(clipboard) &&
        shareEmail == old(shareEmail) && showShareModal == old(showShareModal) &&
        selectedFileToShare == old(selectedFileToShare)
      ensures old(selectedFileToShare).Some? && old(shareEmail) != "" && signedUrl.Ok? ==>
        toasts == old(toasts) + [Toast(Success, ShareCopied)] && clipboard == Some(signedUrl.value) &&
        shareEmail == "" && !showShareModal && selectedFileToShare == None
      ensures selectedFiles == old(selectedFiles) && currentPath == old(currentPath)
    {
      if selectedFileToShare.None? || shareEmail == "" {
        return;
      }
      if signedUrl.Err? {
        toasts := toasts + [Toast(ToastKind.Error, ShareFailed)];
        return;
      }
      clipboard := Some(signedUrl.value);
      toasts := toasts + [Toast(Success, ShareCopied)];
      showShareModal := false;
      shareEmail := "";
      selectedFileToShare := None;
    }
  }
}
