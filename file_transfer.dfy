/** File transfers of one device, as the `useFileTransfer` hook runs them:
    a status entry per transfer, the `file_transfers` storage bucket and the
    `files` table. The transfer id (a fresh UUID), the upload's progress
    events and the errors storage and database report are inputs. */
module FileTransfer {
  import opened Common

  datatype Status = Pending | Uploading | Downloading | Completed | Error

  /** One entry of `transfers`. */
  datatype Transfer = Transfer(progress: real, status: Status, error: Option<string>)

  /** What a failed call throws: an `Error` with its message, or some other
      value. */
  datatype Thrown = ErrorObject(message: string) | OtherValue

  /** The file the user picked. */
  datatype LocalFile = LocalFile(name: string, size: nat, mimeType: string)

  /** A row of `files`. */
  datatype FileRow = FileRow(id: string, deviceId: string, name: string, path: string, size: nat, mimeType: string)

  /** One `onUploadProgress` event. */
  datatype ProgressEvent = ProgressEvent(loaded: real, total: real)

  /** What `uploadFile` gives: the transfer id and path, or what it rethrows. */
  datatype UploadResult = Uploaded(transferId: string, filePath: string) | Rethrown(thrown: Thrown)

  const Start: Transfer := Transfer(0.0, Pending, None)
  const Finished: Transfer := Transfer(100.0, Completed, None)

  /** The storage name of an upload: the transfer id, a dash, the file's
      name. */
  function StoredName(transferId: string, name: string): string
  {
    transferId + "-" + name
  }

  /** The storage path of an upload: under the device's folder, and under
      `path` inside it when a path is given. */
  function UploadPath(deviceId: string, path: string, transferId: string, name: string): (filePath: string)
    ensures path == "" ==> filePath == Join([deviceId, StoredName(transferId, name)], "/")
    ensures path != "" ==> filePath == Join([deviceId, path, StoredName(transferId, name)], "/")
  {
    if path != "" then deviceId + "/" + path + "/" + StoredName(transferId, name)
    else deviceId + "/" + StoredName(transferId, name)
  }

  /** Read back along `/`, an upload path gives the device id, the folder if
      one was given, and the stored name, provided none of them contains a
      slash. */
  lemma UploadPathSegments(deviceId: string, path: string, transferId: string, name: string)
    requires '/' !in deviceId && '/' !in path && '/' !in transferId && '/' !in name
    ensures path == "" ==>
      Split(UploadPath(deviceId, path, transferId, name), '/') == [deviceId, StoredName(transferId, name)]
    ensures path != "" ==>
      Split(UploadPath(deviceId, path, transferId, name), '/') == [deviceId, path, StoredName(transferId, name)]
  {
    var stored := StoredName(transferId, name);
    assert '/' !in stored;
    if path == "" {
      SplitJoin([deviceId, stored], '/');
    } else {
      SplitJoin([deviceId, path, stored], '/');
    }
  }

  /** The progress of an event in percent. */
  function Percentage(e: ProgressEvent): (pct: real)
    requires e.total > 0.0
    ensures 0.0 <= e.loaded <= e.total ==> 0.0 <= pct <= 100.0
    ensures e.loaded == e.total ==> pct == 100.0
  {
    (e.loaded / e.total) * 100.0
  }

  /** The entry of a failed transfer: the error's message, or `fallback`
      when what was thrown is not an `Error`. */
  function Failure(thrown: Thrown, fallback: string): (t: Transfer)
    ensures t.progress == 0.0 && t.status == Error && t.error.Some?
    ensures thrown.ErrorObject? ==> t.error.value == thrown.message
    ensures thrown.OtherValue? ==> t.error.value == fallback
  {
    Transfer(0.0, Error, Some(if thrown.ErrorObject? then thrown.message else fallback))
  }

  /** The entry after a run of progress events: the percentage of the
      last event, uploading; the entry `before` when there was none. */
  function LastProgress(before: Transfer, events: seq<ProgressEvent>): (t: Transfer)
    requires forall i :: 0 <= i < |events| ==> events[i].total > 0.0
    ensures events != [] ==> t.status == Uploading && t.error == None
    ensures events != [] && 0.0 <= events[|events| - 1].loaded <= events[|events| - 1].total ==>
      0.0 <= t.progress <= 100.0
  {
    if events == [] then before else Transfer(Percentage(events[|events| - 1]), Uploading, None)
  }

  /** Writing a key twice keeps only the second write. */
  lemma Overwrite<K, V>(m: map<K, V>, k: K, a: V, b: V)
    ensures m[k := a][k := b] == m[k := b]
  {
  }

  /** `file.path != path`, the rows a delete by path keeps. */
  function PathIsNot(path: string): FileRow -> bool
  {
    (f: FileRow) => f.path != path
  }

  class FileTransferHook {
    const deviceId: string
    var transfers: map<string, Transfer>
    /** The object paths in the `file_transfers` bucket. */
    var storage: set<string>
    /** The `files` table. */
    var files: seq<FileRow>

    constructor (deviceId: string, storage: set<string>, files: seq<FileRow>)
      ensures this.deviceId == deviceId && transfers == map[]
      ensures this.storage == storage && this.files == files
    {
      this.deviceId := deviceId;
      transfers := map[];
      this.storage := storage;
      this.files := files;
    }

    /** `setTransfers(prev => ({...prev, [id]: t}))`: rewrites one entry and
        leaves every other entry as it was. */
    method SetTransfer(id: string, t: Transfer)
      modifies this
      ensures transfers == old(transfers)[id := t]
      ensures forall k :: k in old(transfers) && k != id ==> k in transfers && transfers[k] == old(transfers)[k]
      ensures storage == old(storage) && files == old(files)
    {
      transfers := transfers[id := t];
    }

    /** The `onUploadProgress` callback. */
    method OnUploadProgress(transferId: string, e: ProgressEvent)
      requires e.total > 0.0
      modifies this
      ensures transfers == old(transfers)[transferId := Transfer(Percentage(e), Uploading, None)]
      ensures storage == old(storage) && files == old(files)
    {
      SetTransfer(transferId, Transfer(Percentage(e), Uploading, None));
    }

    /** The progress events of one upload, in order: each rewrites the
        entry, so the last one decides it; without events the entry stays
        as it was. */
    method FollowProgress(transferId: string, events: seq<ProgressEvent>)
      requires transferId in transfers
      requires forall i :: 0 <= i < |events| ==> events[i].total > 0.0
      modifies this
      ensures transfers == old(transfers)[transferId := LastProgress(old(transfers)[transferId], events)]
      ensures storage == old(storage) && files == old(files)
    {
      var i := 0;
      while i < |events|
        invariant 0 <= i <= |events|
        invariant transfers == old(transfers)[transferId := LastProgress(old(transfers)[transferId], events[..i])]
        invariant storage == old(storage) && files == old(files)
      {
        OnUploadProgress(transferId, events[i]);
        assert events[..i + 1][i] == events[i];
        i := i + 1;
      }
      assert events[..i] == events;
    }

    /** `uploadFile`: the entry starts pending, follows the progress events,
        and becomes completed only once both the storage upload and the
        `files` insert succeeded; either failure leaves it in error with
        progress 0, and what was thrown is rethrown. A failed insert leaves
        the uploaded object in storage. */
    method UploadFile(file: LocalFile, path: string, transferId: string, events: seq<ProgressEvent>,
                      uploadError: Option<Thrown>, insertError: Option<Thrown>)
      returns (r: UploadResult)
      requires forall i :: 0 <= i < |events| ==> events[i].total > 0.0
      modifies this
      ensures var filePath := UploadPath(deviceId, path, transferId, file.name);
        var row := FileRow(transferId, deviceId, file.name, filePath, file.size, file.mimeType);
        && (uploadError.Some? ==>
              r == Rethrown(uploadError.value) && storage == old(storage) && files == old(files) &&
              transfers == old(transfers)[transferId := Failure(uploadError.value, "Upload failed")])
        && (uploadError.None? && insertError.Some? ==>
              r == Rethrown(insertError.value) && storage == old(storage) + {filePath} && files == old(files) &&
              transfers == old(transfers)[transferId := Failure(insertError.value, "Upload failed")])
        && (uploadError.None? && insertError.None? ==>
              r == Uploaded(transferId, filePath) && storage == old(storage) + {filePath} &&
              files == old(files) + [row] && transfers == old(transfers)[transferId := Finished])
      ensures transfers[transferId].status == Completed <==> uploadError.None? && insertError.None?
    {
      var filePath := UploadPath(deviceId, path, transferId, file.name);
      SetTransfer(transferId, Start);
      FollowProgress(transferId, events);
      ghost var progress := LastProgress(Start, events);
      Overwrite(old(transfers), transferId, Start, progress);
      if uploadError.Some? {
        SetTransfer(transferId, Failure(uploadError.value, "Upload failed"));
        Overwrite(old(transfers), transferId, progress, Failure(uploadError.value, "Upload failed"));
        return Rethrown(uploadError.value);
      }
      storage := storage + {filePath};
      if insertError.Some? {
        SetTransfer(transferId, Failure(insertError.value, "Upload failed"));
        Overwrite(old(transfers), transferId, progress, Failure(insertError.value, "Upload failed"));
        return Rethrown(insertError.value);
      }
      files := files + [FileRow(transferId, deviceId, file.name, filePath, file.size, file.mimeType)];
      SetTransfer(transferId, Finished);
      Overwrite(old(transfers), transferId, progress, Finished);
      r := Uploaded(transferId, filePath);
    }

    /** `downloadFile`: the entry goes from pending straight to completed, or
        to error when the download fails; it is never `downloading`.
        Storage and the table are only read. */
    method DownloadFile(filePath: string, transferId: string, downloadError: Option<Thrown>)
      returns (rethrown: Option<Thrown>)
      modifies this
      ensures rethrown == downloadError
      ensures downloadError.None? ==> transfers == old(transfers)[transferId := Finished]
      ensures downloadError.Some? ==>
        transfers == old(transfers)[transferId := Failure(downloadError.value, "Download failed")]
      ensures transfers[transferId].status != Downloading
      ensures storage == old(storage) && files == old(files)
    {
      SetTransfer(transferId, Start);
      if downloadError.Some? {
        SetTransfer(transferId, Failure(downloadError.value, "Download failed"));
        return downloadError;
      }
      SetTransfer(transferId, Finished);
      rethrown := None;
    }

    /** `deleteFile`: the storage object goes first; only once that
        succeeded are the `files` rows with that path deleted. A storage
        error leaves both untouched, a database error leaves the rows. */
    method DeleteFile(filePath: string, storageError: Option<Thrown>, dbError: Option<Thrown>)
      returns (rethrown: Option<Thrown>)
      modifies this
      ensures storageError.Some? ==> rethrown == storageError && storage == old(storage) && files == old(files)
      ensures storageError.None? ==> storage == old(storage) - {filePath} && rethrown == dbError
      ensures storageError.None? && dbError.Some? ==> files == old(files)
      ensures storageError.None? && dbError.None? ==> files == Filter(old(files), PathIsNot(filePath))
      ensures transfers == old(transfers)
    {
      if storageError.Some? {
        return storageError;
      }
      storage := storage - {filePath};
      if dbError.Some? {
        return dbError;
      }
      files := Filter(files, PathIsNot(filePath));
      rethrown := None;
    }
  }

  /** After a successful delete no row has the deleted path, and every other
      row is kept in order. */
  lemma {:induction false} DeleteKeepsOthers(files: seq<FileRow>, filePath: string)
    ensures forall i :: 0 <= i < |Filter(files, PathIsNot(filePath))| ==>
      Filter(files, PathIsNot(filePath))[i].path != filePath
    ensures (forall i :: 0 <= i < |files| ==> files[i].path != filePath) ==>
      Filter(files, PathIsNot(filePath)) == files
  {
    if forall i :: 0 <= i < |files| ==> files[i].path != filePath {
      FilterKeepsAll(files, PathIsNot(filePath));
    }
  }
}
