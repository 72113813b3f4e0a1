/**
 * The media handlers. The refactored bot refuses uploads; bot.js and
 * Node/bot.js save every uploaded document, photo, video or audio with the
 * fixed classification year 4, branch `it`, category `qb`, in a collection
 * whose schema requires a file id and a name and keeps file ids unique.
 */
module Uploads {
  import opened Wrappers
  import opened Strings
  import FileModel
  import opened FileView
  import Menu

  /** One Telegram attachment: `file_id`, and `file_name` where Telegram sends one. */
  datatype Attachment = Attachment(fileId: string, fileName: Option<string>)

  /** The media fields of `ctx.message`; `photo` is the array of sizes. */
  datatype MediaMessage = MediaMessage(document: Option<Attachment>, photo: Option<seq<Attachment>>,
                                       video: Option<Attachment>, audio: Option<Attachment>)

  /**
   * `getFileType(message)`: the first present field in the order document,
   * photo, video, audio. A present `photo` array counts even when empty.
   */
  function FileTypeOf(m: MediaMessage): (k: string)
    ensures k == "unknown" <==> m.document.None? && m.photo.None? && m.video.None? && m.audio.None?
    ensures k != "unknown" ==> Menu.Sendable(k)
    ensures m.document.Some? ==> k == "document"
    ensures m.document.None? && m.photo.Some? ==> k == "photo"
    ensures m.document.None? && m.photo.None? && m.video.Some? ==> k == "video"
    ensures m.document.None? && m.photo.None? && m.video.None? && m.audio.Some? ==> k == "audio"
  {
    if m.document.Some? then "document"
    else if m.photo.Some? then "photo"
    else if m.video.Some? then "video"
    else if m.audio.Some? then "audio"
    else "unknown"
  }

  /** `document || photo?.[0] || video || audio`: an empty `photo` array falls through. */
  function Picked(m: MediaMessage): Option<Attachment> {
    if m.document.Some? then m.document
    else if m.photo.Some? && |m.photo.value| > 0 then Some(m.photo.value[0])
    else if m.video.Some? then m.video
    else m.audio
  }

  /** The attachment the stored type names. */
  function AttachmentOfKind(m: MediaMessage, kind: string): Option<Attachment> {
    if kind == "document" then m.document
    else if kind == "photo" then (if m.photo.Some? && |m.photo.value| > 0 then Some(m.photo.value[0]) else None)
    else if kind == "video" then m.video
    else if kind == "audio" then m.audio
    else None
  }

  /**
   * The saved file id is the attachment of the stored type, so a later
   * download sends the right kind of file, unless `photo` is an empty array
   * (then the type says photo and the id is a later field's).
   */
  lemma PickedMatchesType(m: MediaMessage)
    ensures m.photo.None? || |m.photo.value| > 0 ==> Picked(m) == AttachmentOfKind(m, FileTypeOf(m))
    ensures Picked(m).Some? ==> FileTypeOf(m) != "unknown"
  {
  }

  /** `document?.file_name || 'untitled'`: never empty. */
  function StoredName(m: MediaMessage): (n: string)
    ensures n != ""
    ensures m.document.Some? && Menu.Truthy(m.document.value.fileName) ==> n == m.document.value.fileName.value
    ensures n != "untitled" ==> m.document.Some? && m.document.value.fileName == Some(n)
  {
    if m.document.Some? && Menu.Truthy(m.document.value.fileName) then m.document.value.fileName.value else "untitled"
  }

  /** The year, branch and category every upload is filed under. */
  const UploadYear := "4"
  const UploadBranch := "it"
  const UploadCategory := "qb"

  /** `new File({...})` for the picked attachment, with `_id` `newId`. */
  function UploadedDoc(m: MediaMessage, a: Attachment, newId: string): (d: Doc)
    ensures d.id == newId && d.fileId == a.fileId
    ensures d.fileName == StoredName(m) && d.fileName != ""
    ensures d.fileType == FileTypeOf(m)
    ensures d.yearSem == "4" && d.branch == "it" && d.fileCatgry == "qb"
  {
    Doc(newId, a.fileId, StoredName(m), FileTypeOf(m), UploadYear, UploadBranch, UploadCategory)
  }

  /**
   * What `save()` accepts under the upload bots' own file schema: the five
   * required fields present and no stored file or `_id` repeated. That schema
   * declares no enums, so any strings are accepted.
   */
  predicate Saveable(files: seq<Doc>, d: Doc) {
    && d.fileId != "" && d.fileName != "" && d.yearSem != "" && d.branch != "" && d.fileCatgry != ""
    && forall x :: x in files ==> x.fileId != d.fileId && x.id != d.id
  }

  /** No two stored files share a file id or an `_id`. */
  predicate UniqueKeys(files: seq<Doc>) {
    forall i, j :: 0 <= i < j < |files| ==> files[i].fileId != files[j].fileId && files[i].id != files[j].id
  }

  /**
   * An upload can fail to save only through its attachment: the name and the
   * fixed classification are never empty, so `save()` refuses exactly an
   * empty `file_id`, a `file_id` already stored or an `_id` already taken.
   */
  lemma UploadedDocSaveable(files: seq<Doc>, m: MediaMessage, a: Attachment, newId: string)
    ensures Saveable(files, UploadedDoc(m, a, newId)) <==>
              a.fileId != "" && forall x :: x in files ==> x.fileId != a.fileId && x.id != newId
  {
  }

  /** The handlers' view of the records has unique keys exactly when the records do: one constraint, at two levels. */
  lemma UniqueKeysOfRecords(records: seq<FileModel.FileRecord>)
    ensures UniqueKeys(Menu.DocsOf(records)) <==> FileModel.UniqueKeys(records)
  {
    var docs := Menu.DocsOf(records);
    assert forall i :: 0 <= i < |records| ==> docs[i].fileId == records[i].fileId && docs[i].id == records[i].id;
  }

  datatype UploadResult = UploadResult(files: seq<Doc>, reply: Msg)

  /**
   * The media handler of each revision. The refactored one only replies.
   * The others save the picked attachment and confirm, or reply with the
   * upload error when there is no attachment (the `file_id` read throws) or
   * the save is rejected or fails.
   */
  function OnMedia(rev: Menu.Revision, files: seq<Doc>, m: MediaMessage, newId: string, storeUp: bool): UploadResult {
    if rev == Menu.Refactored then UploadResult(files, UploadNotAllowed)
    else match Picked(m)
      case None => UploadResult(files, UploadFailed)
      case Some(a) =>
        var d := UploadedDoc(m, a, newId);
        if storeUp && Saveable(files, d) then UploadResult(files + [d], UploadSaved)
        else UploadResult(files, UploadFailed)
  }

  /** An upload stores exactly one file, exactly when the confirmation is sent; otherwise nothing changes. */
  lemma UploadStoresIffSaved(rev: Menu.Revision, files: seq<Doc>, m: MediaMessage, newId: string, storeUp: bool)
    ensures var r := OnMedia(rev, files, m, newId, storeUp);
            && (r.reply == UploadSaved <==>
                 rev != Menu.Refactored && Picked(m).Some? && storeUp && Saveable(files, UploadedDoc(m, Picked(m).value, newId)))
            && (r.reply == UploadSaved ==> r.files == files + [UploadedDoc(m, Picked(m).value, newId)])
            && (r.reply != UploadSaved ==> r.files == files)
  {
  }

  /** The refactored bot never stores an upload. */
  lemma RefactoredRefusesUploads(files: seq<Doc>, m: MediaMessage, newId: string, storeUp: bool)
    ensures OnMedia(Menu.Refactored, files, m, newId, storeUp) == UploadResult(files, UploadNotAllowed)
  {
  }

  /** The stored file carries the fixed classification, a non-empty name and a sendable type. */
  lemma UploadFixedClassification(rev: Menu.Revision, files: seq<Doc>, m: MediaMessage, newId: string, storeUp: bool)
    requires OnMedia(rev, files, m, newId, storeUp).reply == UploadSaved
    ensures var d := OnMedia(rev, files, m, newId, storeUp).files[|files|];
            && d.yearSem == "4" && d.branch == "it" && d.fileCatgry == "qb"
            && d.id == newId && d.fileName != "" && Menu.Sendable(d.fileType)
  {
  }

  /** Uploads keep file ids and `_id`s unique. */
  lemma UploadKeepsKeysUnique(rev: Menu.Revision, files: seq<Doc>, m: MediaMessage, newId: string, storeUp: bool)
    requires UniqueKeys(files)
    ensures UniqueKeys(OnMedia(rev, files, m, newId, storeUp).files)
  {
    var r := OnMedia(rev, files, m, newId, storeUp);
    if r.files != files {
      var d := r.files[|files|];
      assert r.files == files + [d];
      forall i, j | 0 <= i < j < |r.files|
        ensures r.files[i].fileId != r.files[j].fileId && r.files[i].id != r.files[j].id
      {
        if j == |files| {
          assert r.files[i] in files;
        }
      }
    }
  }

  /**
   * A saved upload is listed under year 4, IT, question banks (and under
   * all categories there), and downloading it sends the stored attachment
   * with its stored type.
   */
  lemma UploadThenListAndDownload(rev: Menu.Revision, files: seq<Doc>, m: MediaMessage, newId: string, w: Menu.World)
    requires OnMedia(rev, files, m, newId, true).reply == UploadSaved
    requires w.files == OnMedia(rev, files, m, newId, true).files && w.storeUp
    ensures var d := w.files[|files|];
            && d in Menu.FindDocs(w.files, FileModel.QueryFor(UploadYear, UploadBranch, UploadCategory))
            && d in Menu.FindDocs(w.files, FileModel.QueryFor(UploadYear, UploadBranch, Wildcard))
            && Menu.OnFileDownload(newId, w) == [Menu.Lookup(newId), Menu.Send(FileTypeOf(m), Picked(m).value.fileId), Menu.Answer]
  {
    var d := w.files[|files|];
    assert w.files == files + [d];
    assert d in w.files;
    assert Menu.FindDocById(w.files, newId) == Some(d) by {
      FindNewLast(files, d);
    }
  }

  /** Looking up the `_id` of a file appended under a fresh `_id` finds that file. */
  lemma {:induction false} FindNewLast(files: seq<Doc>, d: Doc)
    requires forall x :: x in files ==> x.id != d.id
    ensures Menu.FindDocById(files + [d], d.id) == Some(d)
  {
    if files == [] {
      assert files + [d] == [d];
    } else {
      assert (files + [d])[1..] == files[1..] + [d];
      assert files[0] in files;
      FindNewLast(files[1..], d);
    }
  }
}
