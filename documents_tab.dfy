/** The merchant's document list (components/documents/DocumentsTab.tsx):
    upload validation (count, extension, size), deletion, and the download
    link of processed documents. */
module DocumentsTab {
  import opened Wrappers
  import opened Text
  import opened Lists
  import opened Notices

  const AcceptedExtensions: seq<string> := ["pdf", "doc", "docx", "xls", "xlsx"]
  const MaxSizeMb: nat := 5
  const MaxFiles: nat := 5
  const MaxBytes: nat := MaxSizeMb * 1024 * 1024
  const CompletedStatus: string := "completed"

  const LimitNotice: Notice := Notice("الحد الأقصى 5 ملفات فقط", Warning)
  const TypeNotice: Notice := Notice("نوع الملف غير مدعوم", Error)
  const SizeNotice: Notice := Notice("الحجم الأقصى 5 ميجا", Error)
  const UploadedNotice: Notice := Notice("تم رفع الوثيقة بنجاح", Success)
  const DeletedNotice: Notice := Notice("تم حذف الوثيقة بنجاح", Success)

  datatype Doc = Doc(
    id: string,
    filename: string,
    status: string,
    errorMessage: Option<string>,
    createdAt: string,
    fileType: Option<string>)

  function DocId(d: Doc): string {
    d.id
  }

  datatype UploadFile = UploadFile(name: string, size: nat)

  /** `name.split(".").pop()`: the text after the last dot, or the whole
      name when it has no dot. */
  function LastSegment(name: string): (r: string)
    ensures '.' !in r
    ensures |r| <= |name| && r == name[|name| - |r|..]
    ensures |r| < |name| ==> name[|name| - |r| - 1] == '.'
  {
    if name == [] then []
    else if name[|name| - 1] == '.' then []
    else LastSegment(name[..|name| - 1]) + [name[|name| - 1]]
  }

  /** The extension the upload check compares, lower-cased. */
  function Extension(name: string): string {
    ToLowerAscii(LastSegment(name))
  }

  /** The extension is the dot-free tail of the name, after its last dot if
      it has one, lower-cased: no dot and no ASCII capital remains. */
  lemma ExtensionShape(name: string)
    ensures var r := Extension(name);
      |r| <= |name| && r == ToLowerAscii(name[|name| - |r|..])
      && (|r| < |name| ==> name[|name| - |r| - 1] == '.')
      && '.' !in r
      && forall i :: 0 <= i < |r| ==> !('A' <= r[i] <= 'Z')
  {
    var last := LastSegment(name);
    var r := ToLowerAscii(last);
    forall i | 0 <= i < |r| ensures r[i] != '.' {
      assert last[i] != '.';
    }
  }

  /** A name built from a base, a dot and a dot-free suffix has that suffix
      as its last segment, whatever dots the base holds. */
  lemma {:induction false} LastSegmentOfDotted(base: string, suffix: string)
    requires '.' !in suffix
    ensures LastSegment(base + "." + suffix) == suffix
    decreases |suffix|
  {
    var name := base + "." + suffix;
    if suffix == [] {
      assert name[|name| - 1] == '.';
    } else {
      var shorter := suffix[..|suffix| - 1];
      assert name[..|name| - 1] == base + "." + shorter;
      assert '.' !in shorter by {
        forall i | 0 <= i < |shorter| ensures shorter[i] != '.' {
          assert shorter[i] == suffix[i];
        }
      }
      LastSegmentOfDotted(base, shorter);
      assert name[|name| - 1] == suffix[|suffix| - 1];
      assert suffix == shorter + [suffix[|suffix| - 1]];
    }
  }

  /** A name without a dot is its own extension. */
  lemma DotlessName(name: string)
    requires '.' !in name
    ensures LastSegment(name) == name
  {
  }

  datatype UploadVerdict = NoFile | LimitReached | UnsupportedType | TooLarge | Accepted(file: UploadFile)

  /** `handleUpload`'s checks, in their order: no file; five documents
      already listed; an extension outside the whitelist; more than 5 MiB.
      Each check runs only when the earlier ones passed, and the upload is
      attempted only when all pass. */
  function CheckUpload(count: nat, file: Option<UploadFile>): (v: UploadVerdict)
    ensures v.NoFile? <==> file.None?
    ensures v.LimitReached? <==> file.Some? && count >= MaxFiles
    ensures v.UnsupportedType? <==>
      file.Some? && count < MaxFiles && Extension(file.value.name) !in AcceptedExtensions
    ensures v.TooLarge? <==>
      file.Some? && count < MaxFiles && Extension(file.value.name) in AcceptedExtensions
      && file.value.size > MaxBytes
    ensures v.Accepted? <==>
      file.Some? && count < MaxFiles && Extension(file.value.name) in AcceptedExtensions
      && file.value.size <= MaxBytes
    ensures v.Accepted? ==> v.file == file.value
  {
    if file.None? then NoFile
    else if count >= MaxFiles then LimitReached
    else if Extension(file.value.name) !in AcceptedExtensions then UnsupportedType
    else if file.value.size > MaxBytes then TooLarge
    else Accepted(file.value)
  }

  /** A small file whose name ends in a dot and a whitelisted extension, in
      any ASCII case, is accepted while fewer than five documents are listed. */
  lemma AcceptsWhitelisted(count: nat, base: string, ext: string, size: nat)
    requires count < MaxFiles && size <= MaxBytes
    requires ToLowerAscii(ext) in AcceptedExtensions && '.' !in ext
    ensures CheckUpload(count, Some(UploadFile(base + "." + ext, size))) == Accepted(UploadFile(base + "." + ext, size))
  {
    LastSegmentOfDotted(base, ext);
  }

  /** A name without any dot is its own extension, so a small file named
      just "PDF" or "docx", with no extension at all, passes the type check. */
  lemma AcceptsDotlessWhitelisted(count: nat, name: string, size: nat)
    requires count < MaxFiles && size <= MaxBytes
    requires '.' !in name && ToLowerAscii(name) in AcceptedExtensions
    ensures CheckUpload(count, Some(UploadFile(name, size))) == Accepted(UploadFile(name, size))
  {
    DotlessName(name);
  }

  /** The snackbar a rejected upload shows. */
  function RejectionNotice(v: UploadVerdict): (n: Option<Notice>)
    ensures n.Some? <==> v.LimitReached? || v.UnsupportedType? || v.TooLarge?
    ensures n.Some? && v.LimitReached? ==> n.value.variant == Warning
    ensures n.Some? && !v.LimitReached? ==> n.value.variant == Error
  {
    match v
    case LimitReached => Some(LimitNotice)
    case UnsupportedType => Some(TypeNotice)
    case TooLarge => Some(SizeNotice)
    case _ => None
  }

  /** The upload button is disabled during an upload and once five documents are listed. */
  function UploadButtonDisabled(uploading: bool, count: nat): (disabled: bool)
    ensures !disabled ==> CheckUpload(count, None).NoFile? && count < MaxFiles && !uploading
    ensures disabled <==> uploading || count >= MaxFiles
  {
    uploading || count >= MaxFiles
  }

  /** The download link of a row: only for a document whose processing completed. */
  function DownloadHref(merchantId: string, d: Doc): (href: Option<string>)
    ensures href.Some? <==> d.status == CompletedStatus
    ensures href.Some? ==> href.value == "/api/merchants/" + merchantId + "/documents/" + d.id
  {
    if d.status == CompletedStatus then Some("/api/merchants/" + merchantId + "/documents/" + d.id) else None
  }

  class DocumentsPanel {
    const merchantId: string
    var docs: seq<Doc>
    var loading: bool
    var uploading: bool
    var notices: seq<Notice>

    constructor (merchantId: string)
      ensures this.merchantId == merchantId
      ensures docs == [] && loading && !uploading && notices == []
    {
      this.merchantId := merchantId;
      docs := [];
      loading := true;
      uploading := false;
      notices := [];
    }

    /** The first fetch settled: its list, if it came, replaces the documents;
        loading ends either way. */
    method InitialFetchSettled(fetched: Option<seq<Doc>>)
      modifies this
      ensures docs == fetched.GetOr(old(docs))
      ensures !loading && uploading == old(uploading) && notices == old(notices)
    {
      if fetched.Some? {
        docs := fetched.value;
      }
      loading := false;
    }

    /** A fetch started after an upload resolved with this list. */
    method Refetched(list: seq<Doc>)
      modifies this
      ensures docs == list
      ensures loading == old(loading) && uploading == old(uploading) && notices == old(notices)
    {
      docs := list;
    }

    /** A file was picked (`handleUpload`). No file can be picked while the
        list loads (only a progress bar is shown) or while the upload button
        is disabled: then nothing happens (`None`). Otherwise a rejected file
        only adds its snackbar and an accepted one starts the upload. The
        handler's own five-document check never fires: the button is already
        disabled at five. */
    method HandleUpload(file: Option<UploadFile>) returns (verdict: Option<UploadVerdict>)
      modifies this
      ensures verdict.None? <==> old(loading) || UploadButtonDisabled(old(uploading), |old(docs)|)
      ensures verdict.Some? ==> verdict.value == CheckUpload(|old(docs)|, file) && !verdict.value.LimitReached?
      ensures verdict.None? ==> notices == old(notices) && uploading == old(uploading)
      ensures verdict.Some? ==>
        notices == old(notices) + (if RejectionNotice(verdict.value).Some? then [RejectionNotice(verdict.value).value] else [])
        && uploading == verdict.value.Accepted?
      ensures docs == old(docs) && loading == old(loading)
    {
      var count := |docs|;
      if loading || UploadButtonDisabled(uploading, count) {
        verdict := None;
      } else {
        var v := CheckUpload(count, file);
        verdict := Some(v);
        match RejectionNotice(v)
        case Some(n) =>
          notices := notices + [n];
        case None =>
          uploading := v.Accepted?;
      }
      assert count == |old(docs)|;
    }

    /** The upload request resolved: a refetch is issued, the upload flag is
        cleared and success is announced. */
    method UploadCompleted()
      modifies this
      ensures !uploading && notices == old(notices) + [UploadedNotice]
      ensures docs == old(docs) && loading == old(loading)
    {
      uploading := false;
      notices := notices + [UploadedNotice];
    }

    /** `handleDelete`: once the server confirms (`deleted`), exactly the rows
        with that id go and the rest keep their order; a failed request
        changes nothing. The delete buttons are not rendered while loading. */
    method HandleDelete(docId: string, deleted: bool)
      modifies this
      ensures !old(loading) && deleted ==>
        docs == RemoveById(old(docs), DocId, docId) && notices == old(notices) + [DeletedNotice]
      ensures old(loading) || !deleted ==> docs == old(docs) && notices == old(notices)
      ensures loading == old(loading) && uploading == old(uploading)
    {
      if !loading && deleted {
        docs := RemoveById(docs, DocId, docId);
        notices := notices + [DeletedNotice];
      }
    }
  }
}
