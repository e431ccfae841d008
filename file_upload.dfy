/**
 * The attachment list of the contact wizard: a type and size check per file, a cap on the
 * number of files, in-order append of the accepted ones, and removal by id.
 */
module FileUpload {
  import opened Wrappers
  import opened JsText
  import opened Sequences

  /** File ids are fresh numbers (a clock reading plus a random fraction), supplied by the caller. */
  type FileId = int

  /** What the browser reports of a chosen file: its name, MIME type and size in bytes. */
  datatype File = File(name: string, mimeType: string, size: nat)

  /** An accepted file, as kept in the list. */
  datatype Attachment = Attachment(id: FileId, file: File)

  /** A dropped or picked file, with the id it would get if accepted. */
  datatype Candidate = Candidate(file: File, freshId: FileId)

  const DefaultMaxFiles: nat := 3
  const DefaultMaxSize: nat := 10

  const AllowedTypes: seq<string> := [
    "image/jpeg",
    "image/png",
    "image/gif",
    "application/pdf",
    "application/msword",
    "application/vnd.openxmlformats-officedocument.wordprocessingml.document",
    "text/plain"
  ]

  /** `validateFile`: the type check comes first, then the size limit of `maxSize` mebibytes. */
  function ValidateFile(f: File, maxSize: nat): (r: Option<string>)
    ensures r.None? <==> f.mimeType in AllowedTypes && f.size <= maxSize * 1024 * 1024
    ensures f.mimeType !in AllowedTypes ==> r == Some("File type not supported")
    ensures f.mimeType in AllowedTypes && r.Some? ==> r == Some(SizeMessage(maxSize))
  {
    if f.mimeType !in AllowedTypes then Some("File type not supported")
    else if f.size > maxSize * 1024 * 1024 then Some(SizeMessage(maxSize))
    else None
  }

  function SizeMessage(maxSize: nat): string
  {
    "File size must be less than " + NatToString(maxSize) + "MB"
  }

  function MaxFilesMessage(maxFiles: nat): string
  {
    "Maximum " + NatToString(maxFiles) + " files allowed"
  }

  /** The files accepted so far in a batch and the messages collected for the others. */
  datatype Outcome = Outcome(accepted: seq<Attachment>, errors: seq<string>)

  /** One iteration of the `forEach` of `handleFiles`, with `existing` files already in the list. */
  function Step(existing: nat, maxFiles: nat, maxSize: nat, acc: Outcome, c: Candidate): Outcome
  {
    if existing + |acc.accepted| >= maxFiles then
      Outcome(acc.accepted, acc.errors + [MaxFilesMessage(maxFiles)])
    else
      match ValidateFile(c.file, maxSize)
      case Some(e) => Outcome(acc.accepted, acc.errors + [c.file.name + ": " + e])
      case None => Outcome(acc.accepted + [Attachment(c.freshId, c.file)], acc.errors)
  }

  /** The outcome of `handleFiles` over a whole batch: the `forEach` as a left fold. */
  function Process(existing: nat, maxFiles: nat, maxSize: nat, batch: seq<Candidate>): Outcome
  {
    if batch == [] then Outcome([], [])
    else Step(existing, maxFiles, maxSize, Process(existing, maxFiles, maxSize, batch[..|batch| - 1]), batch[|batch| - 1])
  }

  /** The attachments the batch's valid files would become, in input order, ignoring the cap. */
  function ValidAttachments(batch: seq<Candidate>, maxSize: nat): (r: seq<Attachment>)
    ensures |r| <= |batch|
  {
    if batch == [] then []
    else
      var c := batch[|batch| - 1];
      ValidAttachments(batch[..|batch| - 1], maxSize)
        + (if ValidateFile(c.file, maxSize).None? then [Attachment(c.freshId, c.file)] else [])
  }

  /** The free places in a list of `existing` files. */
  function Slots(existing: nat, maxFiles: nat): nat
  {
    if existing < maxFiles then maxFiles - existing else 0
  }

  /** The first `n` elements, or all of them when there are fewer. */
  function Take<T>(s: seq<T>, n: nat): (r: seq<T>)
    ensures |r| == if n < |s| then n else |s|
  {
    if n < |s| then s[..n] else s
  }

  /**
   * A batch accepts exactly its first valid files, as many as there are free places: invalid
   * files use up no place, and once the list is full every further file is refused.
   */
  lemma {:induction false} ProcessAcceptsFirstValid(existing: nat, maxFiles: nat, maxSize: nat, batch: seq<Candidate>)
    ensures Process(existing, maxFiles, maxSize, batch).accepted
      == Take(ValidAttachments(batch, maxSize), Slots(existing, maxFiles))
  {
    if batch != [] {
      var front := batch[..|batch| - 1];
      var c := batch[|batch| - 1];
      ProcessAcceptsFirstValid(existing, maxFiles, maxSize, front);
      var acc := Process(existing, maxFiles, maxSize, front);
      var v := ValidAttachments(front, maxSize);
      var slots := Slots(existing, maxFiles);
      if existing + |acc.accepted| >= maxFiles {
        assert |v| >= slots;
      } else {
        assert acc.accepted == v;
      }
    }
  }

  /** Every file of a batch is either accepted or reported, never both. */
  lemma {:induction false} ProcessAccountsForEveryFile(existing: nat, maxFiles: nat, maxSize: nat, batch: seq<Candidate>)
    ensures |Process(existing, maxFiles, maxSize, batch).accepted| + |Process(existing, maxFiles, maxSize, batch).errors| == |batch|
  {
    if batch != [] {
      ProcessAccountsForEveryFile(existing, maxFiles, maxSize, batch[..|batch| - 1]);
    }
  }

  /** A list that starts within the cap stays within it. */
  lemma ProcessRespectsCap(existing: nat, maxFiles: nat, maxSize: nat, batch: seq<Candidate>)
    requires existing <= maxFiles
    ensures existing + |Process(existing, maxFiles, maxSize, batch).accepted| <= maxFiles
  {
    ProcessAcceptsFirstValid(existing, maxFiles, maxSize, batch);
  }

  /** `removeFile`'s filter test. */
  function HasOtherId(id: FileId): Attachment -> bool
  {
    (a: Attachment) => a.id != id
  }

  /** The upload widget's state: the accepted files and the progress shown per file id. */
  class FileUploader {
    const maxFiles: nat
    const maxSize: nat
    var files: seq<Attachment>
    var uploadProgress: map<FileId, real>

    ghost predicate Valid()
      reads this
    {
      |files| <= maxFiles
    }

    constructor(maxFiles: nat, maxSize: nat)
      ensures Valid()
      ensures this.maxFiles == maxFiles && this.maxSize == maxSize
      ensures files == [] && uploadProgress == map[]
    {
      this.maxFiles := maxFiles;
      this.maxSize := maxSize;
      files := [];
      uploadProgress := map[];
    }

    /**
     * `handleFiles`: appends the accepted files after the existing ones and returns the list
     * handed to `onFilesChange` (only when something was accepted) and the alert lines.
     */
    method HandleFiles(batch: seq<Candidate>) returns (notified: Option<seq<Attachment>>, alerts: seq<string>)
      requires Valid()
      modifies this
      ensures Valid()
      ensures files == old(files) + Process(|old(files)|, maxFiles, maxSize, batch).accepted
      ensures alerts == Process(|old(files)|, maxFiles, maxSize, batch).errors
      ensures notified.Some? <==> |files| > |old(files)|
      ensures notified.Some? ==> notified.value == files
      ensures uploadProgress == old(uploadProgress)
    {
      var valid: seq<Attachment> := [];
      var errors: seq<string> := [];
      var i := 0;
      while i < |batch|
        invariant 0 <= i <= |batch|
        invariant Outcome(valid, errors) == Process(|files|, maxFiles, maxSize, batch[..i])
      {
        assert batch[..i + 1][..i] == batch[..i];
        var c := batch[i];
        if |files| + |valid| >= maxFiles {
          errors := errors + [MaxFilesMessage(maxFiles)];
        } else {
          var error := ValidateFile(c.file, maxSize);
          if error.Some? {
            errors := errors + [c.file.name + ": " + error.value];
          } else {
            valid := valid + [Attachment(c.freshId, c.file)];
          }
        }
        i := i + 1;
      }
      assert batch[..i] == batch;
      ProcessRespectsCap(|files|, maxFiles, maxSize, batch);
      notified := None;
      if |valid| > 0 {
        files := files + valid;
        notified := Some(files);
      }
      alerts := errors;
    }

    /** `removeFile`: drops every entry with the id, keeps the rest in order, and forgets its progress. */
    method RemoveFile(id: FileId) returns (notified: seq<Attachment>)
      requires Valid()
      modifies this
      ensures Valid()
      ensures files == Filter(old(files), HasOtherId(id))
      ensures uploadProgress == old(uploadProgress) - {id}
      ensures notified == files
    {
      files := Filter(files, HasOtherId(id));
      uploadProgress := uploadProgress - {id};
      notified := files;
    }

    /** One tick of the simulated upload of file `id`, reaching `progress` percent. */
    method ReportProgress(id: FileId, progress: real)
      requires 0.0 <= progress <= 100.0
      modifies this
      ensures files == old(files)
      ensures uploadProgress == old(uploadProgress)[id := progress]
    {
      uploadProgress := uploadProgress[id := progress];
    }
  }

  /** Removal leaves no entry with the id and keeps every other entry, in order. */
  lemma RemoveFileKeepsOthers(files: seq<Attachment>, id: FileId)
    ensures forall i :: 0 <= i < |Filter(files, HasOtherId(id))| ==> Filter(files, HasOtherId(id))[i].id != id
    ensures forall i :: 0 <= i < |files| && files[i].id != id ==> files[i] in Filter(files, HasOtherId(id))
    ensures IsSubsequence(Filter(files, HasOtherId(id)), files)
    ensures forall g :: multiset(Filter(files, HasOtherId(id)))[g] == (if g.id == id then 0 else multiset(files)[g])
  {
    FilterMultiset(files, HasOtherId(id));
    var r := Filter(files, HasOtherId(id));
    FilterMembers(files, HasOtherId(id));
    forall i | 0 <= i < |r|
      ensures r[i].id != id
    {
      assert HasOtherId(id)(r[i]);
    }
    forall i | 0 <= i < |files| && files[i].id != id
      ensures files[i] in r
    {
      assert HasOtherId(id)(files[i]);
    }
    FilterIsSubsequence(files, HasOtherId(id));
  }

  /** A file exactly at the size limit passes; one byte more does not. */
  lemma SizeLimitIsInclusive(name: string, mimeType: string, maxSize: nat)
    requires mimeType in AllowedTypes
    ensures ValidateFile(File(name, mimeType, maxSize * 1024 * 1024), maxSize).None?
    ensures ValidateFile(File(name, mimeType, maxSize * 1024 * 1024 + 1), maxSize) == Some(SizeMessage(maxSize))
  {
  }
}
