/** The client upload panel (client/src/components/DocumentUpload.tsx): its
    own copy of the allow-lists and limits, keyed by the `documentType`
    prop as a plain string, and the component state that the drag, select,
    upload and clear handlers update. */
module DocumentUpload {
  import opened Common
  import opened Schema
  import DocumentService

  const TenMiB: nat := 10 * 1024 * 1024

  /** The client's `allowedTypes[documentType] || []`. */
  function ClientAllowedTypes(documentType: string): seq<string> {
    if documentType == "government_id" then ["image/jpeg", "image/png", "application/pdf"]
    else if documentType == "selfie" then ["image/jpeg", "image/png"]
    else if documentType == "property_photo" then ["image/jpeg", "image/png", "image/webp"]
    else if documentType == "other" then ["application/pdf", "image/jpeg", "image/png"]
    else []
  }

  /** The client's `maxSizes[documentType] || 10 * 1024 * 1024`. */
  function ClientMaxSize(documentType: string): nat {
    if documentType == "government_id" then 10 * 1024 * 1024
    else if documentType == "selfie" then 5 * 1024 * 1024
    else if documentType == "property_photo" then 10 * 1024 * 1024
    else if documentType == "other" then 15 * 1024 * 1024
    else TenMiB
  }

  /** The `accept` attribute of the hidden file input. */
  function AcceptAttribute(documentType: string): string {
    if documentType == "government_id" then "image/jpeg,image/png,application/pdf"
    else if documentType == "selfie" then "image/jpeg,image/png"
    else if documentType == "property_photo" then "image/jpeg,image/png,image/webp"
    else "application/pdf,image/jpeg,image/png"
  }

  /** A browser `File`: its name, reported MIME type and size in bytes. */
  datatype File = File(name: string, mimeType: string, size: nat)

  predicate ClientAccepts(documentType: string, f: File) {
    f.mimeType in ClientAllowedTypes(documentType) && f.size <= ClientMaxSize(documentType)
  }

  /** For every server document type the client's table, limit and
      acceptance decision are the server's. */
  lemma {:induction false} ClientMatchesServer(t: DocumentType, f: File, bytes: seq<bv8>, userId: string)
    requires |bytes| == f.size
    ensures ClientAllowedTypes(DocumentTypeName(t)) == DocumentService.AllowedMimeTypes(t)
    ensures ClientMaxSize(DocumentTypeName(t)) == DocumentService.MaxFileSize(t)
    ensures ClientAccepts(DocumentTypeName(t), f) <==>
      DocumentService.ValidateDocument(DocumentService.DocumentUploadOptions(userId, t, bytes, f.name, f.mimeType)) == Pass
  {
    match t
    case GovernmentId =>
    case Selfie =>
    case PropertyPhoto =>
    case OtherDocument =>
  }

  /** For every server document type the file picker offers exactly the
      allowed types, comma-separated in the same order. */
  lemma AcceptMatchesAllowList(t: DocumentType)
    ensures AcceptAttribute(DocumentTypeName(t)) == Join(DocumentService.AllowedMimeTypes(t), ",")
  {
    match t
    case GovernmentId => AcceptGovernmentId();
    case Selfie => AcceptSelfie();
    case PropertyPhoto => AcceptPropertyPhoto();
    case OtherDocument => AcceptOther();
  }

  lemma AcceptGovernmentId()
    ensures AcceptAttribute("government_id") == Join(["image/jpeg", "image/png", "application/pdf"], ",")
  {
    var accept := AcceptAttribute("government_id");
    assert accept == "image/jpeg,image/png,application/pdf";
    JoinThree("image/jpeg", "image/png", "application/pdf", ",");
    assert "image/jpeg" + "," + "image/png" + "," + "application/pdf" == accept;
  }

  lemma AcceptSelfie()
    ensures AcceptAttribute("selfie") == Join(["image/jpeg", "image/png"], ",")
  {
    JoinTwo("image/jpeg", "image/png", ",");
  }

  lemma AcceptPropertyPhoto()
    ensures AcceptAttribute("property_photo") == Join(["image/jpeg", "image/png", "image/webp"], ",")
  {
    JoinThree("image/jpeg", "image/png", "image/webp", ",");
  }

  lemma AcceptOther()
    ensures AcceptAttribute("other") == Join(["application/pdf", "image/jpeg", "image/png"], ",")
  {
    JoinThree("application/pdf", "image/jpeg", "image/png", ",");
  }

  lemma JoinTwo(a: string, b: string, sep: string)
    ensures Join([a, b], sep) == a + sep + b
  {
    assert [a, b][1..] == [b];
  }

  lemma JoinThree(a: string, b: string, c: string, sep: string)
    ensures Join([a, b, c], sep) == a + sep + b + sep + c
  {
    assert [a, b, c][1..] == [b, c];
    JoinTwo(b, c, sep);
  }

  /** An unknown type rejects every file, although its picker still offers
      PDF, JPEG and PNG. */
  lemma UnknownTypeRejectsAll(documentType: string, f: File)
    requires documentType !in {"government_id", "selfie", "property_photo", "other"}
    ensures !ClientAccepts(documentType, f)
    ensures ClientMaxSize(documentType) == TenMiB
    ensures AcceptAttribute(documentType) == "application/pdf,image/jpeg,image/png"
  {
  }

  /** What the panel remembers of a finished upload. */
  datatype UploadedFile = UploadedFile(name: string, size: nat, uploadedAt: int)

  /** A request to the `documents.upload` mutation, sent once the file has
      been read. */
  datatype UploadRequest = UploadRequest(documentType: string, fileName: string, mimeType: string)

  class DocumentUploadPanel {
    const documentType: string
    var isDragging: bool
    var selectedFile: Option<File>
    var isUploading: bool
    var uploadedFile: Option<UploadedFile>
    /** Toast notifications shown so far, oldest first. */
    var toasts: seq<string>
    /** Upload requests issued, oldest first. */
    var requests: seq<UploadRequest>

    /** A selected file always passed the client's checks. */
    predicate Valid()
      reads this
    {
      selectedFile.Some? ==> ClientAccepts(documentType, selectedFile.value)
    }

    constructor (documentType: string)
      ensures Valid()
      ensures this.documentType == documentType
      ensures !isDragging && selectedFile.None? && !isUploading && uploadedFile.None?
      ensures toasts == [] && requests == []
    {
      this.documentType := documentType;
      isDragging, selectedFile, isUploading, uploadedFile := false, None, false, None;
      toasts, requests := [], [];
    }

    method HandleDragOver()
      modifies this`isDragging
      ensures isDragging
    {
      isDragging := true;
    }

    method HandleDragLeave()
      modifies this`isDragging
      ensures !isDragging
    {
      isDragging := false;
    }

    /** `handleFileSelect`: a rejected file only raises a toast and leaves
        any earlier selection in place. */
    method HandleFileSelect(file: File)
      requires Valid()
      modifies this`selectedFile, this`toasts
      ensures Valid()
      ensures selectedFile == if ClientAccepts(documentType, file) then Some(file) else old(selectedFile)
      ensures file.mimeType !in ClientAllowedTypes(documentType) ==>
        toasts == old(toasts) + ["Invalid file type. Allowed: " + Join(ClientAllowedTypes(documentType), ", ")]
      ensures file.mimeType in ClientAllowedTypes(documentType) && file.size > ClientMaxSize(documentType) ==>
        toasts == old(toasts) + ["File too large. Max size: " + NatToString(ClientMaxSize(documentType) / (1024 * 1024)) + "MB"]
      ensures ClientAccepts(documentType, file) ==> toasts == old(toasts)
    {
      var allowed := ClientAllowedTypes(documentType);
      var maxSize := ClientMaxSize(documentType);
      if file.mimeType !in allowed {
        toasts := toasts + ["Invalid file type. Allowed: " + Join(allowed, ", ")];
        return;
      }
      if file.size > maxSize {
        toasts := toasts + ["File too large. Max size: " + NatToString(maxSize / (1024 * 1024)) + "MB"];
        return;
      }
      selectedFile := Some(file);
    }

    /** `handleDrop`: dragging ends; only the first dropped file is
        considered. */
    method HandleDrop(files: seq<File>)
      requires Valid()
      modifies this`isDragging, this`selectedFile, this`toasts
      ensures Valid()
      ensures !isDragging
      ensures files == [] ==> selectedFile == old(selectedFile) && toasts == old(toasts)
      ensures files != [] ==>
        selectedFile == if ClientAccepts(documentType, files[0]) then Some(files[0]) else old(selectedFile)
    {
      isDragging := false;
      if |files| > 0 {
        HandleFileSelect(files[0]);
      }
    }

    /** `handleFileInputChange`: `files` is `None` when the input has no
        file list. */
    method HandleFileInputChange(files: Option<seq<File>>)
      requires Valid()
      modifies this`selectedFile, this`toasts
      ensures Valid()
      ensures files.None? || files.value == [] ==> selectedFile == old(selectedFile) && toasts == old(toasts)
      ensures files.Some? && files.value != [] ==>
        selectedFile == if ClientAccepts(documentType, files.value[0]) then Some(files.value[0]) else old(selectedFile)
    {
      if files.Some? && |files.value| > 0 {
        HandleFileSelect(files.value[0]);
      }
    }

    /** `handleUpload`: without a selection nothing happens. Otherwise the
        file is read and the mutation requested when the read completes;
        the `finally` clause runs before that, so `isUploading` is already
        false again when the handler returns. */
    method HandleUpload()
      modifies this`isUploading, this`requests
      ensures old(selectedFile).None? ==> isUploading == old(isUploading) && requests == old(requests)
      ensures old(selectedFile).Some? ==>
        !isUploading
        && requests == old(requests)
             + [UploadRequest(documentType, selectedFile.value.name, selectedFile.value.mimeType)]
    {
      if selectedFile.None? {
        return;
      }
      isUploading := true;
      requests := requests + [UploadRequest(documentType, selectedFile.value.name, selectedFile.value.mimeType)];
      isUploading := false;
    }

    /** The mutation's `onSuccess`: the selection moves to `uploadedFile`,
        an empty name reading as "File" and a missing file as size 0. */
    method OnUploadSuccess(title: string, now: int)
      requires Valid()
      modifies this`selectedFile, this`uploadedFile, this`toasts
      ensures Valid()
      ensures selectedFile.None?
      ensures uploadedFile.Some? && uploadedFile.value.uploadedAt == now
      ensures uploadedFile.value.name ==
        if old(selectedFile).Some? && old(selectedFile).value.name != "" then old(selectedFile).value.name else "File"
      ensures uploadedFile.value.size == if old(selectedFile).Some? then old(selectedFile).value.size else 0
      ensures toasts == old(toasts) + [title + " uploaded successfully"]
    {
      toasts := toasts + [title + " uploaded successfully"];
      var name := if selectedFile.Some? && selectedFile.value.name != "" then selectedFile.value.name else "File";
      var size := if selectedFile.Some? then selectedFile.value.size else 0;
      selectedFile := None;
      uploadedFile := Some(UploadedFile(name, size, now));
    }

    method OnUploadError(message: string)
      modifies this`toasts
      ensures toasts == old(toasts) + ["Upload failed: " + message]
    {
      toasts := toasts + ["Upload failed: " + message];
    }

    /** `handleClear`: forgets both the selection and the finished upload. */
    method HandleClear()
      requires Valid()
      modifies this`selectedFile, this`uploadedFile
      ensures Valid()
      ensures selectedFile.None? && uploadedFile.None?
    {
      selectedFile := None;
      uploadedFile := None;
    }

    /** The remove button beside a selected file: drops the selection only,
        leaving a finished upload in place. */
    method RemoveSelection()
      requires Valid()
      modifies this`selectedFile
      ensures Valid()
      ensures selectedFile.None? && uploadedFile == old(uploadedFile)
    {
      selectedFile := None;
    }
  }
}
