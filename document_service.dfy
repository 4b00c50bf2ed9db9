/** Server-side document validation and upload (server/document-service.ts):
    a per-type MIME allow-list and byte limit, checked before the file is
    encrypted and handed to storage. */
module DocumentService {
  import opened Common
  import opened Schema
  import opened Storage

  const MiB: nat := 1024 * 1024

  /** `ALLOWED_MIME_TYPES`. */
  function AllowedMimeTypes(t: DocumentType): seq<string> {
    match t
    case GovernmentId => ["image/jpeg", "image/png", "application/pdf"]
    case Selfie => ["image/jpeg", "image/png"]
    case PropertyPhoto => ["image/jpeg", "image/png", "image/webp"]
    case OtherDocument => ["application/pdf", "image/jpeg", "image/png"]
  }

  /** `MAX_FILE_SIZES`, in bytes. */
  function MaxFileSize(t: DocumentType): nat {
    match t
    case GovernmentId => 10 * MiB
    case Selfie => 5 * MiB
    case PropertyPhoto => 10 * MiB
    case OtherDocument => 15 * MiB
  }

  function InvalidTypeMessage(allowed: seq<string>): string {
    "Invalid file type. Allowed: " + Join(allowed, ", ")
  }

  /** The size message prints the limit in MiB; every limit is a whole
      number of MiB, so the division is exact. */
  function TooLargeMessage(maxSize: nat): string {
    "File too large. Max size: " + NatToString(maxSize / MiB) + "MB"
  }

  datatype DocumentUploadOptions = DocumentUploadOptions(
    userId: string,
    documentType: DocumentType,
    file: seq<bv8>,
    fileName: string,
    mimeType: string)

  /** `validateDocument`: the type is checked first, then the size. */
  function ValidateDocument(o: DocumentUploadOptions): (r: Outcome)
    ensures r == Pass <==> o.mimeType in AllowedMimeTypes(o.documentType) && |o.file| <= MaxFileSize(o.documentType)
    ensures o.mimeType !in AllowedMimeTypes(o.documentType) ==>
      r == Fail(InvalidTypeMessage(AllowedMimeTypes(o.documentType)))
    ensures o.mimeType in AllowedMimeTypes(o.documentType) && |o.file| > MaxFileSize(o.documentType) ==>
      r == Fail(TooLargeMessage(MaxFileSize(o.documentType)))
  {
    var allowedTypes := AllowedMimeTypes(o.documentType);
    var maxSize := MaxFileSize(o.documentType);
    if o.mimeType !in allowedTypes then Fail(InvalidTypeMessage(allowedTypes))
    else if |o.file| > maxSize then Fail(TooLargeMessage(maxSize))
    else Pass
  }

  /** The limits as the messages print them. */
  lemma LimitMessages()
    ensures TooLargeMessage(MaxFileSize(GovernmentId)) == "File too large. Max size: 10MB"
    ensures TooLargeMessage(MaxFileSize(Selfie)) == "File too large. Max size: 5MB"
    ensures TooLargeMessage(MaxFileSize(PropertyPhoto)) == "File too large. Max size: 10MB"
    ensures TooLargeMessage(MaxFileSize(OtherDocument)) == "File too large. Max size: 15MB"
  {
    assert NatToString(10) == NatToString(1) + [DigitChar(0)];
    assert NatToString(15) == NatToString(1) + [DigitChar(5)];
  }

  /** A file of exactly the limit is accepted and one byte more is not. */
  lemma LimitIsInclusive(o: DocumentUploadOptions)
    requires o.mimeType in AllowedMimeTypes(o.documentType)
    ensures |o.file| == MaxFileSize(o.documentType) ==> ValidateDocument(o) == Pass
    ensures |o.file| == MaxFileSize(o.documentType) + 1 ==> ValidateDocument(o).Fail?
  {
  }

  /** A file of the wrong type reports the type error even when it is also
      too large. */
  lemma TypeCheckedBeforeSize(o: DocumentUploadOptions)
    requires o.mimeType !in AllowedMimeTypes(o.documentType)
    requires |o.file| > MaxFileSize(o.documentType)
    ensures ValidateDocument(o) == Fail(InvalidTypeMessage(AllowedMimeTypes(o.documentType)))
  {
  }

  /** No document type accepts an executable. */
  lemma ExecutableRejected(o: DocumentUploadOptions)
    requires o.mimeType == "application/exe"
    ensures ValidateDocument(o).Fail?
  {
    assert o.mimeType !in AllowedMimeTypes(o.documentType);
  }

  /** Selfies are the only type that refuses PDF, and property photos the
      only type that admits WebP. */
  lemma PdfAndWebpPerType(t: DocumentType)
    ensures "application/pdf" in AllowedMimeTypes(t) <==> t != Selfie && t != PropertyPhoto
    ensures "image/webp" in AllowedMimeTypes(t) <==> t == PropertyPhoto
    ensures "image/jpeg" in AllowedMimeTypes(t) && "image/png" in AllowedMimeTypes(t)
  {
  }

  /** What `uploadDocument` returns. */
  datatype DocumentMetadata = DocumentMetadata(
    key: string,
    url: string,
    fileName: string,
    mimeType: string,
    size: nat,
    uploadedAt: int,
    documentType: string)

  function DocumentKey(userId: string, t: DocumentType, timestamp: int, randomSuffix: string): string {
    "documents/" + userId + "/" + DocumentTypeName(t) + "/" + IntToString(timestamp) + "-" + randomSuffix
  }

  /** `uploadDocument`: an invalid file is refused with the validation
      message before anything is encrypted or stored; a valid one is stored
      encrypted as an opaque octet stream. `encrypted` is the AES-256-GCM
      ciphertext of the file, `keyTime` the clock read for the key
      (`Date.now()`), `uploadedAt` the later clock read for the metadata
      (`new Date()`), and `randomSuffix` the random hex suffix of the key. */
  method UploadDocument(blobs: BlobStore, o: DocumentUploadOptions, encrypted: seq<bv8>, keyTime: int,
                        uploadedAt: int, randomSuffix: string, storageAnswer: Result<string>)
    returns (r: Result<DocumentMetadata>)
    modifies blobs
    ensures ValidateDocument(o).Fail? ==>
      r == Failure(ValidateDocument(o).error) && blobs.puts == old(blobs.puts)
    ensures ValidateDocument(o) == Pass ==>
      blobs.puts == old(blobs.puts)
        + [StoredBlob(DocumentKey(o.userId, o.documentType, keyTime, randomSuffix), encrypted, "application/octet-stream")]
    ensures ValidateDocument(o) == Pass && storageAnswer.Failure? ==> r == Failure(storageAnswer.error)
    ensures ValidateDocument(o) == Pass && storageAnswer.Success? ==>
      r == Success(DocumentMetadata(DocumentKey(o.userId, o.documentType, keyTime, randomSuffix), storageAnswer.value,
                                    o.fileName, o.mimeType, |o.file|, uploadedAt, DocumentTypeName(o.documentType)))
  {
    var validation := ValidateDocument(o);
    if validation.Fail? {
      return Failure(validation.error);
    }
    var fileKey := DocumentKey(o.userId, o.documentType, keyTime, randomSuffix);
    var put := blobs.Put(fileKey, encrypted, "application/octet-stream", storageAnswer);
    if put.Failure? {
      return Failure(put.error);
    }
    r := Success(DocumentMetadata(fileKey, put.value, o.fileName, o.mimeType, |o.file|, uploadedAt, DocumentTypeName(o.documentType)));
  }

  /** Every stored key lies under `documents/<userId>/<documentType>/`. */
  lemma DocumentKeyPrefix(userId: string, t: DocumentType, timestamp: int, randomSuffix: string)
    ensures StartsWith(DocumentKey(userId, t, timestamp, randomSuffix), "documents/" + userId + "/" + DocumentTypeName(t) + "/")
  {
    var prefix := "documents/" + userId + "/" + DocumentTypeName(t) + "/";
    assert DocumentKey(userId, t, timestamp, randomSuffix) == prefix + (IntToString(timestamp) + "-" + randomSuffix);
  }
}
