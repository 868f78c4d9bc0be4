/**
 * The deterministic part of the extraction pipeline: the per-type dispatch of
 * `extract_data`, the confidence gate and record construction of
 * `process_document`, and the document id taken from the file URI.
 *
 * The remote calls are inputs: `Classification` is what `classify_document`
 * ends in, and `ModelReplies` holds what the remote model would answer to
 * each of the three extraction requests.
 */
module Pipeline {
  import opened Wrappers
  import opened Text
  import opened Schema

  /** A Python exception: the name of its class and `str(e)`. */
  datatype Exception = Exception(typeName: string, message: string)

  /** What one extraction request ends in: a parsed payload, a `ValidationError` (by its text), or another exception. */
  datatype Reply<T> = Parsed(value: T) | Invalid(validationMessage: string) | Raised(error: Exception)

  /** The remote model's answer to each extraction request it could be sent. */
  datatype ModelReplies = ModelReplies(
    judgment: Reply<JudgmentData>,
    dismissal: Reply<DismissalData>,
    affidavit: Reply<AffidavitData>)

  /** What `classify_document` ends in. */
  datatype Classification = Classified(documentType: DocumentType) | ClassifyRaised(error: Exception)

  const OtherNotImplemented := "Extraction for document type 'Other' not implemented."
  const LowConfidence := "Low confidence in document classification."
  const ConfidenceThreshold: real := 0.8

  /** The message of the catch-all `except Exception` clause of extract_data. */
  function UnexpectedError(e: Exception): string {
    "Unexpected error: " + e.typeName + " - " + e.message
  }

  /** The `except` clauses of extract_data applied to the reply to one request. */
  function FromReply<T>(reply: Reply<T>, wrap: T -> Extracted): Extracted {
    match reply
    case Parsed(v) => wrap(v)
    case Invalid(message) => ExtractionError(message)
    case Raised(e) => ExtractionError(UnexpectedError(e))
  }

  /**
   * `extract_data`: ask for the schema of the given type and keep its payload,
   * or turn the failure into an `ExtractionError`; `Other` has no schema.
   */
  function ExtractData(t: DocumentTypeEnum, replies: ModelReplies): (r: Extracted)
    ensures t == Other ==> r == ExtractionError(OtherNotImplemented)
    ensures r.ExtractionError? || VariantType(r) == Some(t)
    ensures t == Judgment && replies.judgment.Parsed? ==> r == AsJudgment(replies.judgment.value)
    ensures t == Judgment && replies.judgment.Invalid? ==> r == ExtractionError(replies.judgment.validationMessage)
    ensures t == Judgment && replies.judgment.Raised? ==> r == ExtractionError(UnexpectedError(replies.judgment.error))
    ensures t == Dismissal && replies.dismissal.Parsed? ==> r == AsDismissal(replies.dismissal.value)
    ensures t == Dismissal && replies.dismissal.Invalid? ==> r == ExtractionError(replies.dismissal.validationMessage)
    ensures t == Dismissal && replies.dismissal.Raised? ==> r == ExtractionError(UnexpectedError(replies.dismissal.error))
    ensures t == Affidavit && replies.affidavit.Parsed? ==> r == AsAffidavit(replies.affidavit.value)
    ensures t == Affidavit && replies.affidavit.Invalid? ==> r == ExtractionError(replies.affidavit.validationMessage)
    ensures t == Affidavit && replies.affidavit.Raised? ==> r == ExtractionError(UnexpectedError(replies.affidavit.error))
  {
    match t
    case Judgment => FromReply(replies.judgment, j => AsJudgment(j))
    case Dismissal => FromReply(replies.dismissal, d => AsDismissal(d))
    case Affidavit => FromReply(replies.affidavit, a => AsAffidavit(a))
    case Other => ExtractionError(OtherNotImplemented)
  }

  /**
   * extract_data consults only the reply to the request it makes; for `Other`
   * it makes none, so its result does not depend on the replies at all.
   */
  lemma ExtractDataReadsOnlyItsSchema(t: DocumentTypeEnum, a: ModelReplies, b: ModelReplies)
    requires t == Judgment ==> a.judgment == b.judgment
    requires t == Dismissal ==> a.dismissal == b.dismissal
    requires t == Affidavit ==> a.affidavit == b.affidavit
    ensures ExtractData(t, a) == ExtractData(t, b)
  {
  }

  /**
   * `file_uri.split(":")[-1]`: the text after the last `:` of the URI, or the
   * whole URI when it has no `:`.
   */
  function DocumentId(uri: string): (id: string)
    ensures ':' !in id
    ensures IsSuffix(id, uri)
    ensures |id| < |uri| ==> uri[|uri| - |id| - 1] == ':'
    ensures ':' !in uri ==> id == uri
  {
    var pieces := Split(uri, ':');
    SplitJoin(uri, ':');
    if |pieces| == 1 then pieces[0]
    else
      JoinLast(pieces, ':');
      pieces[|pieces| - 1]
  }

  /**
   * `process_document`: classify, apply the confidence gate, extract, and
   * build the output record.
   */
  method ProcessDocument(fileUri: string, classification: Classification, replies: ModelReplies)
    returns (doc: LegalDocument)
    ensures doc.fileUri == fileUri
    ensures classification.ClassifyRaised? ==>
      var message := classification.error.message;
      doc == LegalDocument(DocumentId(fileUri), fileUri, Other, ExtractionError(message), [message])
    ensures classification.Classified? && classification.documentType.confidence < ConfidenceThreshold ==>
      doc == LegalDocument(fileUri, fileUri, Other, ExtractionError(LowConfidence), [LowConfidence])
    ensures classification.Classified? && classification.documentType.confidence >= ConfidenceThreshold ==> (
      && doc.documentType == classification.documentType.classification
      && doc.extractedData == ExtractData(doc.documentType, replies)
      && doc.documentId == DocumentId(fileUri)
      && doc.processingErrors == [])
    ensures doc.extractedData.ExtractionError? || VariantType(doc.extractedData) == Some(doc.documentType)
    ensures doc.documentType == Other ==> doc.extractedData.ExtractionError?
    ensures doc.processingErrors != [] ==> (
      && doc.documentType == Other
      && doc.processingErrors == [doc.extractedData.errorMessage])
  {
    var errors: seq<string> := [];
    match classification
    case ClassifyRaised(e) =>
      errors := errors + [e.message];
      doc := LegalDocument(DocumentId(fileUri), fileUri, Other, ExtractionError(e.message), errors);
    case Classified(documentType) =>
      if documentType.confidence < ConfidenceThreshold {
        errors := errors + [LowConfidence];
        doc := LegalDocument(fileUri, fileUri, Other, ExtractionError(LowConfidence), errors);
      } else {
        var extracted := ExtractData(documentType.classification, replies);
        doc := LegalDocument(DocumentId(fileUri), fileUri, documentType.classification, extracted, []);
      }
  }
}
