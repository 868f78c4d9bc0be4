# legal_doc_extract — a Dafny model of its validators and routing

`legal_doc_extract.py` uploads a PDF, asks a remote model to classify it as a
Judgment, Dismissal, Affidavit or Other document with a confidence score, asks
the model again for the structured fields of the matching schema, and prints a
`LegalDocument` record. Almost all of it is remote calls. This project models
the deterministic logic around those calls:

- the `JudgmentData` field validators: the case-number format check, comma
  stripping for money fields and keyword normalisation of the satisfaction
  status. It also models the `check_interest_rate` validator and the value
  constraints `ge=0` / `le=1` on the amount, fee and rate fields;
- `extract_data`: the per-type dispatch, the fixed error for `Other`, and how a
  validation error or any other exception becomes an `ExtractionError`;
- `process_document`: the 0.8 confidence gate and the three ways the output
  record is built (low confidence, exception, success). It also covers the
  document id `file_uri.split(":")[-1]`.

The remote calls are inputs. `Pipeline.Classification` is what
`classify_document` ends in: a `DocumentType` or a raised exception.
`Pipeline.ModelReplies` holds what the model would answer to each of the three
extraction requests: a parsed payload, a `ValidationError` (by its text) or
another exception.

Files, one module each:

- `wrappers.dfy`: `Option` and `Result`.
- `text.dfy`: the Python string built-ins the code relies on: `str.lower()`
  (ASCII), `p in s`, `s.replace(',', '')` and `s.split(':')`, with their
  lemmas.
- `regex.dfy`: an anchored matcher for patterns made of fixed-count character
  classes. It is used for `^[A-Z]{3}-\d{3}-\d{4}$`.
- `schema.dfy`: the pydantic models as datatypes, and the validators.
- `pipeline.dfy`: `extract_data`, `process_document` and the document id.

`process_document` appends to a local `errors` list before building the
record, so it is a method. Everything else is expression code and is modelled
as functions and lemmas.

Where the project's documentation and the code disagree, the model follows the
code:

- The documentation says a low-confidence classification aborts the run. The
  code returns a record with type `Other`, an `ExtractionError` and one
  processing error.
- The documentation says `processing_errors` is always empty. The code puts one
  message there on the low-confidence and exception paths.
- The documentation bounds the confidence to [0, 1]. The code does not check
  it.

`Schema.ValidateJudgment` models the code as written. It fills the
satisfaction status with `Schema.StandardizeSatisfaction`, so a status text
`unsatisfied` is recorded as satisfied. `Schema.StandardizeSatisfactionIntended`
is the corrected normaliser (see Findings).

The validators and the pipeline are not connected. A `Parsed` reply in
`Pipeline.ModelReplies` may hold any `JudgmentData`, including one that
`Schema.ValidJudgment` rejects (a negative amount, say), although the
validation library would never return such a record. The validated shape is
stated by `Schema.ValidateJudgment` on its own.

## Model

| member | source | states |
|---|---|---|
| `Schema.ValidateCaseNumberFormat` | legal_doc_extract.py:43-47 | accepts exactly the 12-character strings `[A-Z]{3}-\d{3}-\d{4}` and returns them unchanged; anything else fails with the fixed format message |
| `Regex.CaseNumberPatternSpec` | legal_doc_extract.py:45 | the anchored regex `[A-Z]{3}-\d{3}-\d{4}` matches a string if and only if it has length 12, upper-case A–Z at 0–2, `-` at 3 and 7, and digits at 4–6 and 8–11 |
| `Regex.FullMatchWidth` | legal_doc_extract.py:45 | an anchored pattern of fixed repetitions matches only inputs exactly as long as the pattern's total width |
| `Schema.RemoveCommas` | legal_doc_extract.py:49-53 | for a string: the result is a string with no `,`, is a subsequence of the input, and is shorter by exactly the number of commas. Decimal and None pass through unchanged |
| `Schema.RemoveCommasIdempotent` | legal_doc_extract.py:49-53 | stripping commas twice equals stripping once |
| `Text.RemoveCharSpec` | legal_doc_extract.py:52 | `s.replace(c, '')` leaves no `c`, keeps the other characters in order, and drops exactly `Count(s, c)` characters |
| `Text.RemoveCharAppend` | legal_doc_extract.py:52 | `replace(c, '')` distributes over concatenation |
| `Text.RemoveCharAbsent` | legal_doc_extract.py:52 | a string without `c` is returned unchanged |
| `Schema.StandardizeSatisfaction` | legal_doc_extract.py:55-65 | bool and None pass through unchanged; for text, the answer is `True` exactly when the lower-cased text contains `satisf`, `paid in full` or `release` |
| `Schema.SatisfactionTextOutcome` | legal_doc_extract.py:57-64 | for any text the answer is never `False`, and it is `None` exactly when no keyword occurs |
| `Schema.UnsatisfiedMentionsSatisf` | legal_doc_extract.py:59-61 | every text containing `unsatisfied` contains `satisf`, so the keyword test fires first |
| `Schema.SatisfactionUnsatisfiedCounterexample` | legal_doc_extract.py:59-62 | on the text `unsatisfied` the code as written answers `True` and the corrected normaliser answers `False` |
| `Schema.StandardizeSatisfactionIntended` | legal_doc_extract.py:55-65 | for text, `False` exactly when the lower-cased text contains `unsatisfied`; on all other inputs it agrees with the code as written |
| `Text.ContainsTransitive` | legal_doc_extract.py:59 | substring containment (`in`) is transitive |
| `Text.ContainsIff` | legal_doc_extract.py:59 | `p in s` holds exactly when `p` occurs at some position of `s` |
| `Text.LowerOfLowercase` | legal_doc_extract.py:58 | `lower()` leaves a string without upper-case letters unchanged |
| `Schema.CheckInterestRate` | legal_doc_extract.py:67-71 | fails with "Interest rate is too high." exactly when a rate is present, above 1, and `judgment_amount` already validated; otherwise returns the rate unchanged |
| `Schema.CheckBounds` | legal_doc_extract.py:37-41 | a decimal passes exactly when it is ≥ 0 and, when an upper bound is given, ≤ that bound |
| `Schema.CheckDecimal` | legal_doc_extract.py:37-41 | a decimal value is accepted exactly when it is ≥ 0 and within the upper bound, and a text value exactly when it parses to such a number; the accepted value is that number; None is accepted only for an optional field |
| `Schema.ValidateInterestRate` | legal_doc_extract.py:67-71 | the rate field succeeds exactly when its `ge=0, le=1` check succeeds, with the same value or the same error; because `le=1` runs first, it never fails with "Interest rate is too high." |
| `Schema.ValidateJudgment` | legal_doc_extract.py:30-71 | a record is accepted exactly when the case number is well formed and the amount, rate and fee checks all succeed. An accepted record has amount ≥ 0, rate in [0, 1] and fees ≥ 0 when present. Its amount, rate and fees are the raw numbers or what the parser reads, with commas removed from amount and fee text first. Unconstrained fields are kept, and the satisfaction status is the as-written normaliser's answer. A bad case number, a missing or negative amount, a rate above 1 or negative fees is rejected |
| `Schema.ValidatedUnsatisfiedReadsSatisfied` | legal_doc_extract.py:55-65 | a validated record whose status text is `unsatisfied` carries satisfaction `True` |
| `Schema.InterestRateCheckNeverFires` | legal_doc_extract.py:67-71 | since `le=1` is enforced before the after-validator runs, "Interest rate is too high." never appears among the validation errors |
| `Pipeline.ExtractData` | legal_doc_extract.py:137-174 | `Other` gives the fixed "not implemented" error. Any other type gives the payload variant of that same type or an `ExtractionError`, never a mismatched variant. For each of the three types, a parsed reply gives its payload, a validation error keeps its text, and any other exception becomes "Unexpected error: <type> - <message>" |
| `Pipeline.ExtractDataReadsOnlyItsSchema` | legal_doc_extract.py:137-168 | the result depends only on the reply to the one request made; for `Other` it does not depend on the replies at all, because no request is made |
| `Pipeline.DocumentId` | legal_doc_extract.py:199 | the id contains no `:`, is a suffix of the URI, is preceded by `:` when shorter than the URI, and equals the URI when that has no `:` |
| `Text.SplitJoin` | legal_doc_extract.py:199 | joining the pieces of `s.split(sep)` with `sep` gives back `s`; no piece contains `sep`; there is one more piece than separators |
| `Text.JoinLast` | legal_doc_extract.py:199 | joining two or more pieces puts the last piece after the final separator |
| `Pipeline.ProcessDocument` | legal_doc_extract.py:177-203 | Low confidence (< 0.8) gives type `Other`, the low-confidence `ExtractionError`, exactly that one processing error and the whole URI as id, with no extraction. A raised classification gives `Other`, an `ExtractionError` with the exception's text, that same single processing error and the derived id. Otherwise the record has the classified type, the extracted data, the derived id and no processing errors. The payload variant always matches the type, and `Other` never carries a payload |

## Findings

| source | as written | input that shows it | evidently intended | confidence | as-written member | corrected member |
|---|---|---|---|---|---|---|
| legal_doc_extract.py:59-62 | the keyword test for `satisf` comes before the `unsatisfied` test, so the "explicit negative" branch is unreachable and text reporting an unsatisfied judgment normalises to `True` | `satisfaction_status = "unsatisfied"` | text containing `unsatisfied` normalises to `False` | high (not executed) | `Schema.SatisfactionUnsatisfiedCounterexample` | `Schema.StandardizeSatisfactionIntended` |

## Left out

- Remote calls are inputs, not modelled: `classify_document`, the `generate_content_async` extraction requests (including the instructor library's retries), `upload_document` and `main`. They are network I/O against libraries that are not part of this model.
- `async`/`await` and `asyncio.run` are left out; they carry no logic of their own.
- Pydantic machinery is left out: JSON serialisation (`model_dump_json`), parsing of dates, the discriminated-union handling, and the type checks of the fields without a validator. Decimal parsing from text is the parameter `parse` of the validators. `Schema.Date` holds unchecked numbers.
- Schema constraints without a custom validator are not modelled. This includes the 500-character limit on `AffidavitData.content_summary`; `DismissalData` and `AffidavitData` are plain datatypes.
- The text of a pydantic `ValidationError` (`str(e)`) is library formatting. In `Pipeline.Reply` it is an input string, and `Schema.ValidateJudgment` reports its errors as a list of `FieldError`s instead.
- `Regex.CaseNumberPatternSpec`: does not model Python's `$` matching before a trailing newline, or `\d` matching non-ASCII digits. Only ASCII digits and an exact 12-character match are modelled.
- `Text.Lower`: lower-cases ASCII letters only, not full Unicode `str.lower()`.
- `Pipeline.ProcessDocument`: models the confidence as a `real`. Float rounding and NaN (for which `< 0.8` is false) are not modelled.
- The `else: raise ValueError("Invalid document type")` branch of `extract_data` cannot be reached with a closed enumeration, so it is not modelled.
- Exceptions that are not `Exception` subclasses (such as `KeyboardInterrupt`) escape both `try` blocks. They are not modelled.
