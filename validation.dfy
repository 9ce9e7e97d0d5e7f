/** `validateExcelFile`: the client-side check run before a file is parsed. Every parser
    variant has one; they differ only in the size limit and in the wording of the errors. */
module Validation {
  import opened Strings

  datatype Verdict = Valid | Invalid(error: string)

  /** The limits and messages of one variant. */
  datatype Policy = Policy(maxBytes: nat, extensionError: string, sizeError: string)

  const MiB: nat := 1024 * 1024

  /** lib/excel-parser-v2.ts and lib/excel-parser-v3.ts: 10 MiB. */
  const TenMegabytePolicy := Policy(10 * MiB, "Only Excel files (.xlsx, .xls) are supported", "File size must be less than 10MB")

  /** lib/excel-parser-new.ts: 5 MiB, same extension message. */
  const FiveMegabytePolicy := Policy(5 * MiB, "Only Excel files (.xlsx, .xls) are supported", "File size must be less than 5MB")

  /** lib/excel-parser.ts: 5 MiB, its own messages. */
  const LegacyPolicy := Policy(5 * MiB, "Invalid file format. Please upload .xlsx or .xls file.", "File size exceeds 5MB limit.")

  /** The lower-cased name ends with `.xlsx` or `.xls`. */
  predicate HasExcelExtension(fileName: string) {
    EndsWith(Lower(fileName), ".xlsx") || EndsWith(Lower(fileName), ".xls")
  }

  /** The extension is checked first, then the size (a file of exactly the limit passes). */
  function ValidateExcelFile(fileName: string, size: nat, policy: Policy): (r: Verdict)
    ensures r == Valid <==> HasExcelExtension(fileName) && size <= policy.maxBytes
    ensures !HasExcelExtension(fileName) ==> r == Invalid(policy.extensionError)
    ensures HasExcelExtension(fileName) && size > policy.maxBytes ==> r == Invalid(policy.sizeError)
  {
    if !HasExcelExtension(fileName) then Invalid(policy.extensionError)
    else if size > policy.maxBytes then Invalid(policy.sizeError)
    else Valid
  }

  /** The extension error wins over the size error: an oversized `.csv` is reported for its
      extension. */
  lemma ExtensionErrorFirst()
    ensures ValidateExcelFile("a.csv", 20 * MiB, TenMegabytePolicy) == Invalid("Only Excel files (.xlsx, .xls) are supported")
  {
    var l := Lower("a.csv");
    assert l[4] == 'v';
  }

  /** The extension test ignores case, and the limit itself is allowed. */
  lemma UpperCaseExtensionAtLimit()
    ensures ValidateExcelFile("A.XLSX", 10 * MiB, TenMegabytePolicy) == Valid
  {
    var l := Lower("A.XLSX");
    assert l[1..] == ".xlsx";
  }
}
