// The upload validator: a file name is accepted when, lower-cased, it ends
// with one of the allowed extensions.
module Validators {
  import opened Base

  const AllowedExtensions: set<string> := {".csv", ".xlsx", ".xls"}

  const InvalidFileType := "Invalid file type. Please upload a .csv, .xlsx, or .xls file."

  /** `str.lower` on ASCII letters; other characters are left as they are. */
  function LowerChar(c: char): (r: char)
    ensures 'A' <= c <= 'Z' ==> r as int == c as int + 32
    ensures !('A' <= c <= 'Z') ==> r == c
    ensures !('A' <= r <= 'Z')
  {
    if 'A' <= c <= 'Z' then (c as int + 32) as char else c
  }

  function Lower(s: string): (r: string)
    ensures |r| == |s| && forall i :: 0 <= i < |s| ==> r[i] == LowerChar(s[i])
  {
    seq(|s|, i requires 0 <= i < |s| => LowerChar(s[i]))
  }

  /** Lower-casing twice is lower-casing once. */
  lemma LowerIdempotent(s: string)
    ensures Lower(Lower(s)) == Lower(s)
  {
    assert forall i :: 0 <= i < |s| ==> LowerChar(LowerChar(s[i])) == LowerChar(s[i]);
  }

  predicate EndsWith(s: string, suffix: string) {
    |suffix| <= |s| && s[|s| - |suffix|..] == suffix
  }

  /** `validate_file_extension`: nothing for an allowed name, the fixed
      message otherwise. */
  function ValidateFileExtension(filename: string): (r: Result<(), string>)
    ensures r.Ok? <==> exists ext :: ext in AllowedExtensions && EndsWith(Lower(filename), ext)
    ensures r.Err? ==> r.error == InvalidFileType
  {
    var lower := Lower(filename);
    if EndsWith(lower, ".csv") || EndsWith(lower, ".xlsx") || EndsWith(lower, ".xls") then Ok(())
    else Err(InvalidFileType)
  }

  /** The check ignores case: a name and its lower-cased form are judged alike. */
  lemma CaseIgnored(filename: string)
    ensures ValidateFileExtension(filename) == ValidateFileExtension(Lower(filename))
  {
    LowerIdempotent(filename);
  }

  /** An upper-case extension passes. */
  lemma UpperCaseAccepted()
    ensures ValidateFileExtension("DATA.CSV").Ok?
  {
    var lower := Lower("DATA.CSV");
    assert lower[4..] == ['.', 'c', 's', 'v'];
  }

  /** Only the last suffix counts: a ".csv" inside the name does not help. */
  lemma InnerSuffixRejected()
    ensures ValidateFileExtension("a.csv.exe") == Err(InvalidFileType)
  {
    var lower := Lower("a.csv.exe");
    assert lower[5..] == ['.', 'e', 'x', 'e'];
    assert lower[4..] == ['v', '.', 'e', 'x', 'e'];
  }

  /** The dot belongs to the extension: a bare "csv" is not a CSV file name. */
  lemma BareExtensionRejected()
    ensures ValidateFileExtension("csv") == Err(InvalidFileType)
  {
  }
}
