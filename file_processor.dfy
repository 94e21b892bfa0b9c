/** The upload checks of fileProcessor.ts and the placeholder text of its pdf-lib fallback. */
module FileProcessor {

  import opened Wrappers
  import opened Text

  const PdfMimeType: string := "application/pdf"
  /** 10 MB. */
  const MaxFileSize: nat := 10 * 1024 * 1024
  const NotPdfError: string := "Only PDF files are supported"
  const TooLargeError: string := "File size must be less than 10MB"

  /** The two properties of a browser `File` the validator reads. */
  datatype FileInfo = FileInfo(mimeType: string, size: nat)

  /** `{ valid, error? }`. */
  datatype Validation = Validation(valid: bool, error: Option<string>)

  /**
   * `validateFile`: the type is checked before the size, and a PDF of exactly the limit
   * passes.
   */
  function ValidateFile(file: FileInfo): (r: Validation)
    ensures r.valid <==> file.mimeType == PdfMimeType && file.size <= MaxFileSize
    ensures r.valid <==> r.error.None?
    ensures file.mimeType != PdfMimeType ==> r.error == Some(NotPdfError)
    ensures file.mimeType == PdfMimeType && file.size > MaxFileSize ==> r.error == Some(TooLargeError)
  {
    if file.mimeType != PdfMimeType then Validation(false, Some(NotPdfError))
    else if file.size > MaxFileSize then Validation(false, Some(TooLargeError))
    else Validation(true, None)
  }

  /** The placeholder line for page `k`, counted from 1. */
  function Placeholder(k: nat): string {
    "\n[Page " + NatToString(k) + " extraction not supported by pdf-lib. Please use a different PDF or contact support.]"
  }

  /** The placeholders of pages `1..n`, in page order. */
  function Segments(n: nat): (r: seq<string>)
    ensures |r| == n
    ensures forall i :: 0 <= i < n ==> r[i] == Placeholder(i + 1)
  {
    seq(n, i requires 0 <= i < n => Placeholder(i + 1))
  }

  function Concat(ss: seq<string>): string {
    if ss == [] then "" else Concat(ss[..|ss| - 1]) + ss[|ss| - 1]
  }

  /** `for (i = 0; i < numPages; i++) text += placeholder(i + 1)`. */
  method FallbackText(numPages: nat) returns (text: string)
    ensures text == Concat(Segments(numPages))
  {
    text := "";
    var i := 0;
    while i < numPages
      invariant 0 <= i <= numPages
      invariant text == Concat(Segments(i))
    {
      assert Segments(i + 1)[..i] == Segments(i);
      text := text + Placeholder(i + 1);
      i := i + 1;
    }
  }

  /** Different pages get different placeholders, so no page number is repeated or skipped. */
  lemma PlaceholderInjective(j: nat, k: nat)
    requires Placeholder(j) == Placeholder(k)
    ensures j == k
  {
    var tail := " extraction not supported by pdf-lib. Please use a different PDF or contact support.]";
    var pj, pk := Placeholder(j), Placeholder(k);
    assert pj == "\n[Page " + NatToString(j) + tail && pk == "\n[Page " + NatToString(k) + tail;
    assert |pj| == |pk|;
    assert NatToString(j) == pj[7..|pj| - |tail|];
    assert NatToString(k) == pk[7..|pk| - |tail|];
    NatToStringInjective(j, k);
  }

  /** The text for fewer pages is a prefix of the text for more: pages are appended in order. */
  lemma {:induction false} FallbackTextGrows(m: nat, n: nat)
    requires m <= n
    ensures Concat(Segments(m)) <= Concat(Segments(n))
    decreases n - m
  {
    if m < n {
      FallbackTextGrows(m, n - 1);
      assert Segments(n)[..n - 1] == Segments(n - 1);
      var mid := Concat(Segments(n - 1));
      assert Concat(Segments(n)) == mid + Placeholder(n);
    }
  }

  /** A document without pages gives the empty string; every other text starts with its first page. */
  lemma FallbackTextStart(n: nat)
    ensures n == 0 ==> Concat(Segments(n)) == ""
    ensures n > 0 ==> Placeholder(1) <= Concat(Segments(n))
  {
    if n > 0 {
      FallbackTextGrows(1, n);
      assert Segments(1) == [Placeholder(1)];
      assert Concat(Segments(1)) == Concat([]) + Placeholder(1);
    }
  }
}
