/** The name under which an exported document is downloaded
    (src/lib/downloadPdf.ts). The Blob, object URL and anchor click are
    browser I/O and are not modelled. */
module DownloadPdf {
  import opened Common

  predicate EndsWithPdf(name: string)
  {
    |name| >= 4 && ToLower(name[|name| - 4..]) == ".pdf"
  }

  /** name.replace(/\.pdf$/i, ''): one trailing ".pdf", in any case, is
      removed; `$` without the m flag matches only at the very end. */
  function StripPdf(name: string): (r: string)
    ensures r <= name
    ensures EndsWithPdf(name) ==> |r| == |name| - 4
    ensures !EndsWithPdf(name) ==> r == name
  {
    if EndsWithPdf(name) then name[..|name| - 4] else name
  }

  /** `${name}_signed.pdf` */
  function DownloadName(originalFilename: string): (r: string)
    ensures |r| >= 11 && r[|r| - 11..] == "_signed.pdf"
  {
    StripPdf(originalFilename) + "_signed.pdf"
  }

  /** Appending ".pdf" and stripping it again gives the stem back, even
      when the stem itself ends in ".pdf": only one suffix goes. */
  lemma StripAppended(stem: string, suffix: string)
    requires |suffix| == 4 && ToLower(suffix) == ".pdf"
    ensures StripPdf(stem + suffix) == stem
  {
    var n := stem + suffix;
    assert n[|n| - 4..] == suffix;
    assert n[..|n| - 4] == stem;
  }

  /** A name without a ".pdf" suffix is kept whole in front of the suffix. */
  lemma NoSuffixKept(name: string)
    requires !EndsWithPdf(name)
    ensures DownloadName(name) == name + "_signed.pdf"
  {
  }

  /** Only the last of two ".pdf" suffixes goes. */
  lemma DoubleSuffixExample()
    ensures DownloadName("a.pdf.pdf") == "a.pdf_signed.pdf"
  {
    DoubleSuffixParts();
    StripAppended("a.pdf", ".pdf");
  }

  lemma DoubleSuffixParts()
    ensures "a.pdf.pdf" == "a.pdf" + ".pdf" && ToLower(".pdf") == ".pdf"
    ensures "a.pdf" + "_signed.pdf" == "a.pdf_signed.pdf"
  {
  }

  /** The suffix is matched case-insensitively. */
  lemma UpperCaseSuffixExample()
    ensures DownloadName("A.PDF") == "A_signed.pdf"
  {
    UpperCaseSuffixParts();
    StripAppended("A", ".PDF");
  }

  lemma UpperCaseSuffixParts()
    ensures "A.PDF" == "A" + ".PDF" && ToLower(".PDF") == ".pdf"
    ensures "A" + "_signed.pdf" == "A_signed.pdf"
  {
  }

  // ---------------------------------------------------------------------------
  // The name of a digitally signed download

  /** What the signing path in the bottom bar ends up downloading as, in
      closed form; `AsWrittenComposes` shows that it is the two steps of
      the code. */
  function AsWrittenSignedDownloadName(filename: string): string
  {
    StripPdf(filename) + "_digitally_signed_signed.pdf"
  }

  /** The signing path strips ".pdf", appends "_digitally_signed", and hands
      that to downloadPdf, which finds no ".pdf" to strip and appends
      "_signed.pdf" once more. */
  lemma AsWrittenComposes(filename: string)
    ensures AsWrittenSignedDownloadName(filename)
         == DownloadName(StripPdf(filename) + "_digitally_signed")
  {
    var base := StripPdf(filename) + "_digitally_signed";
    assert !EndsWithPdf(base) by {
      var t := base[|base| - 4..];
      assert t[0] == base[|base| - 4] == 'g';
      assert ToLower(t)[0] == 'g';
    }
  }

  /** "report.pdf" is downloaded as "report_digitally_signed_signed.pdf". */
  lemma AsWrittenDoubleSuffix()
    ensures AsWrittenSignedDownloadName("report.pdf") == "report" + "_digitally_signed" + "_signed.pdf"
    ensures AsWrittenSignedDownloadName("report.pdf") != "report_digitally_signed.pdf"
  {
    var stem := "report";
    assert "report.pdf" == stem + ".pdf";
    StripAppended(stem, ".pdf");
    var r := AsWrittenSignedDownloadName("report.pdf");
    assert |r| == 34;
  }

  /** The name the signing path evidently means: the stem and one
      "_digitally_signed.pdf". */
  function SignedDownloadName(filename: string): (r: string)
    ensures |r| >= 21 && r[|r| - 21..] == "_digitally_signed.pdf"
    ensures r[..|r| - 21] == StripPdf(filename)
  {
    StripPdf(filename) + "_digitally_signed.pdf"
  }

  /** Signing "report.pdf" downloads "report_digitally_signed.pdf". */
  lemma SignedDownloadNameExample()
    ensures SignedDownloadName("report.pdf") == "report" + "_digitally_signed.pdf"
  {
    assert "report.pdf" == "report" + ".pdf";
    StripAppended("report", ".pdf");
  }
}
