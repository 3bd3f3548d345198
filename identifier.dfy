/** Normalisation of the company identifier (`corp_code`) in src/tools.py. */
module Identifier {
  import opened Text

  /** `corp_code = str(corp_code).strip()`, then `zfill(8)` when it is all digits. */
  function NormalizeCorpCode(raw: string): string {
    var s := Strip(raw);
    if IsDigits(s) then ZFill(s, 8) else s
  }

  /** A code as normalisation leaves it: no surrounding white space, and at least eight places if all digits. */
  predicate IsNormalized(code: string) {
    Strip(code) == code && (IsDigits(code) ==> |code| >= 8)
  }

  /**
   * A stripped code of at most eight digits becomes exactly eight digits:
   * zeros, then the code itself, denoting the same number.
   */
  lemma NormalizePadsShortCodes(raw: string)
    requires IsDigits(Strip(raw)) && |Strip(raw)| <= 8
    ensures var s, r := Strip(raw), NormalizeCorpCode(raw);
            && |r| == 8 && IsDigits(r)
            && r == Zeros(8 - |s|) + s
            && DigitsValue(r) == DigitsValue(s)
  {
    var s := Strip(raw);
    DigitsValueLeadingZeros(8 - |s|, s);
  }

  /** Longer digit strings are kept whole: nothing is truncated. */
  lemma NormalizeKeepsLongCodes(raw: string)
    requires IsDigits(Strip(raw)) && |Strip(raw)| > 8
    ensures NormalizeCorpCode(raw) == Strip(raw)
  {
  }

  /** A code that is not all digits is only stripped. */
  lemma NormalizeOnlyStripsOthers(raw: string)
    requires !IsDigits(Strip(raw))
    ensures NormalizeCorpCode(raw) == Strip(raw)
  {
  }

  /** Padding a digit string with zeros keeps it a digit string. */
  lemma ZFillKeepsDigits(s: string, width: nat)
    requires IsDigits(s)
    ensures IsDigits(ZFill(s, width))
  {
    var r := ZFill(s, width);
    forall i | 0 <= i < |r| ensures IsDigit(r[i]) {
      if i >= |r| - |s| {
        assert r[i] == r[|r| - |s|..][i - (|r| - |s|)];
      }
    }
  }

  /** Normalisation yields a normalised code. */
  lemma NormalizeYieldsNormalized(raw: string)
    ensures IsNormalized(NormalizeCorpCode(raw))
  {
    var s := Strip(raw);
    if IsDigits(s) {
      PaddedIsNormalized(s);
    } else {
      StripIdempotent(raw);
    }
  }

  /** A normalised code is left as it is. */
  lemma NormalizedIsFixed(code: string)
    requires IsNormalized(code)
    ensures NormalizeCorpCode(code) == code
  {
  }

  /** Normalising twice is normalising once. */
  lemma NormalizeIdempotent(raw: string)
    ensures NormalizeCorpCode(NormalizeCorpCode(raw)) == NormalizeCorpCode(raw)
  {
    NormalizeYieldsNormalized(raw);
    NormalizedIsFixed(NormalizeCorpCode(raw));
  }

  /** A digit string padded to eight places is normalised. */
  lemma PaddedIsNormalized(s: string)
    requires IsDigits(s)
    ensures IsNormalized(ZFill(s, 8))
  {
    ZFillKeepsDigits(s, 8);
    LongDigitsAreNormalized(ZFill(s, 8));
  }

  /** Eight or more digits without white space are already normalised. */
  lemma LongDigitsAreNormalized(r: string)
    requires IsDigits(r) && |r| >= 8
    ensures IsNormalized(r)
  {
    StripOfTrimmed(r);
  }
}
