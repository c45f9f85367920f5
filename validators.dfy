/** The validators of `utils/validators.py`: the URL prefix test used when a
    batch file is read, and the audio-quality check applied to a `--quality`
    option. */
module Validators {
  import opened Py
  import opened Text

  /** `validate_url`: the string starts, case-sensitively, with one of the
      accepted scheme prefixes. */
  predicate IsValidUrl(url: string) {
    "http://" <= url || "https://" <= url || "www." <= url
  }

  /** A valid URL is never blank, never a `#` comment and never begins with
      whitespace, so the batch reader's blank and comment filters never drop
      a line validation would accept. */
  lemma ValidUrlShape(url: string)
    requires IsValidUrl(url)
    ensures |url| >= 4 && url[0] != '#' && !IsSpace(url[0])
    ensures url[0] == 'h' || url[0] == 'w'
  {
  }

  /** The prefix test is exact and case-sensitive. */
  lemma ValidUrlExamples()
    ensures IsValidUrl("https://www.youtube.com/watch?v=ID")
    ensures IsValidUrl("http://youtu.be/ID")
    ensures IsValidUrl("www.youtube.com/watch?v=ID")
    ensures !IsValidUrl("HTTPS://www.youtube.com/watch?v=ID")
    ensures !IsValidUrl("ftp://example.com/a")
    ensures !IsValidUrl("youtube.com/watch?v=ID")
    ensures !IsValidUrl(" https://www.youtube.com")
    ensures !IsValidUrl("http:/")
  {
    assert "HTTPS://www.youtube.com/watch?v=ID"[0] == 'H';
    assert "ftp://example.com/a"[0] == 'f';
    assert "youtube.com/watch?v=ID"[0] == 'y';
    assert " https://www.youtube.com"[0] == ' ';
  }

  /** The message `click.BadParameter` carries out of `validate_quality`. */
  datatype BadParameter = BadParameter(message: string)

  const OutOfRangeMessage := "Quality must be between 0 and 320"
  const NotANumberMessage := "Quality must be a number"

  const MinQuality := 0
  const MaxQuality := 320

  /** `validate_quality`: no value passes through as no value; a value is
      accepted exactly when it is an integer literal between 0 and 320, and it
      is then returned as the canonical decimal spelling of that integer;
      otherwise the matching error is raised. */
  function ValidateQuality(value: Option<string>): (r: Result<Option<string>, BadParameter>)
    ensures value.None? <==> r == Ok(None)
    ensures value.Some? ==>
      (r.Ok? <==> ParseInt(value.value).Some?
                  && MinQuality <= ParseInt(value.value).value <= MaxQuality)
    ensures r.Ok? && value.Some? ==>
      r.value.Some? && IsCanonicalDecimal(r.value.value)
      && ParseInt(r.value.value) == ParseInt(value.value)
    ensures r.Err? ==>
      r.error == BadParameter(if ParseInt(value.value).None? then NotANumberMessage else OutOfRangeMessage)
  {
    match value
    case None => Ok(None)
    case Some(text) =>
      match ParseInt(text)
      case None => Err(BadParameter(NotANumberMessage))
      case Some(quality) =>
        if quality < MinQuality || quality > MaxQuality then Err(BadParameter(OutOfRangeMessage))
        else
          ParseIntOfDecimal(quality);
          Ok(Some(IntToDecimal(quality)))
  }

  /** Validating an accepted quality again accepts it unchanged. */
  lemma {:induction false} ValidateQualityIdempotent(value: string)
    requires ValidateQuality(Some(value)).Ok?
    ensures ValidateQuality(ValidateQuality(Some(value)).value) == ValidateQuality(Some(value))
  {
    var quality := ParseInt(value).value;
    ParseIntOfDecimal(quality);
  }

  /** Leading zeros are normalised away: "0128" is accepted as "128". */
  lemma ValidateQualityDropsLeadingZeros()
    ensures ValidateQuality(Some("0128")) == Ok(Some("128"))
  {
    assert "128"[..2] == "12" && "12"[..1] == "1" && "1"[..0] == "";
    assert DigitsValue("128") == 128;
    LeadingZeroIgnored("128");
    assert "0" + "128" == "0128";
    CanonicalDecimalRoundTrip("128");
  }

  /** A plus sign is dropped. */
  lemma ValidateQualityDropsPlus()
    ensures ValidateQuality(Some("+320")) == Ok(Some("320"))
  {
    assert "+320"[1..] == "320";
    assert "320"[..2] == "32" && "32"[..1] == "3" && "3"[..0] == "";
    assert DigitsValue("320") == 320;
    CanonicalDecimalRoundTrip("320");
  }

  /** So is a minus sign on zero. */
  lemma ValidateQualityDropsMinusZero()
    ensures ValidateQuality(Some("-0")) == Ok(Some("0"))
  {
    assert "-0"[1..] == "0" && "0"[..0] == "";
  }

  /** Integers outside 0..320 are refused as out of range. */
  lemma ValidateQualityRejectsRange()
    ensures ValidateQuality(Some("321")) == Err(BadParameter(OutOfRangeMessage))
    ensures ValidateQuality(Some("-1")) == Err(BadParameter(OutOfRangeMessage))
  {
    assert ParseInt("321") == Some(321) by {
      assert "321"[..2] == "32" && "32"[..1] == "3" && "3"[..0] == "";
    }
    assert ParseInt("-1") == Some(-1) by {
      assert "-1"[1..] == "1" && "1"[..0] == "";
    }
  }

  /** Anything that is not an integer literal is refused as not a number. */
  lemma ValidateQualityRejectsText()
    ensures ValidateQuality(Some("high")) == Err(BadParameter(NotANumberMessage))
    ensures ValidateQuality(Some("")) == Err(BadParameter(NotANumberMessage))
    ensures ValidateQuality(Some("12.5")) == Err(BadParameter(NotANumberMessage))
    ensures ValidateQuality(Some("-")) == Err(BadParameter(NotANumberMessage))
  {
    assert !IsDigit("12.5"[2]);
    assert !IsDigit("high"[0]);
    assert "-"[1..] == "";
  }
}
