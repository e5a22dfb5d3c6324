/** Vietnamese detection and translation. Detection is a character-class
    search; translation asks an external translator, which is a parameter. */
module Translator {
  import opened Wrappers
  import opened Text

  /** The letters of the detection pattern with, since the pattern is
      compiled with `re.IGNORECASE`, their upper-case forms, grouped by base
      letter. A character matches the pattern exactly when it is in one group. */
  const VietnameseA: set<char> := {'à', 'á', 'ạ', 'ả', 'ã', 'â', 'ầ', 'ấ', 'ậ', 'ẩ', 'ẫ', 'ă', 'ằ', 'ắ', 'ặ', 'ẳ', 'ẵ', 'À', 'Á', 'Ạ', 'Ả', 'Ã', 'Â', 'Ầ', 'Ấ', 'Ậ', 'Ẩ', 'Ẫ', 'Ă', 'Ằ', 'Ắ', 'Ặ', 'Ẳ', 'Ẵ'}
  const VietnameseE: set<char> := {'è', 'é', 'ẹ', 'ẻ', 'ẽ', 'ê', 'ề', 'ế', 'ệ', 'ể', 'ễ', 'È', 'É', 'Ẹ', 'Ẻ', 'Ẽ', 'Ê', 'Ề', 'Ế', 'Ệ', 'Ể', 'Ễ'}
  const VietnameseI: set<char> := {'ì', 'í', 'ị', 'ỉ', 'ĩ', 'Ì', 'Í', 'Ị', 'Ỉ', 'Ĩ'}
  const VietnameseO: set<char> := {'ò', 'ó', 'ọ', 'ỏ', 'õ', 'ô', 'ồ', 'ố', 'ộ', 'ổ', 'ỗ', 'ơ', 'ờ', 'ớ', 'ợ', 'ở', 'ỡ', 'Ò', 'Ó', 'Ọ', 'Ỏ', 'Õ', 'Ô', 'Ồ', 'Ố', 'Ộ', 'Ổ', 'Ỗ', 'Ơ', 'Ờ', 'Ớ', 'Ợ', 'Ở', 'Ỡ'}
  const VietnameseU: set<char> := {'ù', 'ú', 'ụ', 'ủ', 'ũ', 'ư', 'ừ', 'ứ', 'ự', 'ử', 'ữ', 'Ù', 'Ú', 'Ụ', 'Ủ', 'Ũ', 'Ư', 'Ừ', 'Ứ', 'Ự', 'Ử', 'Ữ'}
  const VietnameseY: set<char> := {'ỳ', 'ý', 'ỵ', 'ỷ', 'ỹ', 'Ỳ', 'Ý', 'Ỵ', 'Ỷ', 'Ỹ'}
  const VietnameseD: set<char> := {'đ', 'Đ'}

  predicate VietnameseChar(c: char) {
    || c in VietnameseA || c in VietnameseE || c in VietnameseI || c in VietnameseO
    || c in VietnameseU || c in VietnameseY || c in VietnameseD
  }

  /** `VIETNAMESE_PATTERN.search(text)` succeeds: the position of its match. */
  function FirstVietnamese(text: string): (r: Option<nat>)
    ensures r.None? <==> forall i | 0 <= i < |text| :: !VietnameseChar(text[i])
    ensures r.Some? ==>
      && r.value < |text| && VietnameseChar(text[r.value])
      && forall i | 0 <= i < r.value :: !VietnameseChar(text[i])
  {
    if text == [] then None
    else if VietnameseChar(text[0]) then Some(0)
    else match FirstVietnamese(text[1..])
      case None => None
      case Some(j) => Some(j + 1)
  }

  /** `is_vietnamese(text)`; `None` stands for a missing text. */
  function IsVietnamese(text: Option<string>): bool {
    if text.None? || text.value == [] then false
    else FirstVietnamese(text.value).Some?
  }

  /** A text is Vietnamese exactly when one of its characters is a
      Vietnamese letter, in either case; a missing or empty text never is. */
  lemma IsVietnameseSpec(text: Option<string>)
    ensures IsVietnamese(text) <==>
      text.Some? && exists i | 0 <= i < |text.value| :: VietnameseChar(text.value[i])
    ensures text.None? || text == Some([]) ==> !IsVietnamese(text)
  {
  }

  /** Diacritics make a text Vietnamese, in either case; plain ASCII does not. */
  lemma VietnameseExamples()
    ensures IsVietnamese(Some("phở")) && IsVietnamese(Some("PHỞ"))
    ensures IsVietnamese(Some("Đà Nẵng"))
    ensures !IsVietnamese(Some("pho"))
  {
    assert VietnameseChar("phở"[2]) && VietnameseChar("PHỞ"[2]) && VietnameseChar("Đà Nẵng"[0]);
    IsVietnameseSpec(Some("phở"));
    IsVietnameseSpec(Some("PHỞ"));
    IsVietnameseSpec(Some("Đà Nẵng"));
    PlainAsciiNotVietnamese("pho");
  }

  /** The letters without diacritics are not Vietnamese to the detector. */
  lemma PlainAsciiNotVietnamese(text: string)
    requires forall i | 0 <= i < |text| :: text[i] < 128 as char
    ensures !IsVietnamese(Some(text))
  {
    forall i | 0 <= i < |text| ensures !VietnameseChar(text[i]) {
      if VietnameseChar(text[i]) {
        VietnameseWide(text[i]);
      }
    }
  }

  /** `translate(text)`: `google` is the external translator applied to the
      stripped text, which may raise. */
  function Translate(text: string, google: string -> Result<string, Raised>): string {
    if text == [] || Strip(text) == [] then text
    else if !IsVietnamese(Some(text)) then text
    else match google(Strip(text))
      case Success(translated) => translated
      case Failure(_) => text
  }

  /** Blank and non-Vietnamese text comes back unchanged whatever the
      translator would do, so it is never asked. */
  lemma TranslateUnchanged(text: string, google: string -> Result<string, Raised>, other: string -> Result<string, Raised>)
    requires Strip(text) == [] || !IsVietnamese(Some(text))
    ensures Translate(text, google) == text
    ensures Translate(text, google) == Translate(text, other)
  {
  }

  /** Vietnamese text gets the translation of its stripped form, or stays as
      it was when the translator raises. */
  lemma TranslateVietnamese(text: string, google: string -> Result<string, Raised>)
    requires IsVietnamese(Some(text))
    ensures google(Strip(text)).Success? ==> Translate(text, google) == google(Strip(text)).value
    ensures google(Strip(text)).Failure? ==> Translate(text, google) == text
  {
    var i :| 0 <= i < |text| && VietnameseChar(text[i]);
    VietnameseNotSpace(text[i]);
    assert !IsBlank(text);
  }

  /** Every Vietnamese letter lies in Latin-1 Supplement to Latin Extended
      Additional, and none is the Ogham space mark. */
  lemma VietnameseWide(c: char)
    requires VietnameseChar(c)
    ensures 0xC0 <= c as int <= 0x1EF9 && c as int != 0x1680
  {
  }

  /** No Vietnamese letter is white space. */
  lemma VietnameseNotSpace(c: char)
    requires VietnameseChar(c)
    ensures !IsSpace(c)
  {
    VietnameseWide(c);
    OutsideRanges(c as int, SpaceRanges);
  }
}
