/**
  The post composer (src/pages/CreatePost.jsx): the image check, the image
  selection state, the 1000-character body and the rule that disables the
  submit button. `URL.createObjectURL` is the browser's: the preview URL it
  returns is an input.
*/
module CreatePost {

  import opened Wrappers
  import opened JsValues

  const MaxImageSizeMb := 5
  const MaxImageBytes := MaxImageSizeMb * 1024 * 1024
  const MaxBodyLength := 1000
  const AllowedImageTypes := ["image/jpeg", "image/png", "image/webp", "image/gif"]

  const UnsupportedMessage := "kind of file not supported (JPEG, PNG, WebP, GIF)"
  const TooLargeMessage := "Image size should be less than 5 MB"

  datatype Verdict = NoFile | Unsupported | TooLarge | Acceptable

  predicate IsDecimalDigit(c: char) { '0' <= c <= '9' }

  predicate AllDigits(s: string) { forall i :: 0 <= i < |s| ==> IsDecimalDigit(s[i]) }

  /** The value of a string of decimal digits; the empty string reads as 0, as `Number("")` does. */
  function DecimalValue(digits: string): (n: nat)
    requires AllDigits(digits)
  {
    if digits == [] then 0
    else
      var last := digits[|digits| - 1];
      assert IsDecimalDigit(last);
      10 * DecimalValue(digits[..|digits| - 1]) + (last as int - '0' as int)
  }

  /**
    The number a relational comparison converts an operand to: numbers are
    themselves, `true`/`false` are 1/0, `null` is 0, and a string that is
    decimal digits once trimmed is their value (the empty string is 0).
    `None` is NaN, which compares false: `undefined`, objects, arrays,
    functions, and every other string.
  */
  function ToNumber(v: Value): (r: Option<int>)
    ensures v.Num? ==> r == Some(v.n)
    ensures v.Bool? ==> r == Some(if v.b then 1 else 0)
    ensures v == Null ==> r == Some(0)
    ensures v.Str? && AllDigits(Trim(v.s)) ==>
              r == Some(DecimalValue(Trim(v.s)))
    ensures v.Str? && !AllDigits(Trim(v.s)) ==> r.None?
    ensures v == Undefined || v.Obj? || v.Arr? || v.Form? || v.Fn? ==> r.None?
  {
    match v
    case Num(n) => Some(n)
    case Bool(b) => Some(if b then 1 else 0)
    case Null => Some(0)
    case Str(s) =>
      var t := Trim(s);
      if AllDigits(t) then Some(DecimalValue(t)) else None
    case _ => None
  }

  /** `file.size > limit`, with `size` converted to a number first; NaN compares false. */
  predicate Exceeds(size: Value, limit: int) {
    var n := ToNumber(size);
    n.Some? && n.value > limit
  }

  lemma DigitCharValue(d: nat)
    requires d < 10
    ensures IsDecimalDigit(DigitChar(d)) && DigitChar(d) as int - '0' as int == d
  {
    assert d == 0 || d == 1 || d == 2 || d == 3 || d == 4 || d == 5 || d == 6 || d == 7 || d == 8 || d == 9;
  }

  /** Reading back the decimal digits a number renders as gives the number. */
  lemma {:induction false} DecimalRoundTrip(n: nat)
    ensures AllDigits(NatToString(n))
    ensures DecimalValue(NatToString(n)) == n
  {
    var s := NatToString(n);
    if n < 10 {
      DigitCharValue(n);
      assert s == [DigitChar(n)] && s[..0] == [];
    } else {
      DecimalRoundTrip(n / 10);
      DigitCharValue(n % 10);
      assert s == NatToString(n / 10) + [DigitChar(n % 10)];
      assert s[..|s| - 1] == NatToString(n / 10);
    }
  }

  /** A size given as the string form of a number compares exactly as the number itself does. */
  lemma SizeStringRoundTrip(n: nat)
    ensures ToNumber(Str(Render(Num(n)))) == Some(n)
    ensures Exceeds(Str(Render(Num(n))), MaxImageBytes) == Exceeds(Num(n), MaxImageBytes)
  {
    var s := NatToString(n);
    assert Render(Num(n)) == s;
    DecimalRoundTrip(n);
    assert |s| > 0 by { if n >= 10 { assert s == NatToString(n / 10) + [DigitChar(n % 10)]; } }
    DigitStringNumber(s);
  }

  /** A non-empty string of digits converts to its decimal value. */
  lemma DigitStringNumber(s: string)
    requires s != [] && AllDigits(s)
    ensures ToNumber(Str(s)) == Some(DecimalValue(s))
  {
    DigitsUntrimmed(s);
  }

  /** A size given as a string of digits is compared by its value: any number over the limit, written out in decimal, is too large. */
  lemma NumericStringSizeTooLarge(fileType: string, n: nat)
    requires fileType in AllowedImageTypes && n > MaxImageBytes
    ensures Classify(Obj(map["type" := Str(fileType), "size" := Str(Render(Num(n)))])) == TooLarge
  {
    SizeStringRoundTrip(n);
    OversizedAllowedFile(fileType, Str(Render(Num(n))));
  }

  /** An allowed image whose size exceeds the limit is too large, whatever the size's kind. */
  lemma OversizedAllowedFile(fileType: string, size: Value)
    requires fileType in AllowedImageTypes && Exceeds(size, MaxImageBytes)
    ensures Classify(Obj(map["type" := Str(fileType), "size" := size])) == TooLarge
  {
    var file := Obj(map["type" := Str(fileType), "size" := size]);
    assert Member(file, "type").value == Str(fileType) && Member(file, "size").value == size;
  }

  /** A string of digits has no blanks to trim. */
  lemma DigitsUntrimmed(s: string)
    requires s != [] && AllDigits(s)
    ensures Trim(s) == s
  {
    assert !IsTrimmable(s[0]) && !IsTrimmable(s[|s| - 1]);
    assert TrimStart(s) == s;
  }

  /** The checks of `validateImage`, in order: a file at all, then its type, then its size. */
  function Classify(file: Value): (v: Verdict)
    ensures v == Acceptable <==>
              Truthy(file)
              && Member(file, "type").value in {Str("image/jpeg"), Str("image/png"), Str("image/webp"), Str("image/gif")}
              && !Exceeds(Member(file, "size").value, MaxImageBytes)
    ensures v == NoFile <==> !Truthy(file)
    ensures v == Unsupported <==>
              Truthy(file)
              && Member(file, "type").value !in {Str("image/jpeg"), Str("image/png"), Str("image/webp"), Str("image/gif")}
  {
    if !Truthy(file) then NoFile
    else
      var fileType := Member(file, "type").value;
      if !(fileType.Str? && fileType.s in AllowedImageTypes) then Unsupported
      else if Exceeds(Member(file, "size").value, MaxImageBytes) then TooLarge
      else Acceptable
  }

  /** The message a rejected file leaves; none for a missing or acceptable one. */
  function VerdictMessage(v: Verdict): (m: string)
    ensures m != "" <==> v == Unsupported || v == TooLarge
  {
    match v
    case Unsupported => UnsupportedMessage
    case TooLarge => TooLargeMessage
    case _ => ""
  }

  /** The size limit is inclusive: exactly 5 MiB passes, one byte more does not. */
  lemma SizeBoundary(fileType: string)
    requires fileType in AllowedImageTypes
    ensures Classify(Obj(map["type" := Str(fileType), "size" := Num(5242880)])) == Acceptable
    ensures Classify(Obj(map["type" := Str(fileType), "size" := Num(5242881)])) == TooLarge
  {
  }

  /** The type is checked before the size: a file refused for its type is refused for its type whatever its size. */
  lemma TypeCheckedFirst(fields: Fields, size: Value)
    requires Classify(Obj(fields)) == Unsupported
    ensures Classify(Obj(fields["size" := size])) == Unsupported
  {
    assert Member(Obj(fields["size" := size]), "type") == Member(Obj(fields), "type");
  }

  /** Submitting is disabled while submitting, or when the body is blank and no image is selected. */
  function SubmitDisabled(isSubmitting: bool, body: string, selectedImage: Value): (disabled: bool)
    ensures disabled <==> isSubmitting || (AllTrimmable(body) && !Truthy(selectedImage))
  {
    TrimEmptyIff(body);
    isSubmitting || (Trim(body) == "" && !Truthy(selectedImage))
  }

  class Composer {
    var body: string
    var error: string
    var isSubmitting: bool
    var selectedImage: Value
    var imagePreview: Value

    /** The selected image is always one that passed the check, and it has a preview exactly when it is set. */
    predicate Valid()
      reads this
    {
      |body| <= MaxBodyLength
      && (selectedImage == Null || Classify(selectedImage) == Acceptable)
      && (selectedImage == Null <==> imagePreview == Null)
    }

    constructor ()
      ensures Valid()
      ensures body == "" && error == "" && !isSubmitting && selectedImage == Null && imagePreview == Null
    {
      body := "";
      error := "";
      isSubmitting := false;
      selectedImage := Null;
      imagePreview := Null;
    }

    predicate Disabled()
      reads this
    {
      SubmitDisabled(isSubmitting, body, selectedImage)
    }

    /** `validateImage(file)`: true for an acceptable file; a rejected one records its message. */
    method ValidateImage(file: Value) returns (ok: bool)
      modifies this
      ensures ok <==> Classify(file) == Acceptable
      ensures error == if VerdictMessage(Classify(file)) != "" then VerdictMessage(Classify(file)) else old(error)
      ensures body == old(body) && isSubmitting == old(isSubmitting)
      ensures selectedImage == old(selectedImage) && imagePreview == old(imagePreview)
    {
      if !Truthy(file) {
        return false;
      }
      var fileType := Member(file, "type").value;
      if !(fileType.Str? && fileType.s in AllowedImageTypes) {
        error := UnsupportedMessage;
        return false;
      }
      if Exceeds(Member(file, "size").value, MaxImageBytes) {
        error := TooLargeMessage;
        return false;
      }
      return true;
    }

    /**
      `handleImageChange`: an acceptable file becomes the selected image with
      its preview URL and clears the error; any other leaves the selection as
      it was.
    */
    method HandleImageChange(file: Value, preview: Value)
      requires Valid() && Truthy(preview)
      modifies this
      ensures Valid()
      ensures Classify(file) == Acceptable ==> selectedImage == file && imagePreview == preview && error == ""
      ensures Classify(file) != Acceptable ==>
                selectedImage == old(selectedImage) && imagePreview == old(imagePreview)
                && error == if VerdictMessage(Classify(file)) != "" then VerdictMessage(Classify(file)) else old(error)
      ensures body == old(body) && isSubmitting == old(isSubmitting)
    {
      if !Truthy(file) {
        return;
      }
      var ok := ValidateImage(file);
      if !ok {
        return;
      }
      selectedImage := file;
      imagePreview := preview;
      error := "";
    }

    /** `removeImage`: no image is selected and no preview is shown. */
    method RemoveImage()
      requires Valid()
      modifies this
      ensures Valid() && selectedImage == Null && imagePreview == Null
      ensures body == old(body) && error == old(error) && isSubmitting == old(isSubmitting)
    {
      selectedImage := Null;
      imagePreview := Null;
    }

    /** Typing into the body field, whose `maxLength` keeps at most 1000 characters. */
    method ChangeBody(text: string)
      requires Valid()
      modifies this
      ensures Valid()
      ensures |text| <= MaxBodyLength ==> body == text
      ensures |text| > MaxBodyLength ==> body == text[..MaxBodyLength]
      ensures error == old(error) && isSubmitting == old(isSubmitting)
      ensures selectedImage == old(selectedImage) && imagePreview == old(imagePreview)
    {
      body := if |text| <= MaxBodyLength then text else text[..MaxBodyLength];
    }
  }
}
