/**
  The width/height arithmetic shared by the three image fields' `resizeImage`
  (src/components/field/ImageElement.tsx:169-180, ImageUploadField.tsx:98-109,
  DualImageUpload.tsx:143-154), over exact reals; the browser image pipeline around it
  (Image, canvas, toBlob, FileReader) is outside the model.
*/
module ImageScaling {

  /** An image file as the upload handlers see it: MIME type, name and natural size. */
  datatype ImageFile = ImageFile(mimeType: string, name: string, width: real, height: real)

  /** `file.type.startsWith('image/')`. */
  predicate IsImage(f: ImageFile) {
    |f.mimeType| >= 6 && f.mimeType[..6] == "image/"
  }

  /** A side exceeds the limit, so the handlers resize before encoding. */
  predicate NeedsResize(width: real, height: real, maxDimension: real) {
    width > maxDimension || height > maxDimension
  }

  datatype Size = Size(width: real, height: real)

  /** The size the resize arithmetic produces. */
  function FitWithin(width: real, height: real, maxDimension: real): Size
    requires width >= 0.0 && height >= 0.0 && maxDimension >= 0.0
  {
    if !NeedsResize(width, height, maxDimension) then Size(width, height)
    else if width > height then Size(maxDimension, (height / width) * maxDimension)
    else Size((width / height) * maxDimension, maxDimension)
  }

  /**
    Resizing bounds both sides by the limit, makes the longer side (the height on a tie)
    exactly the limit, and keeps the aspect ratio; an image within the limit is untouched.
  */
  lemma FitWithinSpec(width: real, height: real, maxDimension: real)
    requires width >= 0.0 && height >= 0.0 && maxDimension >= 0.0
    ensures var s := FitWithin(width, height, maxDimension);
      0.0 <= s.width <= maxDimension && 0.0 <= s.height <= maxDimension
      && s.width * height == s.height * width
      && (!NeedsResize(width, height, maxDimension) ==> s == Size(width, height))
      && (NeedsResize(width, height, maxDimension) ==>
            (if width > height then s.width == maxDimension else s.height == maxDimension))
  {
    var s := FitWithin(width, height, maxDimension);
    if NeedsResize(width, height, maxDimension) {
      if width > height {
        ScaledBelow(height, width, maxDimension);
        assert s.height * width == height * maxDimension by { DivMulCancel(height, width, maxDimension); }
      } else {
        assert height > 0.0;
        ScaledBelow(width, height, maxDimension);
        assert s.width * height == width * maxDimension by { DivMulCancel(width, height, maxDimension); }
      }
    }
  }

  lemma ScaledBelow(a: real, b: real, m: real)
    requires 0.0 <= a <= b && b > 0.0 && m >= 0.0
    ensures 0.0 <= (a / b) * m <= m
  {
    assert a / b <= 1.0;
    assert (a / b) * m <= 1.0 * m;
  }

  lemma DivMulCancel(a: real, b: real, m: real)
    requires b > 0.0
    ensures ((a / b) * m) * b == a * m
  {
    assert (a / b) * b == a;
    calc {
      ((a / b) * m) * b;
      ((a / b) * b) * m;
      a * m;
    }
  }
}
