/**
 * The browser-side check of a receipt image (`app/lib/ImageUtils.js`),
 * run before the image is compressed and sent: an image type first, then
 * at most 10 MiB.
 */
module ImageUtils {
  import opened Wrappers

  /** A `File` as the checks see it: its byte size and MIME type. */
  datatype UploadedFile = UploadedFile(size: int, mimeType: string)

  const MaxSizeBeforeCompression: int := 10 * 1024 * 1024
  const NotAnImage: string := "Please select a valid image file (JPEG, PNG, etc.)"
  const TooLarge: string := "Image file is too large. Please select a file smaller than 10MB."

  /** `type.startsWith('image/')` */
  predicate IsImageType(mimeType: string) {
    "image/" <= mimeType
  }

  /** `validateImageFile(file)`: `true`, or the error it throws. */
  function ValidateImageFile(file: UploadedFile): (r: Result<bool>)
    ensures r.Ok? <==> IsImageType(file.mimeType) && file.size <= MaxSizeBeforeCompression
    ensures r.Ok? ==> r.value
    ensures !IsImageType(file.mimeType) <==> r == Err(NotAnImage)
    ensures IsImageType(file.mimeType) && file.size > MaxSizeBeforeCompression <==> r == Err(TooLarge)
  {
    if !IsImageType(file.mimeType) then Err(NotAnImage)
    else if file.size > MaxSizeBeforeCompression then Err(TooLarge)
    else Ok(true)
  }

  /** The type is checked first: an oversized file that is not an image gets the type error. */
  lemma TypeCheckedBeforeSize(size: int)
    requires size > MaxSizeBeforeCompression
    ensures ValidateImageFile(UploadedFile(size, "application/pdf")) == Err(NotAnImage)
    ensures ValidateImageFile(UploadedFile(size, "image/png")) == Err(TooLarge)
  {
    assert "image/" <= "image/png";
    assert !("image/" <= "application/pdf") by {
      assert "application/pdf"[0] != "image/"[0];
    }
  }

  /** The limit is inclusive: exactly 10 MiB passes, one byte more does not. */
  lemma SizeLimitBoundary()
    ensures ValidateImageFile(UploadedFile(10485760, "image/jpeg")) == Ok(true)
    ensures ValidateImageFile(UploadedFile(10485761, "image/jpeg")) == Err(TooLarge)
  {
    assert "image/" <= "image/jpeg";
  }
}
