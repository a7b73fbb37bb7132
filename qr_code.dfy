/**
 * The QR image on the card: a ready-made image URL when the back end has
 * one, otherwise a 150x150 code requested from the QR service for the
 * given value, or for the word `Example` when there is none.
 * `encodeURIComponent` is a parameter `enc`.
 */
module QrCode {
  import opened JsValues

  /** The QR service's URL up to and including `data=`, fixed at 150x150 pixels. */
  const QrBase := "https://api.qrserver.com/v1/create-qr-code/?size=150x150&data="
  const SizeQuery := "?size=150x150"
  const PlaceholderData := "Example"

  /** The URL generated when no image URL is given: the encoded value, or the placeholder. */
  function DefaultQr(value: Option<string>, enc: string -> string): (url: string)
    ensures StartsWith(url, QrBase)
    ensures Truthy(value) ==> url[|QrBase|..] == enc(value.value)
    ensures !Truthy(value) ==> url[|QrBase|..] == PlaceholderData
  {
    var data := if Truthy(value) then enc(value.value) else PlaceholderData;
    assert (QrBase + data)[..|QrBase|] == QrBase;
    assert (QrBase + data)[|QrBase|..] == data;
    QrBase + data
  }

  /** `imageUrl || defaultQr`. */
  function QrSrc(value: Option<string>, imageUrl: Option<string>, enc: string -> string): (src: string)
    ensures Truthy(imageUrl) ==> src == imageUrl.value
    ensures !Truthy(imageUrl) ==> src == DefaultQr(value, enc)
  {
    OrElse(imageUrl, DefaultQr(value, enc))
  }

  /** Every generated URL asks the service for a 150x150 image. */
  lemma GeneratedUrlRequestsSize(value: Option<string>, imageUrl: Option<string>, enc: string -> string)
    requires !Truthy(imageUrl)
    ensures StartsWith(QrSrc(value, imageUrl, enc), "https://api.qrserver.com/v1/create-qr-code/" + SizeQuery)
  {
    var src := QrSrc(value, imageUrl, enc);
    var prefix := "https://api.qrserver.com/v1/create-qr-code/" + SizeQuery;
    assert |prefix| <= |QrBase| && QrBase[..|prefix|] == prefix;
    assert src[..|prefix|] == QrBase[..|prefix|];
  }

  /**
   * Without an image URL, an injective encoding makes the code tell values
   * apart: two non-empty values give the same image only when they are equal.
   */
  lemma GeneratedUrlDeterminesValue(v1: string, v2: string, enc: string -> string)
    requires forall a, b :: enc(a) == enc(b) ==> a == b
    requires v1 != "" && v2 != ""
    requires QrSrc(Some(v1), None, enc) == QrSrc(Some(v2), None, enc)
    ensures v1 == v2
  {
    DropPrefix(QrBase, enc(v1), enc(v2));
  }
}
