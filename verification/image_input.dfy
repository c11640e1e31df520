/**
 * The pure parts of image submission (the `onload` handler in
 * `updateWithImageURL`, assets/js/simulator.js): the size the canvas is given
 * before the image is redrawn, and the payload handed to the worker.
 */
module ImageInput {
  import Strings

  /** Images wider than this are scaled down. */
  const MaxWidth := 1024
  /** The width a scaled-down image gets. */
  const ScaledWidth := 800

  /** `Math.round(800 * h / w)` for `w > 0`: JavaScript rounds halves upwards. */
  function ScaledHeight(w: nat, h: nat): (r: nat)
    requires w > 0
    ensures 2 * w * r <= 1600 * h + w < 2 * w * r + 2 * w
  {
    var n := 1600 * h + w;
    var d := 2 * w;
    var q := n / d;
    assert n == d * q + n % d;
    q
  }

  /** The canvas size chosen for a source image of `w` x `h` pixels. */
  function ResizedSize(w: nat, h: nat): (size: (nat, nat))
    ensures size.0 <= MaxWidth
    ensures w > MaxWidth ==>
              size.0 == ScaledWidth && 2 * w * size.1 - w <= 2 * ScaledWidth * h < 2 * w * size.1 + w
    ensures w <= MaxWidth ==> size == (w, h)
  {
    if w > MaxWidth then (ScaledWidth, ScaledHeight(w, h)) else (w, h)
  }

  /** Resizing never enlarges either dimension. */
  lemma ResizeNeverGrows(w: nat, h: nat)
    ensures ResizedSize(w, h).0 <= w && ResizedSize(w, h).1 <= h
  {
    if w > MaxWidth {
      var r := ResizedSize(w, h).1;
      assert 1600 * h <= 2 * w * h;
      assert 2 * w * r < 2 * w * (h + 1);
      CancelFactor(2 * w, r, h + 1);
    }
  }

  lemma CancelFactor(a: nat, x: nat, y: nat)
    requires a * x < a * y
    ensures x < y
  {
    MulMonotone(a, y, x);
  }

  lemma MulMonotone(a: nat, x: nat, y: nat)
    ensures x <= y ==> a * x <= a * y
  {
  }

  /** `url.substr(url.indexOf(',') + 1)`: the data after the first comma, or the
      whole string when there is no comma. */
  function StripHeader(url: string): (payload: string)
    ensures |payload| <= |url| && payload == url[|url| - |payload|..]
    ensures ',' !in url ==> payload == url
    ensures ',' in url ==> |payload| < |url| && url[|url| - |payload| - 1] == ',' && ',' !in url[..|url| - |payload| - 1]
  {
    url[Strings.IndexOf(url, ',') + 1..]
  }

  /** Stripping a data URL's `data:<type>;base64,` header gives back its data. */
  lemma StripDataUrlHeader(header: string, data: string)
    requires ',' !in header
    ensures StripHeader(header + "," + data) == data
  {
    Strings.IndexOfAfterPrefix(header, ',', data);
    assert header + "," + data == header + [','] + data;
  }
}
