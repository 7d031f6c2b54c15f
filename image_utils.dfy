/** The byte-size estimate of a data URL used by the web scanner before it
    uploads a captured image. */
module ImageUtils {
  import opened Wrappers
  import opened Text

  /** `dataUrl.split(',')[1]` is `undefined` when there is no comma, and
      reading its `length` throws. */
  datatype SizeError = NoPayload

  /** `dataUrl.split(',')[1]`: the text after the first comma, up to the
      second comma if there is one. */
  function Payload(dataUrl: string): (r: Option<string>)
    ensures r.None? <==> ',' !in dataUrl
    ensures r.Some? ==> ',' !in r.value
  {
    match IndexOf(dataUrl, ',')
      case None => None
      case Some(k) =>
        var rest := dataUrl[k + 1..];
        match IndexOf(rest, ',')
          case None => Some(rest)
          case Some(j) => Some(rest[..j])
  }

  /** `getDataUrlSize`: three bytes for every four payload characters,
      rounded down, padding included. */
  function DataUrlSize(dataUrl: string): (r: Result<nat, SizeError>)
    ensures r.Err? <==> ',' !in dataUrl
    ensures r.Ok? ==> r.value == |Payload(dataUrl).value| * 3 / 4
  {
    match Payload(dataUrl)
      case None => Err(NoPayload)
      case Some(p) => Ok(|p| * 3 / 4)
  }

  /** The header before the first comma never matters. */
  lemma HeaderIgnored(h1: string, h2: string, body: string)
    requires ',' !in h1 && ',' !in h2
    ensures DataUrlSize(h1 + "," + body) == DataUrlSize(h2 + "," + body)
  {
    PayloadAfterHeader(h1, body);
    PayloadAfterHeader(h2, body);
  }

  lemma PayloadAfterHeader(h: string, body: string)
    requires ',' !in h
    ensures Payload(h + "," + body) == Payload("," + body)
  {
    var s := h + "," + body;
    assert s[|h|] == ',';
    assert ',' in s;
    assert s[..|h|] == h;
    var k := IndexOf(s, ',').value;
    assert k == |h|;
    assert s[k + 1..] == body;
    assert ("," + body)[1..] == body;
  }

  /** A payload without a comma is measured whole, padding and all. */
  lemma PayloadMeasured(h: string, p: string)
    requires ',' !in h && ',' !in p
    ensures DataUrlSize(h + "," + p) == Ok(|p| * 3 / 4)
  {
    PayloadAfterHeader(h, p);
    assert ("," + p)[1..] == p;
    assert ("," + p)[0] == ',';
  }

  /** The payload "AAA=" counts as three bytes, whatever the header. */
  lemma PaddingCounted(h: string)
    requires ',' !in h
    ensures DataUrlSize(h + ",AAA=") == Ok(3)
  {
    var p := "AAA=";
    assert p[0] == 'A' && p[1] == 'A' && p[2] == 'A' && p[3] == '=';
    assert ',' !in p;
    assert h + ",AAA=" == h + "," + p;
    PayloadMeasured(h, p);
  }

  /** A longer payload never gives a smaller size. */
  lemma SizeMonotone(h: string, p: string, q: string)
    requires ',' !in h && ',' !in p && ',' !in q && |p| <= |q|
    ensures DataUrlSize(h + "," + p).value <= DataUrlSize(h + "," + q).value
  {
    PayloadMeasured(h, p);
    PayloadMeasured(h, q);
  }

  /** The length of the padded base64 encoding of `n` bytes. */
  function Base64Length(n: nat): nat {
    4 * ((n + 2) / 3)
  }

  /** For a padded base64 payload the estimate is at least the true size
      and over-counts by at most the two padding bytes. */
  lemma EstimateBounds(h: string, p: string, n: nat)
    requires ',' !in h && ',' !in p && |p| == Base64Length(n)
    ensures n <= DataUrlSize(h + "," + p).value <= n + 2
  {
    PayloadMeasured(h, p);
    var g := (n + 2) / 3;
    assert |p| * 3 / 4 == 3 * g;
  }
}
