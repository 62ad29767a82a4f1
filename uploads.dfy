/** Upload file names and image URLs (server.js:25-28, 79). multer stores an
    uploaded photo under `Date.now() + '-' + file.originalname`, and the
    record points at it with `/public/uploads/` followed by that name. The
    clock reading is a parameter here. */
module Uploads {

  import opened Wrappers

  /** The URL prefix under which uploaded photos are served. */
  const UploadsPrefix: string := "/public/uploads/"

  predicate IsDigit(c: char)
  {
    '0' <= c <= '9'
  }

  predicate AllDigits(s: string)
  {
    forall i :: 0 <= i < |s| ==> IsDigit(s[i])
  }

  /** A decimal numeral without superfluous leading zeros. */
  predicate IsNumeral(s: string)
  {
    s != [] && AllDigits(s) && (s[0] == '0' ==> |s| == 1)
  }

  function DigitChar(d: nat): (c: char)
    requires d < 10
    ensures IsDigit(c) && c as int - '0' as int == d
  {
    ('0' as int + d) as char
  }

  /** JavaScript's conversion of a millisecond timestamp to a string: its
      plain decimal numeral. */
  function Decimal(n: nat): (s: string)
    ensures IsNumeral(s)
    decreases n
  {
    if n < 10 then [DigitChar(n)]
    else
      var s := Decimal(n / 10) + [DigitChar(n % 10)];
      assert s[0] == Decimal(n / 10)[0];
      s
  }

  /** The number a string of digits denotes. */
  function DecimalValue(s: string): nat
    requires AllDigits(s)
  {
    if s == [] then 0
    else DecimalValue(s[..|s| - 1]) * 10 + (s[|s| - 1] as int - '0' as int)
  }

  /** Reading back the numeral of a timestamp gives the timestamp. */
  lemma {:induction false} DecimalRoundTrip(n: nat)
    ensures DecimalValue(Decimal(n)) == n
    decreases n
  {
    if n >= 10 {
      var s := Decimal(n / 10);
      assert (s + [DigitChar(n % 10)])[..|s|] == s;
      DecimalRoundTrip(n / 10);
    }
  }

  /** A numeral with no superfluous leading zero denotes a positive number
      unless it is "0". */
  lemma {:induction false} NumeralValuePositive(s: string)
    requires IsNumeral(s) && s[0] != '0'
    ensures 1 <= DecimalValue(s)
    decreases |s|
  {
    if |s| > 1 {
      NumeralValuePositive(s[..|s| - 1]);
    }
  }

  /** Every numeral is the numeral of the number it denotes. */
  lemma {:induction false} NumeralRoundTrip(s: string)
    requires IsNumeral(s)
    ensures Decimal(DecimalValue(s)) == s
    decreases |s|
  {
    if |s| > 1 {
      var init, last := s[..|s| - 1], s[|s| - 1];
      assert init[0] == s[0];
      NumeralValuePositive(init);
      NumeralRoundTrip(init);
      var v := DecimalValue(s);
      assert v / 10 == DecimalValue(init) && v % 10 == last as int - '0' as int;
      assert s == init + [last];
    }
  }

  /** The name multer stores an upload under: the clock reading in
      milliseconds, a dash, and the client's original file name as is. */
  function FileName(timestamp: nat, originalName: string): string
  {
    Decimal(timestamp) + "-" + originalName
  }

  /** The `imageUrl` of a record whose photo was stored as `fileName`. */
  function ImageUrl(fileName: string): string
  {
    UploadsPrefix + fileName
  }

  /** The length of the longest prefix of `s` made of digits. */
  function DigitRun(s: string): (k: nat)
    ensures k <= |s|
    ensures forall i :: 0 <= i < k ==> IsDigit(s[i])
    ensures k < |s| ==> !IsDigit(s[k])
  {
    if s == [] || !IsDigit(s[0]) then 0
    else
      var k := 1 + DigitRun(s[1..]);
      assert forall i :: 1 <= i < k ==> s[i] == s[1..][i - 1];
      k
  }

  /** Reads an image URL as `/public/uploads/<numeral>-<original name>`,
      giving back the timestamp and the original name, or `None` when the
      URL does not have that shape. */
  function SplitImageUrl(url: string): Option<(nat, string)>
  {
    if |url| < |UploadsPrefix| || url[..|UploadsPrefix|] != UploadsPrefix then None
    else
      var rest := url[|UploadsPrefix|..];
      var k := DigitRun(rest);
      if k == 0 || k == |rest| || rest[k] != '-' || (rest[0] == '0' && k > 1) then None
      else Some((DecimalValue(rest[..k]), rest[k + 1..]))
  }

  /** The image URL of an upload determines the timestamp and the original
      name it was made from. */
  lemma ImageUrlRoundTrip(timestamp: nat, originalName: string)
    ensures SplitImageUrl(ImageUrl(FileName(timestamp, originalName))) == Some((timestamp, originalName))
  {
    var d := Decimal(timestamp);
    var url := ImageUrl(FileName(timestamp, originalName));
    var rest := d + "-" + originalName;
    assert url == UploadsPrefix + rest;
    assert url[..|UploadsPrefix|] == UploadsPrefix;
    assert url[|UploadsPrefix|..] == rest;
    assert rest[|d|] == '-';
    assert DigitRun(rest) == |d|;
    assert rest[..|d|] == d;
    assert rest[|d| + 1..] == originalName;
    DecimalRoundTrip(timestamp);
  }

  /** Conversely, every URL that splits is the image URL of what it splits
      into: the URLs of uploads are exactly `/public/uploads/<numeral>-<name>`. */
  lemma SplitImageUrlSound(url: string)
    requires SplitImageUrl(url).Some?
    ensures url == ImageUrl(FileName(SplitImageUrl(url).value.0, SplitImageUrl(url).value.1))
  {
    var rest := url[|UploadsPrefix|..];
    var k := DigitRun(rest);
    assert IsNumeral(rest[..k]);
    NumeralRoundTrip(rest[..k]);
    assert rest == rest[..k] + "-" + rest[k + 1..];
    assert url == url[..|UploadsPrefix|] + rest;
  }
}
