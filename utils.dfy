/** src/lib/utils.ts: identifier extraction and clamping. */
module Utils {
  import opened Wrappers
  import opened Types

  /** `s.split(sep)` for a one-character separator: always at least one part. */
  function Split(s: string, sep: char): (parts: seq<string>)
    ensures |parts| >= 1
  {
    if |s| == 0 then [""]
    else
      var rest := Split(s[1..], sep);
      if s[0] == sep then [""] + rest else [[s[0]] + rest[0]] + rest[1..]
  }

  /** `parts[parts.length - 1]` of `s.split("/")`. */
  function LastSegment(s: string): string
  {
    var parts := Split(s, '/');
    parts[|parts| - 1]
  }

  /** No part of a split contains the separator. */
  lemma {:induction false} SplitPartsOmitSep(s: string, sep: char)
    ensures forall k :: 0 <= k < |Split(s, sep)| ==> sep !in Split(s, sep)[k]
  {
    if |s| > 0 {
      SplitPartsOmitSep(s[1..], sep);
    }
  }

  /** A string without the separator splits into itself. */
  lemma {:induction false} SplitWithoutSep(s: string, sep: char)
    requires sep !in s
    ensures Split(s, sep) == [s]
  {
    if |s| > 0 {
      SplitWithoutSep(s[1..], sep);
      assert s == [s[0]] + s[1..];
    }
  }

  /** Splitting at one separator splits the two sides independently. */
  lemma {:induction false} SplitAround(a: string, sep: char, b: string)
    ensures Split(a + [sep] + b, sep) == Split(a, sep) + Split(b, sep)
  {
    var s := a + [sep] + b;
    if |a| == 0 {
      assert s[1..] == b;
    } else {
      assert s[1..] == a[1..] + [sep] + b;
      SplitAround(a[1..], sep, b);
    }
  }

  /** A string holding a slash has a last one. */
  lemma {:induction false} LastSlashExists(s: string) returns (k: nat)
    requires '/' in s
    ensures k < |s| && s[k] == '/' && forall j :: k < j < |s| ==> s[j] != '/'
  {
    if s[|s| - 1] == '/' {
      k := |s| - 1;
    } else {
      assert s == s[..|s| - 1] + [s[|s| - 1]];
      k := LastSlashExists(s[..|s| - 1]);
    }
  }

  /** The documented use: any prefix, a slash, then an id without slashes, yields the id. */
  lemma LastSegmentAfterSlash(prefix: string, id: string)
    requires '/' !in id
    ensures LastSegment(prefix + "/" + id) == id
  {
    SplitAround(prefix, '/', id);
    SplitWithoutSep(id, '/');
  }

  /** A trailing slash leaves an empty last segment. */
  lemma LastSegmentAfterTrailingSlash(prefix: string)
    ensures LastSegment(prefix + "/") == ""
  {
    SplitAround(prefix, '/', "");
    assert prefix + "/" == prefix + ['/'] + "";
  }

  /**
   * The reference characterisation: the last segment is the suffix of `s`
   * that holds no slash and is either all of `s` or preceded by a slash.
   */
  lemma LastSegmentIsFinalSuffix(s: string)
    ensures var r := LastSegment(s);
      && '/' !in r
      && |r| <= |s| && s[|s| - |r|..] == r
      && (|r| == |s| || s[|s| - |r| - 1] == '/')
  {
    SplitPartsOmitSep(s, '/');
    if '/' !in s {
      SplitWithoutSep(s, '/');
    } else {
      var k := LastSlashExists(s);
      var b := s[k + 1..];
      assert s == s[..k] + "/" + b;
      LastSegmentAfterSlash(s[..k], b);
    }
  }

  /** `extractChannelId(href)`: "" for a missing or empty href, else the last `/` segment. */
  function ExtractChannelId(href: Option<string>): (id: string)
    ensures '/' !in id
    ensures !Truthy(href) ==> id == ""
    ensures href.Some? && '/' !in href.value ==> id == href.value
    ensures href.Some? ==> |id| <= |href.value| && href.value[|href.value| - |id|..] == id
  {
    if !Truthy(href) then ""
    else
      LastSegmentIsFinalSuffix(href.value);
      if '/' !in href.value then SplitWithoutSep(href.value, '/'); LastSegment(href.value)
      else LastSegment(href.value)
  }

  /** `extractPlaceId(url)`: the same rule, written out separately in the source. */
  function ExtractPlaceId(url: Option<string>): (id: string)
    ensures '/' !in id
    ensures !Truthy(url) ==> id == ""
  {
    if !Truthy(url) then ""
    else
      LastSegmentIsFinalSuffix(url.value);
      LastSegment(url.value)
  }

  /** The two extractors agree on every input. */
  lemma PlaceIdAgreesWithChannelId(s: Option<string>)
    ensures ExtractPlaceId(s) == ExtractChannelId(s)
  {
  }

  /** The example in the source's doc comment. */
  lemma DocumentedExample()
    ensures ExtractChannelId(Some("/listen/kutx-98-9/vbFsCngB")) == "vbFsCngB"
  {
    assert "/listen/kutx-98-9/vbFsCngB" == "/listen/kutx-98-9" + "/" + "vbFsCngB";
    LastSegmentAfterSlash("/listen/kutx-98-9", "vbFsCngB");
  }

  function Min(a: real, b: real): real { if a <= b then a else b }

  function Max(a: real, b: real): real { if a >= b then a else b }

  /** `clamp(value, min, max)` = `Math.min(Math.max(value, min), max)`. */
  function Clamp(value: real, lo: real, hi: real): (r: real)
    ensures lo <= hi ==> lo <= r <= hi
    ensures lo <= value <= hi ==> r == value
    ensures value < lo && lo <= hi ==> r == lo
    ensures value > hi ==> r == hi
  {
    Min(Max(value, lo), hi)
  }

  /** Clamping an already clamped value changes nothing. */
  lemma ClampIdempotent(value: real, lo: real, hi: real)
    ensures Clamp(Clamp(value, lo, hi), lo, hi) == Clamp(value, lo, hi)
  {
  }
}
