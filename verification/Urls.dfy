// The URL rules the navigation protocol rests on: which documents belong to a
// server, and how the server's base is read off one of its pages.
module Urls {
  import opened Wrappers

  // The Unicode White_Space characters, which is what Rust's `trim` removes.
  predicate IsWhitespace(c: char) {
    var n := c as int;
    || 0x09 <= n <= 0x0D || n == 0x20 || n == 0x85 || n == 0xA0 || n == 0x1680
    || 0x2000 <= n <= 0x200A || n == 0x2028 || n == 0x2029 || n == 0x202F || n == 0x205F || n == 0x3000
  }

  // `url.trim().is_empty()`.
  predicate IsBlank(url: string) {
    forall i | 0 <= i < |url| :: IsWhitespace(url[i])
  }

  predicate StartsWith(s: string, prefix: string) {
    |prefix| <= |s| && s[..|prefix|] == prefix
  }

  // `url` stays on the server at `base`: what follows the base begins at a path
  // boundary.
  predicate IsPageOf(base: string, url: string) {
    && base != ""
    && StartsWith(url, base)
    && var rest := url[|base|..];
       rest == "" || rest[0] in {'/', '?', '#'}
  }

  function LowerAscii(c: char): char {
    if 'A' <= c <= 'Z' then (c as int + 32) as char else c
  }

  function LowerAsciiAll(s: string): (r: string)
    ensures |r| == |s|
    ensures forall i | 0 <= i < |s| :: r[i] == LowerAscii(s[i])
  {
    if s == "" then "" else [LowerAscii(s[0])] + LowerAsciiAll(s[1..])
  }

  const WEB_PATH_SEGMENT := "/web"
  const SCHEME_SEPARATOR := "://"

  predicate OccursAt(s: string, needle: string, i: int) {
    0 <= i && i + |needle| <= |s| && s[i..i + |needle|] == needle
  }

  // The first occurrence at or after `from`.
  function Find(s: string, needle: string, from: nat): (r: Option<nat>)
    requires from <= |s|
    ensures r.Some? ==> from <= r.value && OccursAt(s, needle, r.value)
    ensures r.Some? ==> forall i | from <= i < r.value :: !OccursAt(s, needle, i)
    ensures r.None? ==> forall i | from <= i :: !OccursAt(s, needle, i)
    decreases |s| - from
  {
    if OccursAt(s, needle, from) then Some(from)
    else if from == |s| then None
    else Find(s, needle, from + 1)
  }

  // The last occurrence starting at or before `upto`.
  function FindLast(s: string, needle: string, upto: nat): (r: Option<nat>)
    ensures r.Some? ==> r.value <= upto && OccursAt(s, needle, r.value)
    ensures r.Some? ==> forall i | r.value < i <= upto :: !OccursAt(s, needle, i)
    ensures r.None? ==> forall i | i <= upto :: !OccursAt(s, needle, i)
  {
    if OccursAt(s, needle, upto) then Some(upto)
    else if upto == 0 then None
    else FindLast(s, needle, upto - 1)
  }

  // Where the host begins: behind the first scheme separator, or at the start.
  function HostStart(url: string): (start: nat)
    ensures start <= |url|
  {
    match Find(url, SCHEME_SEPARATOR, 0)
    case Some(i) => i + |SCHEME_SEPARATOR|
    case None => 0
  }

  // The server base of a URL: everything before the last `/web` of any case,
  // and otherwise the origin.
  function ExtractBaseUrl(url: string): (base: string)
    ensures StartsWith(url, base)
  {
    match FindLast(LowerAsciiAll(url), WEB_PATH_SEGMENT, |url|)
    case Some(pos) => url[..pos]
    case None =>
      url[..SlashFrom(url, HostStart(url))]
  }

  // Which prefix it is. With a `/web` of any case in the URL, the one before the
  // last of them; without, the one through the host up to its first slash.
  lemma {:induction false} BaseIsBeforeLastWeb(url: string)
    ensures var base, lower := ExtractBaseUrl(url), LowerAsciiAll(url);
      if exists p :: OccursAt(lower, WEB_PATH_SEGMENT, p) then
        OccursAt(lower, WEB_PATH_SEGMENT, |base|) && forall p | |base| < p :: !OccursAt(lower, WEB_PATH_SEGMENT, p)
      else
        && HostStart(url) <= |base| && '/' !in url[HostStart(url)..|base|]
        && (|base| == |url| || url[|base|] == '/')
  {
    if FindLast(LowerAsciiAll(url), WEB_PATH_SEGMENT, |url|).None? {
      OriginEndsAtSlash(url, HostStart(url));
    }
  }

  // The first slash at or after `start`, or the end.
  function SlashFrom(url: string, start: nat): (end: nat)
    requires start <= |url|
    ensures start <= end <= |url|
  {
    match Find(url, "/", start) case Some(i) => i case None => |url|
  }

  lemma {:induction false} OriginEndsAtSlash(url: string, start: nat)
    requires start <= |url|
    ensures var end := SlashFrom(url, start);
      '/' !in url[start..end] && (end == |url| || url[end] == '/')
  {
    var end := SlashFrom(url, start);
    forall i | start <= i < end
      ensures url[i] != '/'
    {
      NoSlashAt(url, i);
    }
    if end < |url| {
      assert url[end..end + 1] == [url[end]];
    }
  }

  lemma {:induction false} NoSlashAt(url: string, i: nat)
    requires i < |url| && !OccursAt(url, "/", i)
    ensures url[i] != '/'
  {
    assert url[i..i + 1] == [url[i]];
  }

  // The base a probe resolves is one its own page belongs to, so the document
  // the server answers with can promote the navigation; the one exception is a
  // URL that reduces to no base at all.
  lemma {:induction false} BaseOwnsItsPage(url: string)
    ensures IsPageOf(ExtractBaseUrl(url), url) <==> ExtractBaseUrl(url) != ""
  {
    var base := ExtractBaseUrl(url);
    var lower := LowerAsciiAll(url);
    match FindLast(lower, WEB_PATH_SEGMENT, |url|) {
      case Some(pos) =>
        assert lower[pos] == lower[pos..pos + 4][0] == '/';
        assert url[pos] == '/';
        assert url[|base|..][0] == '/';
      case None =>
        match Find(url, "/", HostStart(url)) {
          case Some(end) =>
            assert url[end] == url[end..end + 1][0] == '/';
            assert url[|base|..][0] == '/';
          case None =>
        }
    }
  }

  // A base is compared verbatim and up to a path boundary: extending it by
  // anything but a path, a query or a fragment leaves the server.
  lemma {:induction false} PageOfExtension(base: string, rest: string)
    requires base != ""
    ensures IsPageOf(base, base + rest) <==> rest == "" || rest[0] in {'/', '?', '#'}
  {
    assert (base + rest)[..|base|] == base;
    assert (base + rest)[|base|..] == rest;
  }

  // Reducing twice is not reducing once: a server under a path loses the path,
  // which is why a resolved base is never reduced again.
  lemma {:induction false} ReductionIsNotIdempotent()
    ensures exists url :: ExtractBaseUrl(ExtractBaseUrl(url)) != ExtractBaseUrl(url)
  {
    var url := "h/j/web";
    var lower := LowerAsciiAll(url);
    assert lower == url;
    assert OccursAt(lower, WEB_PATH_SEGMENT, 3) by { assert lower[3..7] == "/web"; }
    assert ExtractBaseUrl(url) == url[..3] == "h/j" by {
      assert !OccursAt(lower, WEB_PATH_SEGMENT, 7) && !OccursAt(lower, WEB_PATH_SEGMENT, 6);
      assert !OccursAt(lower, WEB_PATH_SEGMENT, 5) && !OccursAt(lower, WEB_PATH_SEGMENT, 4);
    }
    var once := "h/j";
    var none := LowerAsciiAll(once);
    assert FindLast(none, WEB_PATH_SEGMENT, 3).None?;
    assert Find(once, SCHEME_SEPARATOR, 0).None?;
    assert OccursAt(once, "/", 1) by { assert once[1..2] == "/"; }
    assert !OccursAt(once, "/", 0) by { assert once[0..1] == "h"; }
    assert Find(once, "/", 0) == Some(1);
    assert ExtractBaseUrl(once) == once[..1];
    assert |ExtractBaseUrl(once)| == 1;
  }
}
