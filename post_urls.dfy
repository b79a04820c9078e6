/**
 * Post identifiers as they appear in URLs.
 *
 * The post router is mounted at "/api/posts", and a post that carries an
 * uploaded image gets the image URL "/api/posts/<id>/image", which the
 * route GET "/:id/image" serves. Identifiers are modelled as natural
 * numbers written in hexadecimal, the notation of Mongo's ObjectId text;
 * parsing accepts both cases of the hex letters, as the ObjectId cast does.
 */
module PostUrls {
  import opened Wrappers

  type PostId = nat

  const ImagePathPrefix: string := "/api/posts/"
  const ImagePathSuffix: string := "/image"

  predicate IsHexDigit(c: char) {
    '0' <= c <= '9' || 'a' <= c <= 'f' || 'A' <= c <= 'F'
  }

  /** The lower-case hexadecimal digit for d. */
  function HexDigit(d: nat): (c: char)
    requires d < 16
    ensures IsHexDigit(c)
    ensures HexValue(c) == Some(d)
  {
    if d < 10 then (48 + d) as char else (87 + d) as char
  }

  /** The value of one hexadecimal digit, or None for any other character. */
  function HexValue(c: char): (r: Option<nat>)
    ensures r.Some? <==> IsHexDigit(c)
    ensures r.Some? ==> r.value < 16
  {
    if '0' <= c <= '9' then Some(c as int - 48)
    else if 'a' <= c <= 'f' then Some(c as int - 87)
    else if 'A' <= c <= 'F' then Some(c as int - 55)
    else None
  }

  /** The text of an identifier: its hexadecimal digits, most significant first. */
  function IdText(id: PostId): (s: string)
    ensures |s| > 0
    ensures forall i :: 0 <= i < |s| ==> IsHexDigit(s[i])
  {
    if id < 16 then [HexDigit(id)] else IdText(id / 16) + [HexDigit(id % 16)]
  }

  /** Reads an identifier back from its text; None unless s is a non-empty run of hex digits. */
  function ParseId(s: string): (r: Option<PostId>)
    ensures r.Some? <==> |s| > 0 && forall i :: 0 <= i < |s| ==> IsHexDigit(s[i])
  {
    if |s| == 0 then None
    else
      var d := HexValue(s[|s| - 1]);
      if d.None? then None
      else if |s| == 1 then d
      else match ParseId(s[..|s| - 1])
        case None => None
        case Some(n) => Some(16 * n + d.value)
  }

  /** Parsing the text of an identifier gives back that identifier. */
  lemma {:induction false} ParseIdText(id: PostId)
    ensures ParseId(IdText(id)) == Some(id)
  {
    if id >= 16 {
      var s := IdText(id);
      assert s == IdText(id / 16) + [HexDigit(id % 16)];
      assert s[..|s| - 1] == IdText(id / 16);
      ParseIdText(id / 16);
    }
  }

  /** The image URL stored with a post whose image is kept in the database. */
  function ImageUrl(id: PostId): string {
    ImagePathPrefix + IdText(id) + ImagePathSuffix
  }

  /**
   * The post whose image a URL requests through GET "/api/posts/:id/image",
   * or None when the URL does not match that route with a well-formed id.
   */
  function ImageUrlTarget(url: string): (r: Option<PostId>)
    ensures r.Some? ==> |url| > |ImagePathPrefix| + |ImagePathSuffix|
    ensures r.Some? ==> url[..|ImagePathPrefix|] == ImagePathPrefix
    ensures r.Some? ==> url[|url| - |ImagePathSuffix|..] == ImagePathSuffix
  {
    var n, m := |ImagePathPrefix|, |ImagePathSuffix|;
    if |url| < n + m || url[..n] != ImagePathPrefix || url[|url| - m..] != ImagePathSuffix then None
    else ParseId(url[n..|url| - m])
  }

  /** The image URL given to a post leads back to that post's image route. */
  lemma ImageUrlRoutesBack(id: PostId)
    ensures ImageUrlTarget(ImageUrl(id)) == Some(id)
  {
    var url, t := ImageUrl(id), IdText(id);
    var n, m := |ImagePathPrefix|, |ImagePathSuffix|;
    assert url[..n] == ImagePathPrefix;
    assert url[|url| - m..] == ImagePathSuffix;
    assert url[n..|url| - m] == t;
    ParseIdText(id);
  }

  /** Distinct posts never share an image URL. */
  lemma ImageUrlInjective(a: PostId, b: PostId)
    requires ImageUrl(a) == ImageUrl(b)
    ensures a == b
  {
    ImageUrlRoutesBack(a);
    ImageUrlRoutesBack(b);
  }
}
