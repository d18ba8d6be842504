// Go's mime.FormatMediaType for a media type and the single parameter
// `charset`, which is the only way the modelled code calls it.
module MediaType {

  import opened Wrappers
  import opened GoStrings

  /** The characters RFC 2045 calls tspecials. */
  predicate IsTSpecial(c: char) {
    c in "()<>@,;:\\\"/[]?="
  }

  predicate IsTokenChar(c: char) {
    0x20 < c as int < 0x7F && !IsTSpecial(c)
  }

  /** A non-empty run of token characters. */
  predicate IsToken(s: string) {
    s != [] && forall i :: 0 <= i < |s| ==> IsTokenChar(s[i])
  }

  /** The index of the first `c` in `s`, when there is one. */
  function IndexOf(s: string, c: char): (r: Option<nat>)
    ensures r.None? <==> c !in s
    ensures r.Some? ==> r.value < |s| && s[r.value] == c && c !in s[..r.value]
  {
    if s == [] then None
    else if s[0] == c then Some(0)
    else match IndexOf(s[1..], c)
      case None => None
      case Some(i) => assert s[1..][..i] == s[1..i + 1]; Some(i + 1)
  }

  /** The type part: "" when it is not a token or two tokens around a slash. */
  function FormatType(t: string): (r: Option<string>)
  {
    match IndexOf(t, '/')
    case None => if IsToken(t) then Some(ToLower(t)) else None
    case Some(k) =>
      if IsToken(t[..k]) && IsToken(t[k + 1..])
      then Some(ToLower(t[..k]) + "/" + ToLower(t[k + 1..]))
      else None
  }

  /** A value needs RFC 2231 encoding when it has a byte outside printable ASCII other than a tab. */
  predicate NeedsEncoding(s: string) {
    exists i :: 0 <= i < |s| && (s[i] as int < 0x20 || s[i] as int > 0x7E) && s[i] != '\t'
  }

  /** The parameter value as a quoted string: '"' and '\' get a backslash. */
  function Quote(s: string): string
  {
    if s == [] then []
    else (if s[0] == '"' || s[0] == '\\' then ['\\', s[0]] else [s[0]]) + Quote(s[1..])
  }

  function HexDigit(n: nat): char
    requires n < 16
  {
    "0123456789ABCDEF"[n]
  }

  /** A byte that section 4 of RFC 2231 lets through unencoded. */
  predicate IsAttrChar(c: char) {
    0x20 < c as int < 0x7F && c != '*' && c != '\'' && c != '%' && !IsTSpecial(c)
  }

  /** One byte of a parameter value: itself, or '%' and two upper-case hex digits. */
  function EncodeByte(c: char): (r: string)
    ensures IsAttrChar(c) ==> r == [c]
    ensures !IsAttrChar(c) ==> |r| == 3 && r[0] == '%'
  {
    if IsAttrChar(c) then [c]
    else var b := c as int % 256; ['%', HexDigit(b / 16), HexDigit(b % 16)]
  }

  /** The parameter value percent-encoded as in section 4 of RFC 2231, byte by byte. */
  function PercentEncode(s: string): string
  {
    Concat(seq(|s|, i requires 0 <= i < |s| => EncodeByte(s[i])))
  }

  /** "; charset=..." in the form the value calls for. */
  function FormatCharset(value: string): string
  {
    if NeedsEncoding(value) then "; charset*=utf-8''" + PercentEncode(value)
    else if IsToken(value) then "; charset=" + value
    else "; charset=\"" + Quote(value) + "\""
  }

  /** mime.FormatMediaType(t, map[string]string{"charset": charset}). */
  function FormatMediaType(t: string, charset: string): (r: string)
  {
    match FormatType(t)
    case None => ""
    case Some(typ) => typ + FormatCharset(charset)
  }

  /** A type made of two tokens and a token charset gives "major/sub; charset=cs",
      with the type lower-cased and the charset verbatim. */
  lemma TokenMediaType(major: string, sub: string, charset: string)
    requires IsToken(major) && IsToken(sub) && IsToken(charset)
    ensures FormatMediaType(major + "/" + sub, charset)
         == ToLower(major) + "/" + ToLower(sub) + "; charset=" + charset
  {
    var t := major + "/" + sub;
    assert '/' !in major by {
      forall i | 0 <= i < |major| ensures major[i] != '/' {
        assert IsTokenChar(major[i]);
      }
    }
    assert t[|major|] == '/';
    assert t[..|major|] == major;
    assert t[|major| + 1..] == sub;
    assert !NeedsEncoding(charset) by {
      forall i | 0 <= i < |charset| ensures !((charset[i] as int < 0x20 || charset[i] as int > 0x7E) && charset[i] != '\t') {
        assert IsTokenChar(charset[i]);
      }
    }
  }

  /** A string with a ';' anywhere is not a media type. */
  lemma SemicolonIsNotAType(r: string, p: nat)
    requires p < |r| && r[p] == ';'
    ensures FormatType(r).None?
  {
    assert !IsTokenChar(r[p]);
    match IndexOf(r, '/')
    case None =>
      assert !IsToken(r);
    case Some(k) =>
      if p < k {
        assert r[..k][p] == ';';
        assert !IsToken(r[..k]);
      } else {
        assert r[k + 1..][p - k - 1] == ';';
        assert !IsToken(r[k + 1..]);
      }
  }

  /** Every non-empty result holds a ';', which no token may contain, so a
      formatted media type is not itself a valid type: formatting it again gives "". */
  lemma FormattedIsNotAType(t: string, charset: string)
    requires FormatMediaType(t, charset) != ""
    ensures FormatMediaType(FormatMediaType(t, charset), charset) == ""
  {
    var typ := FormatType(t).value;
    var tail := FormatCharset(charset);
    assert tail[0] == ';';
    var r := typ + tail;
    assert r == FormatMediaType(t, charset);
    assert r[|typ|] == ';';
    SemicolonIsNotAType(r, |typ|);
  }

  /** A character of a lower-case media-type word. */
  predicate LowerWordChar(c: char) {
    'a' <= c <= 'z' || '0' <= c <= '9' || c == '-'
  }

  /** A word of lower-case letters, digits and dashes is a token that ToLower
      leaves as it is. */
  lemma LowerWord(w: string)
    requires w != []
    requires forall c :: c in w ==> LowerWordChar(c)
    ensures IsToken(w) && ToLower(w) == w
  {
    assert forall i :: 0 <= i < |w| ==> w[i] in w;
  }
}
