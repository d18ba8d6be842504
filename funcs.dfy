// tmpl/funcs.go: the two string functions of DefaultFuncs with logic of their
// own, nl2br and toHTML, over strings of bytes.
module TmplFuncs {

  import opened GoStrings

  /** template.HTML: content a template inserts without escaping it again. */
  datatype HTML = HTML(content: string)

  /** What template.HTMLEscapeString writes for one byte: the five HTML
      specials become entities and NUL becomes U+FFFD, in UTF-8. */
  function EscapeByte(c: char): (r: string)
    ensures r == [c] <==> (c != '"' && c != '\'' && c != '&' && c != '<' && c != '>' && c != 0 as char)
    ensures '\n' in r <==> c == '\n'
  {
    if c == '"' then "&#34;"
    else if c == '\'' then "&#39;"
    else if c == '&' then "&amp;"
    else if c == '<' then "&lt;"
    else if c == '>' then "&gt;"
    else if c == 0 as char then [0xEF as char, 0xBF as char, 0xBD as char]
    else [c]
  }

  /** template.HTMLEscapeString, byte by byte. */
  function HTMLEscape(s: string): string
  {
    if s == [] then [] else EscapeByte(s[0]) + HTMLEscape(s[1..])
  }

  /** The nl2br function: "\r\n" normalised to "\n", the result HTML-escaped,
      and then every "\n" replaced by "<br>". */
  function Nl2br(text: string): HTML
  {
    var normalised := ReplaceAll(text, "\r\n", "\n");
    var escaped := HTMLEscape(normalised);
    HTML(ReplaceAll(escaped, "\n", "<br>"))
  }

  /** The toHTML function: the same bytes, marked as safe HTML. */
  function ToHTML(s: string): (r: HTML)
    ensures r.content == s
  {
    HTML(s)
  }

  /** An independent reading of nl2br as one left-to-right scan: a line break,
      either "\r\n" or "\n", becomes "<br>", and any other byte is escaped. */
  function Scan(s: string): string
    decreases |s|
  {
    if s == [] then []
    else if |s| >= 2 && s[..2] == "\r\n" then "<br>" + Scan(s[2..])
    else if s[0] == '\n' then "<br>" + Scan(s[1..])
    else EscapeByte(s[0]) + Scan(s[1..])
  }

  lemma {:induction false} EscapeAppend(a: string, b: string)
    ensures HTMLEscape(a + b) == HTMLEscape(a) + HTMLEscape(b)
  {
    if a == [] {
      assert a + b == b;
    } else {
      assert (a + b)[1..] == a[1..] + b;
      EscapeAppend(a[1..], b);
    }
  }

  lemma {:induction false} BreakAppend(a: string, b: string)
    ensures ReplaceAll(a + b, "\n", "<br>") == ReplaceAll(a, "\n", "<br>") + ReplaceAll(b, "\n", "<br>")
  {
    if a == [] {
      assert a + b == b;
    } else {
      assert (a + b)[1..] == a[1..] + b;
      assert (a + b)[..1] == a[..1];
      BreakAppend(a[1..], b);
    }
  }

  lemma {:induction false} BreakNoNewline(t: string)
    requires '\n' !in t
    ensures ReplaceAll(t, "\n", "<br>") == t
  {
    if t != [] {
      assert t[..1] == [t[0]];
      BreakNoNewline(t[1..]);
    }
  }

  /** nl2br and the scan agree on every input. */
  lemma {:induction false} Nl2brIsScan(s: string)
    ensures Nl2br(s).content == Scan(s)
    decreases |s|
  {
    var n := ReplaceAll(s, "\r\n", "\n");
    if s == [] {
    } else if |s| >= 2 && s[..2] == "\r\n" {
      var rest := ReplaceAll(s[2..], "\r\n", "\n");
      assert n == "\n" + rest;
      assert HTMLEscape(n) == "\n" + HTMLEscape(rest) by {
        assert n[1..] == rest;
      }
      var e := HTMLEscape(rest);
      assert ("\n" + e)[..1] == "\n" && ("\n" + e)[1..] == e;
      Nl2brIsScan(s[2..]);
    } else {
      var rest := ReplaceAll(s[1..], "\r\n", "\n");
      assert n == [s[0]] + rest by {
        if |s| == 1 {
          assert s[1..] == [];
        }
      }
      assert HTMLEscape(n) == EscapeByte(s[0]) + HTMLEscape(rest) by {
        assert n[1..] == rest;
      }
      BreakAppend(EscapeByte(s[0]), HTMLEscape(rest));
      if s[0] == '\n' {
        assert ReplaceAll("\n", "\n", "<br>") == "<br>" + ReplaceAll("", "\n", "<br>");
      } else {
        BreakNoNewline(EscapeByte(s[0]));
      }
      Nl2brIsScan(s[1..]);
    }
  }

  lemma {:induction false} ScanNoNewline(s: string)
    ensures '\n' !in Scan(s)
    decreases |s|
  {
    if s == [] {
    } else if |s| >= 2 && s[..2] == "\r\n" {
      ScanNoNewline(s[2..]);
    } else {
      ScanNoNewline(s[1..]);
    }
  }

  /** No line feed survives nl2br. */
  lemma NoNewlineInOutput(s: string)
    ensures '\n' !in Nl2br(s).content
  {
    Nl2brIsScan(s);
    ScanNoNewline(s);
  }

  /** Both line endings become one "<br>", in the middle of any text. */
  lemma LineBreaks(a: string, b: string)
    requires a == [] || a[|a| - 1] != '\r'
    ensures Nl2br(a + "\n" + b).content == Nl2br(a).content + "<br>" + Nl2br(b).content
    ensures Nl2br(a + "\r\n" + b).content == Nl2br(a).content + "<br>" + Nl2br(b).content
  {
    Nl2brIsScan(a);
    Nl2brIsScan(b);
    ScanBreak(a, "\n", b);
    ScanBreak(a, "\r\n", b);
    Nl2brIsScan(a + "\n" + b);
    Nl2brIsScan(a + "\r\n" + b);
  }

  lemma ScanBreak(a: string, br: string, b: string)
    requires br == "\n" || br == "\r\n"
    requires a == [] || a[|a| - 1] != '\r'
    ensures Scan(a + br + b) == Scan(a) + "<br>" + Scan(b)
  {
    assert a + br + b == a + (br + b);
    ScanAppend(a, br + b);
    var t := br + b;
    if br == "\n" {
      assert t[0] == '\n' && t[1..] == b;
      assert !(|t| >= 2 && t[..2] == "\r\n");
    } else {
      assert t[..2] == "\r\n" && t[2..] == b;
    }
  }

  /** The scan of a concatenation, unless it splits a "\r\n". */
  lemma {:induction false} ScanAppend(a: string, b: string)
    requires a == [] || b == [] || a[|a| - 1] != '\r' || b[0] != '\n'
    ensures Scan(a + b) == Scan(a) + Scan(b)
    decreases |a|
  {
    var s := a + b;
    if a == [] {
      assert s == b;
    } else if |a| >= 2 && a[..2] == "\r\n" {
      assert s[..2] == "\r\n" && s[2..] == a[2..] + b;
      ScanAppend(a[2..], b);
    } else if |a| == 1 {
      assert s[0] == a[0] && s[1..] == b;
      assert a[1..] == [];
      if b != [] {
        assert s[..2] == [a[0], b[0]];
      }
    } else {
      assert s[..2] == a[..2] && s[1..] == a[1..] + b;
      ScanAppend(a[1..], b);
    }
  }

  /** Escaping comes first, so the brackets of markup in the text arrive as entities. */
  lemma EscapesMarkup(a: string, b: string)
    ensures Nl2br(a + "<" + b).content == Nl2br(a).content + "&lt;" + Nl2br(b).content
    ensures Nl2br(a + ">" + b).content == Nl2br(a).content + "&gt;" + Nl2br(b).content
  {
    Nl2brIsScan(a);
    Nl2brIsScan(b);
    Nl2brIsScan(a + "<" + b);
    Nl2brIsScan(a + ">" + b);
    ScanByte(a, '<', b);
    ScanByte(a, '>', b);
  }

  /** A byte other than a line break is escaped on its own, wherever it stands. */
  lemma ScanByte(a: string, c: char, b: string)
    requires c != '\r' && c != '\n'
    ensures Scan(a + [c] + b) == Scan(a) + EscapeByte(c) + Scan(b)
  {
    ScanAppend(a + [c], b);
    ScanAppend(a, [c]);
    assert [c][1..] == [];
  }

  /** Text with no line break and no byte that needs escaping is returned unchanged. */
  lemma {:induction false} PlainTextUnchanged(s: string)
    requires forall i :: 0 <= i < |s| ==> EscapeByte(s[i]) == [s[i]] && s[i] != '\n' && s[i] != '\r'
    ensures Nl2br(s).content == s
  {
    Nl2brIsScan(s);
    ScanPlain(s);
  }

  lemma {:induction false} ScanPlain(s: string)
    requires forall i :: 0 <= i < |s| ==> EscapeByte(s[i]) == [s[i]] && s[i] != '\n' && s[i] != '\r'
    ensures Scan(s) == s
  {
    if s != [] {
      assert s[0] != '\r';
      ScanPlain(s[1..]);
    }
  }
}
