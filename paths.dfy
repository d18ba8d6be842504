// The lexical path functions the loaders call, for '/'-separated paths as
// path/filepath treats them on a system whose separator is '/' (and as the
// `path` package always does): Clean, a two-element Join and ToSlash.
module Paths {

  import opened GoStrings

  /** The '/'-separated pieces of s, empty ones included: "a//b" has the
      pieces "a", "" and "b"; "" has the one piece "". */
  function Split(s: string): (r: seq<string>)
    ensures |r| >= 1
  {
    SplitFrom(s, "")
  }

  /** The pieces of `s` when `piece` has already been read of the first one. */
  function SplitFrom(s: string, piece: string): (r: seq<string>)
    ensures |r| >= 1
  {
    if s == [] then [piece]
    else if s[0] == '/' then [piece] + SplitFrom(s[1..], "")
    else SplitFrom(s[1..], piece + [s[0]])
  }

  lemma {:induction false} SplitFromAppend(a: string, piece: string, b: string)
    ensures SplitFrom(a + "/" + b, piece) == SplitFrom(a, piece) + Split(b)
  {
    var s := a + "/" + b;
    if a == [] {
      assert s == "/" + b && s[1..] == b;
    } else {
      assert s[1..] == a[1..] + "/" + b;
      if a[0] == '/' {
        SplitFromAppend(a[1..], "", b);
      } else {
        SplitFromAppend(a[1..], piece + [a[0]], b);
      }
    }
  }

  lemma SplitAppend(a: string, b: string)
    ensures Split(a + "/" + b) == Split(a) + Split(b)
  {
    SplitFromAppend(a, "", b);
  }

  /** A name without '/' is one piece. */
  lemma SplitWord(w: string)
    requires forall i :: 0 <= i < |w| ==> w[i] != '/'
    ensures Split(w) == [w]
  {
    WordFrom(w, "");
    assert "" + w == w;
  }

  lemma {:induction false} WordFrom(w: string, piece: string)
    requires forall i :: 0 <= i < |w| ==> w[i] != '/'
    ensures SplitFrom(w, piece) == [piece + w]
  {
    if w == [] {
      assert piece + w == piece;
    } else {
      WordFrom(w[1..], piece + [w[0]]);
      assert (piece + [w[0]]) + w[1..] == piece + w;
    }
  }

  /** One element of a path, as Clean processes it: empty elements and "."
      disappear, ".." removes the element before it, and at the start of a
      rooted path ".." disappears too. */
  function Push(rooted: bool, stack: seq<string>, e: string): seq<string>
  {
    if e == "" || e == "." then stack
    else if e == ".." then
      if stack != [] && stack[|stack| - 1] != ".." then stack[..|stack| - 1]
      else if rooted then stack
      else stack + [".."]
    else stack + [e]
  }

  function Normalize(rooted: bool, stack: seq<string>, es: seq<string>): seq<string>
    decreases es
  {
    if es == [] then stack else Normalize(rooted, Push(rooted, stack, es[0]), es[1..])
  }

  lemma {:induction false} NormalizeAppend(rooted: bool, stack: seq<string>, a: seq<string>, b: seq<string>)
    ensures Normalize(rooted, stack, a + b) == Normalize(rooted, Normalize(rooted, stack, a), b)
    decreases a
  {
    if a == [] {
      assert a + b == b;
    } else {
      assert (a + b)[1..] == a[1..] + b;
      NormalizeAppend(rooted, Push(rooted, stack, a[0]), a[1..], b);
    }
  }

  /** A cleaned path: whether it starts with '/', and its elements. */
  datatype PathForm = PathForm(rooted: bool, elems: seq<string>)

  function Parse(s: string): PathForm
  {
    var rooted := s != [] && s[0] == '/';
    PathForm(rooted, Normalize(rooted, [], Split(s)))
  }

  /** The string of a cleaned path; "." stands for the empty relative path. */
  function Render(p: PathForm): string
  {
    if p.rooted then "/" + Join(p.elems, "/")
    else if p.elems == [] then "."
    else Join(p.elems, "/")
  }

  /** filepath.Clean (the same as path.Clean for '/'-separated paths). */
  function Clean(s: string): string
  {
    Render(Parse(s))
  }

  /** filepath.Join and path.Join of two elements: the non-empty tail of the
      list joined by '/' and cleaned, or "" when both are empty. */
  function JoinPath(a: string, b: string): string
  {
    if a != "" then Clean(a + "/" + b) else if b != "" then Clean(b) else ""
  }

  /** filepath.ToSlash: each occurrence of the system's separator becomes '/'. */
  function ToSlash(s: string, separator: char): (r: string)
    ensures |r| == |s|
    ensures forall i :: 0 <= i < |s| ==> r[i] == (if s[i] == separator then '/' else s[i])
  {
    seq(|s|, i requires 0 <= i < |s| => if s[i] == separator then '/' else s[i])
  }

  /** With '/' as the system's separator ToSlash changes nothing. */
  lemma ToSlashOnSlashSystem(s: string)
    ensures ToSlash(s, '/') == s
  {
  }

  /** Elements that never climb: none is "..". */
  predicate NoDotDot(es: seq<string>)
  {
    forall i :: 0 <= i < |es| ==> es[i] != ".."
  }

  /** The elements Clean keeps of a path without "..": the non-empty ones other than ".". */
  function Kept(es: seq<string>): seq<string>
  {
    if es == [] then [] else (if es[0] == "" || es[0] == "." then [] else [es[0]]) + Kept(es[1..])
  }

  /** Without "..", cleaning only drops empty and "." elements: whatever was
      already collected stays, and the kept elements follow it. */
  lemma {:induction false} NormalizeNoDotDot(rooted: bool, stack: seq<string>, es: seq<string>)
    requires NoDotDot(es)
    ensures Normalize(rooted, stack, es) == stack + Kept(es)
    ensures NoDotDot(Kept(es))
    decreases es
  {
    if es != [] {
      assert es[0] != "..";
      NormalizeNoDotDot(rooted, Push(rooted, stack, es[0]), es[1..]);
      var k := if es[0] == "" || es[0] == "." then [] else [es[0]];
      assert Kept(es) == k + Kept(es[1..]);
      assert stack + Kept(es) == (stack + k) + Kept(es[1..]);
    }
  }

  /** A plain path element: not empty, not "." or "..", and without '/'. */
  predicate Word(w: string)
  {
    w != "" && w != "." && w != ".." && forall i :: 0 <= i < |w| ==> w[i] != '/'
  }

  /** Joining words with '/' splits back into the words. */
  lemma {:induction false} SplitJoinWords(ws: seq<string>)
    requires ws != [] && forall i :: 0 <= i < |ws| ==> Word(ws[i])
    ensures Split(Join(ws, "/")) == ws
  {
    SplitWord(ws[0]);
    if |ws| > 1 {
      SplitJoinWords(ws[1..]);
      SplitAppend(ws[0], Join(ws[1..], "/"));
      assert ws == [ws[0]] + ws[1..];
    }
  }

  /** Words are kept as they are by cleaning. */
  lemma {:induction false} NormalizeWords(rooted: bool, stack: seq<string>, ws: seq<string>)
    requires forall i :: 0 <= i < |ws| ==> Word(ws[i])
    ensures Normalize(rooted, stack, ws) == stack + ws
    decreases ws
  {
    if ws == [] {
      assert stack + ws == stack;
    } else {
      NormalizeWords(rooted, stack + [ws[0]], ws[1..]);
      assert stack + ws == (stack + [ws[0]]) + ws[1..];
    }
  }

  /** A rooted path of words is already clean. */
  lemma CleanRootedWords(ws: seq<string>)
    requires ws != [] && forall i :: 0 <= i < |ws| ==> Word(ws[i])
    ensures Parse("/" + Join(ws, "/")) == PathForm(true, ws)
    ensures Clean("/" + Join(ws, "/")) == "/" + Join(ws, "/")
  {
    var s := "/" + Join(ws, "/");
    assert s == "" + "/" + Join(ws, "/");
    SplitAppend("", Join(ws, "/"));
    SplitJoinWords(ws);
    assert Split("") == [""];
    NormalizeWords(true, [], ws);
  }

  /** A path of words starts with its first word, not with '/'. */
  lemma JoinStart(ws: seq<string>)
    requires ws != [] && forall i :: 0 <= i < |ws| ==> Word(ws[i])
    ensures Join(ws, "/") != [] && Join(ws, "/")[0] != '/'
  {
    var j := Join(ws, "/");
    assert Word(ws[0]);
    if |ws| > 1 {
      assert j == ws[0] + "/" + Join(ws[1..], "/");
    }
    assert j[..|ws[0]|] == ws[0];
    assert j[0] == ws[0][0];
  }
  /** A relative path of words is already clean. */
  lemma CleanRelativeWords(ws: seq<string>)
    requires ws != [] && forall i :: 0 <= i < |ws| ==> Word(ws[i])
    ensures Parse(Join(ws, "/")) == PathForm(false, ws)
    ensures Clean(Join(ws, "/")) == Join(ws, "/")
  {
    JoinStart(ws);
    SplitJoinWords(ws);
    NormalizeWords(false, [], ws);
    assert Parse(Join(ws, "/")) == PathForm(false, ws);
    assert Render(PathForm(false, ws)) == Join(ws, "/");
  }
}
