/** String and path operations with the meaning Python gives them. */
module Text {

  /** `c.isspace()` in Python: the characters `str.strip()` removes. */
  predicate IsSpace(c: char) {
    ('\t' <= c <= '\r') || ('\U{1C}' <= c <= ' ') || c == '\U{85}' || c == '\U{A0}'
    || c == '\U{1680}' || ('\U{2000}' <= c <= '\U{200A}') || c == '\U{2028}' || c == '\U{2029}'
    || c == '\U{202F}' || c == '\U{205F}' || c == '\U{3000}'
  }

  /** `s.strip() == ""`: the string holds whitespace only (or nothing). */
  predicate IsBlank(s: string) {
    forall i | 0 <= i < |s| :: IsSpace(s[i])
  }

  lemma BlankConcat(a: string, b: string)
    ensures IsBlank(a + b) <==> IsBlank(a) && IsBlank(b)
  {
    if IsBlank(a + b) {
      forall i | 0 <= i < |a| ensures IsSpace(a[i]) { assert a[i] == (a + b)[i]; }
      forall i | 0 <= i < |b| ensures IsSpace(b[i]) { assert b[i] == (a + b)[|a| + i]; }
    }
  }

  /** `"\n".join(xs)`. */
  function JoinLines(xs: seq<string>): string {
    if xs == [] then "" else if |xs| == 1 then xs[0] else xs[0] + "\n" + JoinLines(xs[1..])
  }

  /** The joined text is blank exactly when every joined piece is: the
      separator is itself whitespace. */
  lemma {:induction false} JoinLinesBlank(xs: seq<string>)
    ensures IsBlank(JoinLines(xs)) <==> forall i | 0 <= i < |xs| :: IsBlank(xs[i])
  {
    if |xs| > 1 {
      JoinLinesBlank(xs[1..]);
      BlankConcat(xs[0] + "\n", JoinLines(xs[1..]));
      BlankConcat(xs[0], "\n");
      assert forall i | 1 <= i < |xs| :: xs[i] == xs[1..][i - 1];
    }
  }

  /** The joined text starts with the first piece, so it is empty only when
      there is nothing to join or the single piece is empty. */
  lemma JoinLinesEmpty(xs: seq<string>)
    ensures JoinLines(xs) == "" <==> xs == [] || (|xs| == 1 && xs[0] == "")
  {
  }

  /** `posixpath.basename(p)`: the longest suffix of `p` without a '/'. */
  function Basename(p: string): (b: string)
    ensures |b| <= |p| && b == p[|p| - |b|..]
    ensures '/' !in b
    ensures |b| == |p| || p[|p| - |b| - 1] == '/'
  {
    if p == "" || p[|p| - 1] == '/' then "" else Basename(p[..|p| - 1]) + [p[|p| - 1]]
  }

  /** A path that is a directory part ending in '/' (or nothing) followed by a
      name without '/' has that name as its basename. */
  lemma BasenameAfterSlash(dir: string, name: string)
    requires dir == "" || dir[|dir| - 1] == '/'
    requires '/' !in name
    ensures Basename(dir + name) == name
  {
    var p := dir + name;
    var b := Basename(p);
    assert p[|p| - |name|..] == name;
  }

  /** `posixpath.join(a, b)` for two components. */
  function PathJoin(a: string, b: string): string {
    if |b| > 0 && b[0] == '/' then b
    else if a == "" || a[|a| - 1] == '/' then a + b
    else a + "/" + b
  }

  /** Joining a directory and a file name without '/' yields a path whose
      basename is that file name. */
  lemma {:induction false} BasenameOfJoin(dir: string, name: string)
    requires '/' !in name
    ensures Basename(PathJoin(dir, name)) == name
  {
    if dir == "" || dir[|dir| - 1] == '/' {
      BasenameAfterSlash(dir, name);
    } else {
      BasenameAfterSlash(dir + "/", name);
      assert dir + "/" + name == (dir + "/") + name;
    }
  }

  /** The position of the first occurrence of `c` in `s`, or -1 when there is
      none, as Python's `s.find(c)` gives it; used to read the quoted title
      back out of an arXiv query. */
  function FindFirst(s: string, c: char): (k: int)
    ensures -1 <= k < |s|
    ensures k == -1 <==> c !in s
    ensures k >= 0 ==> s[k] == c && c !in s[..k]
  {
    if s == [] then -1
    else if s[0] == c then 0
    else
      var k := FindFirst(s[1..], c);
      if k == -1 then -1 else k + 1
  }

  /** A position holding `c` with no `c` before it is the one FindFirst finds. */
  lemma {:induction false} FindFirstAt(s: string, c: char, k: nat)
    requires k < |s| && s[k] == c && c !in s[..k]
    ensures FindFirst(s, c) == k
  {
    if k > 0 {
      assert s[0] == s[..k][0];
      assert s[1..][..k - 1] == s[..k][1..];
      FindFirstAt(s[1..], c, k - 1);
    }
  }

  /** In a quote-free text followed by a quote and a tail, the first quote
      ends the text and the tail follows it. */
  lemma FindQuoteEnd(t: string, tail: string)
    requires '"' !in t
    ensures var rest := t + ("\"" + tail);
      FindFirst(rest, '"') == |t| && rest[..|t|] == t && rest[|t| + 1..] == tail
  {
    var rest := t + ("\"" + tail);
    assert rest[..|t|] == t;
    FindFirstAt(rest, '"', |t|);
  }
}
