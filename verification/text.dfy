/** String operations of the two runtimes the program is written for. */
module Text {

  /** Characters that Python's `str.strip` removes. */
  predicate PyBlank(c: char) {
    var u := c as int;
    || 0x09 <= u <= 0x0d || 0x1c <= u <= 0x20 || u == 0x85 || u == 0xa0 || u == 0x1680
    || 0x2000 <= u <= 0x200a || u == 0x2028 || u == 0x2029 || u == 0x202f || u == 0x205f || u == 0x3000
  }

  /** Characters that JavaScript's `trim` removes. */
  predicate JsBlank(c: char) {
    var u := c as int;
    || 0x09 <= u <= 0x0d || u == 0x20 || u == 0xa0 || u == 0x1680
    || 0x2000 <= u <= 0x200a || u == 0x2028 || u == 0x2029 || u == 0x202f || u == 0x205f || u == 0x3000
    || u == 0xfeff
  }

  /** The two runtimes agree on blanks but for five characters of Python's and one of JavaScript's. */
  lemma BlanksDiffer(c: char)
    ensures PyBlank(c) && !JsBlank(c) <==> c as int in [0x1c, 0x1d, 0x1e, 0x1f, 0x85]
    ensures JsBlank(c) && !PyBlank(c) <==> c as int == 0xfeff
    ensures c in " \t\n\r" ==> PyBlank(c) && JsBlank(c)
    ensures 0x21 <= c as int <= 0x7e ==> !PyBlank(c) && !JsBlank(c)
  {
  }

  function TrimStart(s: string, blank: char -> bool): string {
    if s != [] && blank(s[0]) then TrimStart(s[1..], blank) else s
  }

  function TrimEnd(s: string, blank: char -> bool): string {
    if s != [] && blank(s[|s| - 1]) then TrimEnd(s[..|s| - 1], blank) else s
  }

  function Trim(s: string, blank: char -> bool): string {
    TrimEnd(TrimStart(s, blank), blank)
  }

  predicate At(s: string, i: int, sub: string) {
    0 <= i && i + |sub| <= |s| && s[i..i + |sub|] == sub
  }

  predicate Contains(s: string, sub: string) {
    exists i :: 0 <= i <= |s| && At(s, i, sub)
  }

  function LowerChar(c: char): char {
    if 'A' <= c <= 'Z' then (c as int + 32) as char else c
  }

  function Lower(s: string): (r: string)
    ensures |r| == |s|
    ensures forall i :: 0 <= i < |s| ==> r[i] == LowerChar(s[i])
  {
    seq(|s|, i requires 0 <= i < |s| => LowerChar(s[i]))
  }

  predicate Prefixed(s: string, p: string) {
    At(s, 0, p)
  }

  /* ---------- splitting at a separator ---------- */

  /** The first position where `sep` stands in `s`, or |s| when there is none. */
  function Find(s: string, sep: string): (k: nat)
    requires sep != ""
    ensures k <= |s|
    ensures k < |s| ==> At(s, k, sep)
    ensures k == |s| ==> forall i :: !At(s, i, sep)
    ensures forall i :: 0 <= i < k ==> !At(s, i, sep)
  {
    if s == "" then 0
    else if At(s, 0, sep) then 0
    else
      var k := Find(s[1..], sep);
      assert forall i :: 1 <= i <= |s| ==> (At(s, i, sep) <==> At(s[1..], i - 1, sep)) by {
        forall i | 1 <= i <= |s| ensures At(s, i, sep) <==> At(s[1..], i - 1, sep) {
          if i + |sep| <= |s| {
            assert s[1..][i - 1..i - 1 + |sep|] == s[i..i + |sep|];
          }
        }
      }
      k + 1
  }

  /** `s.split(sep)`: the pieces between the separators, found from the left. */
  function Split(s: string, sep: string): (pieces: seq<string>)
    requires sep != ""
    ensures pieces != []
    decreases |s|
  {
    var k := Find(s, sep);
    if k == |s| then [s] else [s[..k]] + Split(s[k + |sep|..], sep)
  }

  function Join(pieces: seq<string>, sep: string): string {
    if pieces == [] then ""
    else if |pieces| == 1 then pieces[0]
    else pieces[0] + sep + Join(pieces[1..], sep)
  }

  /** A piece that holds no separator is split off whole. */
  lemma SplitFirst(piece: string, sep: string, rest: string)
    requires sep != ""
    requires Find(piece + sep + rest, sep) == |piece|
    ensures Split(piece + sep + rest, sep) == [piece] + Split(rest, sep)
  {
    var s := piece + sep + rest;
    assert s[..|piece|] == piece;
    assert s[|piece| + |sep|..] == rest;
    assert |piece| < |s|;
  }
}
