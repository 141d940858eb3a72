// Small helpers shared by the content-script and background models:
// an Option type for JavaScript's null, and the few string and number
// operations the source uses (indexOf, includes, Math.abs, Math.min).

module Common {

  /** A JavaScript value that may be null (None). */
  datatype Option<+T> = None | Some(value: T)

  function Min(a: int, b: int): (m: int)
    ensures m <= a && m <= b
    ensures m == a || m == b
  {
    if a <= b then a else b
  }

  /** Math.abs on the real numbers that stand for playback positions. */
  function Abs(x: real): (r: real)
    ensures r >= 0.0
    ensures r == x || r == -x
  {
    if x < 0.0 then -x else x
  }

  /** String.prototype.indexOf for a single character: the first position of c, or -1. */
  function IndexOfChar(s: string, c: char): (r: int)
    ensures -1 <= r < |s|
    ensures r == -1 <==> c !in s
    ensures r >= 0 ==> s[r] == c && c !in s[..r]
  {
    if s == [] then -1
    else if s[0] == c then 0
    else
      var k := IndexOfChar(s[1..], c);
      assert k >= 0 ==> s[..k + 1] == [s[0]] + s[1..][..k];
      if k == -1 then -1 else k + 1
  }

  /** String.prototype.includes: sub occurs somewhere in s. */
  predicate Contains(s: string, sub: string)
  {
    sub <= s || (s != [] && Contains(s[1..], sub))
  }

  /** String.prototype.indexOf for a substring: the first position where pat starts, or -1. */
  function IndexOf(s: string, pat: string): int
  {
    if pat <= s then 0
    else if s == [] then -1
    else
      var k := IndexOf(s[1..], pat);
      if k == -1 then -1 else k + 1
  }

  /** indexOf answers -1 exactly when includes is false, and otherwise the first match. */
  lemma {:induction false} IndexOfFindsFirst(s: string, pat: string)
    ensures -1 <= IndexOf(s, pat) <= |s|
    ensures IndexOf(s, pat) == -1 <==> !Contains(s, pat)
    ensures IndexOf(s, pat) >= 0 ==> IndexOf(s, pat) + |pat| <= |s| && pat <= s[IndexOf(s, pat)..]
    ensures IndexOf(s, pat) >= 0 ==> forall j :: 0 <= j < IndexOf(s, pat) ==> !(pat <= s[j..])
  {
    if !(pat <= s) && s != [] {
      IndexOfFindsFirst(s[1..], pat);
      var k := IndexOf(s[1..], pat);
      if k != -1 {
        assert s[k + 1..] == s[1..][k..];
        assert forall j :: 1 <= j < k + 1 ==> s[j..] == s[1..][j - 1..];
      }
    }
  }

  /** String.prototype.replace with a string pattern: only the first occurrence is replaced. */
  function ReplaceFirst(s: string, pat: string, rep: string): (r: string)
    ensures !Contains(s, pat) ==> r == s
    ensures Contains(s, pat) ==> |r| == |s| - |pat| + |rep|
    ensures Contains(s, pat) ==>
              var i := IndexOf(s, pat);
              0 <= i <= |s| - |pat| && pat <= s[i..] && (forall j :: 0 <= j < i ==> !(pat <= s[j..])) &&
              r == s[..i] + rep + s[i + |pat|..]
  {
    IndexOfFindsFirst(s, pat);
    var i := IndexOf(s, pat);
    if i == -1 then s else s[..i] + rep + s[i + |pat|..]
  }
}
