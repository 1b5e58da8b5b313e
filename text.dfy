/** The few Python `str` operations the core relies on. Whitespace and splitting follow Python's
    own rules; upper-casing is modelled for ASCII letters only (Python's `str.upper` also maps
    other letters, such as 'ſ' to 'S', which this model leaves unchanged). */
module Text {
  import opened Errors

  /** `c.isspace()`: the characters Python treats as whitespace. */
  predicate IsPySpace(c: char) {
    var n := c as int;
    n == 0x20 || (0x09 <= n <= 0x0D) || (0x1C <= n <= 0x1F) || n == 0x85 || n == 0xA0
    || n == 0x1680 || (0x2000 <= n <= 0x200A) || n == 0x2028 || n == 0x2029
    || n == 0x202F || n == 0x205F || n == 0x3000
  }

  /** `not s.strip()`: the string holds nothing but whitespace (or nothing at all). */
  predicate IsBlank(s: string) {
    forall i :: 0 <= i < |s| ==> IsPySpace(s[i])
  }

  /** `s.isspace()`: non-empty and nothing but whitespace. */
  predicate IsSpace(s: string) {
    |s| > 0 && IsBlank(s)
  }

  /** `s.upper()` restricted to ASCII: 'a'..'z' become 'A'..'Z', every other character stays. */
  function Upper(s: string): (r: string)
    ensures |r| == |s|
    ensures forall i :: 0 <= i < |s| ==> r[i] == UpperChar(s[i])
  {
    if s == [] then [] else [UpperChar(s[0])] + Upper(s[1..])
  }

  /** Upper-casing, stated character by character. */
  lemma UpperEach(s: string, r: string)
    requires |r| == |s| && forall i :: 0 <= i < |s| ==> r[i] == UpperChar(s[i])
    ensures Upper(s) == r
  {
  }

  function UpperChar(c: char): char {
    if 'a' <= c <= 'z' then (c as int - 32) as char else c
  }

  /** `s.replace(c, "")`. */
  function Remove(s: string, c: char): (r: string)
    ensures |r| <= |s|
    ensures c !in r
    ensures forall x :: x in r <==> x in s && x != c
  {
    if s == [] then [] else (if s[0] == c then [] else [s[0]]) + Remove(s[1..], c)
  }

  /** `s.split(sep)` for a one-character separator: the pieces between separators. */
  function Split(s: string, sep: char): (r: seq<string>)
    ensures |r| >= 1
    ensures forall i :: 0 <= i < |r| ==> sep !in r[i]
  {
    SplitFrom(s, sep, [])
  }

  function SplitFrom(s: string, sep: char, cur: string): (r: seq<string>)
    requires sep !in cur
    ensures |r| >= 1
    ensures forall i :: 0 <= i < |r| ==> sep !in r[i]
  {
    if s == [] then [cur]
    else if s[0] == sep then [cur] + SplitFrom(s[1..], sep, [])
    else SplitFrom(s[1..], sep, cur + [s[0]])
  }

  /** `sep.join(parts)`. */
  function Join(parts: seq<string>, sep: string): string {
    if parts == [] then [] else if |parts| == 1 then parts[0] else parts[0] + sep + Join(parts[1..], sep)
  }

  /** Joining the pieces of a split with the separator gives back the string. */
  lemma {:induction false} JoinSplit(s: string, sep: char)
    ensures Join(Split(s, sep), [sep]) == s
  {
    JoinSplitFrom(s, sep, []);
  }

  lemma {:induction false} JoinSplitFrom(s: string, sep: char, cur: string)
    requires sep !in cur
    ensures Join(SplitFrom(s, sep, cur), [sep]) == cur + s
  {
    if s == [] {
    } else if s[0] == sep {
      JoinSplitFrom(s[1..], sep, []);
      assert cur + s == cur + [sep] + s[1..];
    } else {
      JoinSplitFrom(s[1..], sep, cur + [s[0]]);
      assert cur + s == cur + [s[0]] + s[1..];
    }
  }

  /** `s.split()`: the maximal runs of non-whitespace characters, in order. */
  function Words(s: string): (r: seq<string>)
    ensures forall i :: 0 <= i < |r| ==> |r[i]| > 0 && forall j :: 0 <= j < |r[i]| ==> !IsPySpace(r[i][j])
  {
    WordsFrom(s, [])
  }

  function WordsFrom(s: string, cur: string): (r: seq<string>)
    requires forall j :: 0 <= j < |cur| ==> !IsPySpace(cur[j])
    ensures forall i :: 0 <= i < |r| ==> |r[i]| > 0 && forall j :: 0 <= j < |r[i]| ==> !IsPySpace(r[i][j])
  {
    if s == [] then (if cur == [] then [] else [cur])
    else if IsPySpace(s[0]) then (if cur == [] then [] else [cur]) + WordsFrom(s[1..], [])
    else WordsFrom(s[1..], cur + [s[0]])
  }

  /** `int(c)` of a single character: its value when it is a decimal digit. */
  function DigitValue(c: char): (r: Option<nat>)
    ensures r.Some? <==> '0' <= c <= '9'
    ensures r.Some? ==> r.value < 10 && r.value as int + '0' as int == c as int
  {
    if '0' <= c <= '9' then Some(c as int - '0' as int) else None
  }

  /** The first index at which `x` occurs in `s` (`s.index(x)`), when it occurs. */
  function IndexOf<T(==)>(s: seq<T>, x: T): (r: Option<nat>)
    ensures r.Some? <==> x in s
    ensures r.Some? ==> r.value < |s| && s[r.value] == x && x !in s[..r.value]
  {
    if s == [] then None
    else if s[0] == x then Some(0)
    else match IndexOf(s[1..], x)
      case None => None
      case Some(k) => assert s[1..][..k] == s[1..k+1]; Some(k + 1)
  }

  /** `s[i:j]` for non-negative bounds: both are clamped to the length, an empty slice when
      they cross. */
  function Slice(s: string, i: nat, j: nat): (r: string)
    ensures |r| <= |s| && (i <= j <= |s| ==> r == s[i..j])
    ensures i >= |s| || j <= i ==> r == ""
  {
    var lo := if i < |s| then i else |s|;
    var hi := if j < |s| then j else |s|;
    if hi <= lo then "" else s[lo..hi]
  }

  /** `sub in s`. */
  predicate Contains(s: string, sub: string) {
    |sub| <= |s| && (s[..|sub|] == sub || Contains(s[1..], sub))
  }

  /** `[s[i:i + n] for i in range(0, len(s), n)]`: consecutive cells of `n` characters, the last
      one possibly shorter. */
  function Chunks(s: string, n: nat): (r: seq<string>)
    requires n > 0
    ensures s == [] <==> r == []
    ensures forall k :: 0 <= k < |r| ==> 0 < |r[k]| <= n
    ensures forall k :: 0 <= k < |r| - 1 ==> |r[k]| == n
    decreases |s|
  {
    if s == [] then []
    else if |s| <= n then [s]
    else [s[..n]] + Chunks(s[n..], n)
  }

  /** The cells put back together give the text again. */
  lemma {:induction false} ChunksJoin(s: string, n: nat)
    requires n > 0
    ensures Join(Chunks(s, n), "") == s
    decreases |s|
  {
    if |s| > n {
      ChunksJoin(s[n..], n);
      var c := Chunks(s, n);
      assert c[0] == s[..n] && c[1..] == Chunks(s[n..], n);
      if |c| > 1 {
        assert Join(c, "") == c[0] + "" + Join(c[1..], "");
      }
    }
  }

  /** `str(n)` of a non-negative Python `int`: its decimal digits, without leading zeros. */
  function NatToString(n: nat): (r: string)
    ensures |r| >= 1 && forall i :: 0 <= i < |r| ==> '0' <= r[i] <= '9'
    ensures n < 10 <==> |r| == 1
  {
    var d := ['0' + (n % 10) as char];
    if n < 10 then d else NatToString(n / 10) + d
  }

  /** `str(i)` of a Python `int`: a minus sign before the digits of a negative number. */
  function IntToString(i: int): (r: string)
    ensures |r| >= 1 && (r[0] == '-' <==> i < 0)
  {
    if i < 0 then "-" + NatToString(-i) else NatToString(i)
  }

  /** A number from 0 to 9 prints as its one digit. */
  lemma DigitString(i: int)
    requires 0 <= i < 10
    ensures IntToString(i) == ['0' + i as char]
  {
  }
}
