/** Fixed-width integers and the string operations of the .NET and Rust
    standard libraries that the core relies on: whitespace trimming,
    replacing every occurrence of a literal, and UTF-8 byte length. */
module Primitives {

  type byte = b: int | 0 <= b < 0x100
  type u16 = n: int | 0 <= n < 0x1_0000
  type u32 = n: int | 0 <= n < 0x1_0000_0000

  /** The Unicode White_Space characters. .NET's Char.IsWhiteSpace (used by
      String.Trim) and Rust's char::is_whitespace (used by str::trim) accept
      exactly this set. */
  predicate IsWhiteSpace(c: char) {
    ('\t' <= c <= '\r') || c == ' ' || c == '\U{0085}' || c == '\U{00A0}'
    || c == '\U{1680}' || ('\U{2000}' <= c <= '\U{200A}') || c == '\U{2028}'
    || c == '\U{2029}' || c == '\U{202F}' || c == '\U{205F}' || c == '\U{3000}'
  }

  predicate AllWhiteSpace(s: string) {
    forall i :: 0 <= i < |s| ==> IsWhiteSpace(s[i])
  }

  /** Drops the longest whitespace prefix. */
  function TrimStart(s: string): (r: string)
    ensures |r| <= |s| && r == s[|s| - |r|..]
    ensures AllWhiteSpace(s[..|s| - |r|])
    ensures r != [] ==> !IsWhiteSpace(r[0])
  {
    if s != [] && IsWhiteSpace(s[0]) then
      var t := TrimStart(s[1..]);
      assert forall i :: 1 <= i < |s| - |t| ==> s[i] == s[1..][..|s| - 1 - |t|][i - 1];
      t
    else
      s
  }

  /** Drops the longest whitespace suffix. */
  function TrimEnd(s: string): (r: string)
    ensures |r| <= |s| && r == s[..|r|]
    ensures AllWhiteSpace(s[|r|..])
    ensures r != [] ==> !IsWhiteSpace(r[|r| - 1])
  {
    if s != [] && IsWhiteSpace(s[|s| - 1]) then
      var t := TrimEnd(s[..|s| - 1]);
      assert forall i :: |t| <= i < |s| - 1 ==> s[i] == s[..|s| - 1][|t|..][i - |t|];
      t
    else
      s
  }

  lemma AllWhiteSpaceSplit(s: string, k: nat)
    requires k <= |s|
    ensures AllWhiteSpace(s) <==> AllWhiteSpace(s[..k]) && AllWhiteSpace(s[k..])
  {
    if AllWhiteSpace(s[..k]) && AllWhiteSpace(s[k..]) {
      forall i | 0 <= i < |s| ensures IsWhiteSpace(s[i]) {
        if i < k { assert s[i] == s[..k][i]; } else { assert s[i] == s[k..][i - k]; }
      }
    }
  }

  /** What Trim needs from trimming the start and then the end: nothing is
      left exactly when `s` is all whitespace, and what is left starts with
      a non-whitespace character. */
  lemma TrimStartThenEnd(s: string)
    ensures TrimEnd(TrimStart(s)) == [] <==> AllWhiteSpace(s)
    ensures TrimEnd(TrimStart(s)) != [] ==> !IsWhiteSpace(TrimEnd(TrimStart(s))[0])
  {
    var t := TrimStart(s);
    var r := TrimEnd(t);
    if r == [] {
      assert t[|r|..] == t;
      AllWhiteSpaceSplit(s, |s| - |t|);
    } else {
      assert r[0] == t[0] == s[|s| - |t|];
    }
  }

  /** String.Trim() in .NET and str::trim in Rust: the part of `s` between
      its leading and its trailing whitespace. */
  function Trim(s: string): (r: string)
    ensures r == [] <==> AllWhiteSpace(s)
    ensures r != [] ==> !IsWhiteSpace(r[0]) && !IsWhiteSpace(r[|r| - 1])
    ensures |r| <= |s|
  {
    TrimStartThenEnd(s);
    TrimEnd(TrimStart(s))
  }

  lemma TrimIdempotent(s: string)
    ensures Trim(Trim(s)) == Trim(s)
  {
    var r := Trim(s);
    if r != [] {
      assert TrimStart(r) == r;
      assert TrimEnd(r) == r;
    }
  }

  /** A text beginning with a non-whitespace character trims to a text
      beginning with that character. */
  lemma TrimKeepsFirst(s: string)
    requires s != [] && !IsWhiteSpace(s[0])
    ensures Trim(s) != [] && Trim(s)[0] == s[0]
  {
    assert TrimStart(s) == s;
    assert !AllWhiteSpace(s);
  }

  /** No trimmed string starts or ends with whitespace. */
  lemma TrimmedIsNeverPadded(s: string, k: string)
    requires k != [] && (IsWhiteSpace(k[0]) || IsWhiteSpace(k[|k| - 1]))
    ensures Trim(s) != k
  {
    var r := Trim(s);
    if r != [] && |r| == |k| {
      assert r[0] != k[0] || r[|r| - 1] != k[|k| - 1];
    }
  }

  /** Concatenation regroups freely. */
  lemma ConcatAssociative<X>(x: seq<X>, y: seq<X>, z: seq<X>)
    ensures x + (y + z) == (x + y) + z
  {
  }

  /** `s` has an occurrence of `pat` starting at its first character. */
  predicate StartsWith(s: string, pat: string) {
    |pat| <= |s| && s[..|pat|] == pat
  }

  /** `s` has an occurrence of `pat` somewhere. */
  predicate Contains(s: string, pat: string) {
    StartsWith(s, pat) || (s != [] && Contains(s[1..], pat))
  }

  /** String.Replace(pat, "") in .NET: every occurrence of `pat` found in one
      left-to-right scan is removed; the scan resumes after each removed
      occurrence, so the result may still contain `pat`. */
  function RemoveAll(s: string, pat: string): (r: string)
    requires pat != []
    ensures |r| <= |s|
    ensures !Contains(s, pat) ==> r == s
    decreases |s|
  {
    if |s| < |pat| then s
    else if StartsWith(s, pat) then RemoveAll(s[|pat|..], pat)
    else [s[0]] + RemoveAll(s[1..], pat)
  }

  /** A removed occurrence leaves nothing behind. */
  lemma RemoveAllLeadingOccurrence(pat: string, s: string)
    requires pat != []
    ensures RemoveAll(pat + s, pat) == RemoveAll(s, pat)
  {
    assert (pat + s)[|pat|..] == s;
    assert StartsWith(pat + s, pat);
  }

  /** One scan is not enough to remove every occurrence. */
  lemma RemoveAllLeavesNewOccurrence()
    ensures RemoveAll("ddata:ata:", "data:") == "data:"
  {
    var s := "ddata:ata:";
    assert !StartsWith(s, "data:");
    assert StartsWith(s[1..], "data:");
    assert s[1..][5..] == "ata:";
    assert RemoveAll("ata:", "data:") == "ata:";
  }

  /** Number of bytes of the UTF-8 encoding of `c`. */
  function Utf8Width(c: char): (n: nat)
    ensures 1 <= n <= 4
    ensures n == 1 <==> (c as int) < 0x80
  {
    if (c as int) < 0x80 then 1
    else if (c as int) < 0x800 then 2
    else if (c as int) < 0x1_0000 then 3
    else 4
  }

  /** Rust's str::len: the number of bytes of the UTF-8 encoding. */
  function Utf8Length(s: string): (n: nat)
    ensures |s| <= n <= 4 * |s|
  {
    if s == [] then 0 else Utf8Width(s[0]) + Utf8Length(s[1..])
  }

  predicate IsAscii(s: string) {
    forall i :: 0 <= i < |s| ==> (s[i] as int) < 0x80
  }

  /** For ASCII text the byte length is the character count. */
  lemma {:induction false} AsciiUtf8Length(s: string)
    requires IsAscii(s)
    ensures Utf8Length(s) == |s|
  {
    if s != [] {
      assert IsAscii(s[1..]) by {
        forall i | 0 <= i < |s| - 1 ensures (s[1..][i] as int) < 0x80 {
          assert s[1..][i] == s[i + 1];
        }
      }
      AsciiUtf8Length(s[1..]);
    }
  }
}
