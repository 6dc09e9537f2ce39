/**
 * The two string operations the submission guard uses: `str::trim`, which
 * strips leading and trailing characters with the Unicode White_Space
 * property, and `str::len`, which counts the UTF-8 bytes of a string (not
 * its characters).
 */
module Text {

  /** Rust's `char::is_whitespace`: the Unicode White_Space property. */
  predicate IsWhitespace(c: char) {
    var n := c as int;
    (0x09 <= n <= 0x0D) || n == 0x20 || n == 0x85 || n == 0xA0 || n == 0x1680 ||
    (0x2000 <= n <= 0x200A) || n == 0x2028 || n == 0x2029 || n == 0x202F ||
    n == 0x205F || n == 0x3000
  }

  function TrimStart(s: string): (t: string)
    ensures |t| <= |s|
  {
    if |s| > 0 && IsWhitespace(s[0]) then TrimStart(s[1..]) else s
  }

  function TrimEnd(s: string): (t: string)
    ensures |t| <= |s|
  {
    if |s| > 0 && IsWhitespace(s[|s| - 1]) then TrimEnd(s[..|s| - 1]) else s
  }

  /** `str::trim`. */
  function Trim(s: string): (t: string)
    ensures |t| <= |s|
  {
    TrimEnd(TrimStart(s))
  }

  /** Number of bytes in the UTF-8 encoding of one character. */
  function Utf8Width(c: char): (w: nat)
    ensures 1 <= w <= 4
    ensures w == 1 <==> (c as int) < 0x80
  {
    var n := c as int;
    if n < 0x80 then 1 else if n < 0x800 then 2 else if n < 0x10000 then 3 else 4
  }

  /** `str::len`: the byte length of the UTF-8 encoding. */
  function Utf8Len(s: string): (n: nat)
    ensures n == 0 <==> s == []
  {
    if s == [] then 0 else Utf8Width(s[0]) + Utf8Len(s[1..])
  }

  /** Every character takes one to four bytes. */
  lemma {:induction false} Utf8LenBounds(s: string)
    ensures |s| <= Utf8Len(s) <= 4 * |s|
  {
    if s != [] {
      Utf8LenBounds(s[1..]);
    }
  }

  /** `TrimStart` drops a whitespace-only prefix and stops at the first
      other character. */
  lemma {:induction false} TrimStartShape(s: string)
    ensures var t := TrimStart(s); var k := |s| - |t|;
      |t| <= |s| && t == s[k..] &&
      (forall j | 0 <= j < k :: IsWhitespace(s[j])) &&
      (t != [] ==> !IsWhitespace(t[0]))
  {
    if |s| > 0 && IsWhitespace(s[0]) {
      TrimStartShape(s[1..]);
      var t := TrimStart(s[1..]);
      var k := |s| - |t|;
      forall j | 0 <= j < k ensures IsWhitespace(s[j]) {
        if j > 0 { assert s[j] == s[1..][j - 1]; }
      }
      assert s[1..][k - 1..] == s[k..];
    }
  }

  /** `TrimEnd` drops a whitespace-only suffix and stops at the last other
      character. */
  lemma {:induction false} TrimEndShape(s: string)
    ensures var t := TrimEnd(s);
      |t| <= |s| && t == s[..|t|] &&
      (forall j | |t| <= j < |s| :: IsWhitespace(s[j])) &&
      (t != [] ==> !IsWhitespace(t[|t| - 1]))
  {
    if |s| > 0 && IsWhitespace(s[|s| - 1]) {
      var u := s[..|s| - 1];
      TrimEndShape(u);
      var t := TrimEnd(u);
      forall j | |t| <= j < |s| ensures IsWhitespace(s[j]) {
        if j < |s| - 1 { assert s[j] == u[j]; }
      }
      assert u[..|t|] == s[..|t|];
    }
  }

  /** The trimmed string is a contiguous piece `s[a..b]` of the input with
      only whitespace outside it, and it neither starts nor ends with
      whitespace. */
  lemma TrimShape(s: string) returns (a: nat, b: nat)
    ensures a <= b <= |s| && Trim(s) == s[a..b]
    ensures forall j | 0 <= j < a :: IsWhitespace(s[j])
    ensures forall j | b <= j < |s| :: IsWhitespace(s[j])
    ensures Trim(s) != [] ==> !IsWhitespace(Trim(s)[0]) && !IsWhitespace(Trim(s)[|Trim(s)| - 1])
  {
    TrimStartShape(s);
    var u := TrimStart(s);
    TrimEndShape(u);
    var t := TrimEnd(u);
    a := |s| - |u|;
    b := a + |t|;
    assert s[a..][..|t|] == s[a..b];
    forall j | b <= j < |s| ensures IsWhitespace(s[j]) {
      assert s[j] == u[j - a];
    }
    if t != [] {
      assert t[0] == u[0];
    }
  }

  /** Trimming twice is trimming once. */
  lemma TrimIdempotent(s: string)
    ensures Trim(Trim(s)) == Trim(s)
  {
    var t := Trim(s);
    if t != [] {
      var a, b := TrimShape(s);
      assert !IsWhitespace(t[0]) && !IsWhitespace(t[|t| - 1]);
      assert TrimStart(t) == t;
      assert TrimEnd(t) == t;
    }
  }

  /** The trimmed string is empty exactly when the input is all whitespace. */
  lemma TrimEmptyIff(s: string)
    ensures Trim(s) == [] <==> forall j | 0 <= j < |s| :: IsWhitespace(s[j])
  {
    var a, b := TrimShape(s);
  }

  /** The submission guard: the trimmed prompt is longer than one byte. A
      submittable prompt is never blank. */
  predicate Submittable(pmt: string)
    ensures Submittable(pmt) ==> Trim(pmt) != []
  {
    Utf8Len(Trim(pmt)) > 1
  }

  /** The submission guard holds exactly when the trimmed text has at least
      two characters, or is one character outside ASCII (which takes two or
      more bytes). */
  lemma SubmittableIff(s: string)
    ensures Submittable(s) <==>
      (|Trim(s)| >= 2 || (|Trim(s)| == 1 && Trim(s)[0] as int >= 0x80))
  {
  }
}
