/** Character classes and string helpers shared by the Python backend and
    the JavaScript front end. Case mapping is modelled on ASCII letters only;
    the two languages' whitespace sets are modelled exactly. */
module Text {

  predicate IsUpper(c: char) { 'A' <= c <= 'Z' }
  predicate IsLower(c: char) { 'a' <= c <= 'z' }
  predicate IsDigit(c: char) { '0' <= c <= '9' }

  /** Characters below U+0080, on which the ASCII case mapping agrees with
      Python's and JavaScript's full Unicode one. */
  predicate IsAscii(c: char) { c as int < 0x80 }

  /** The regular-expression class `[a-zA-Z0-9]`. */
  predicate IsAlnum(c: char) { IsUpper(c) || IsLower(c) || IsDigit(c) }

  /** Spaces that Unicode places in category Zs (other than U+0020) or that
      separate lines or paragraphs; both languages treat these as white. */
  predicate IsUnicodeSpace(c: char) {
    var n := c as int;
    n == 0xA0 || n == 0x1680 || 0x2000 <= n <= 0x200A || n == 0x2028 ||
    n == 0x2029 || n == 0x202F || n == 0x205F || n == 0x3000
  }

  /** Python's `str.isspace`, which is also what `\s` and `\S` match in a
      `re` pattern over `str` and what `str.strip()` removes: besides the
      usual ASCII white space it includes the separators U+001C..U+001F and
      U+0085. */
  predicate IsPySpace(c: char) {
    var n := c as int;
    n == 0x20 || 0x09 <= n <= 0x0D || 0x1C <= n <= 0x1F || n == 0x85 || IsUnicodeSpace(c)
  }

  /** The white space and line terminators that JavaScript's
      `String.prototype.trim` removes (it has U+FEFF, and not U+001C..U+001F). */
  predicate IsJsSpace(c: char) {
    var n := c as int;
    n == 0x20 || 0x09 <= n <= 0x0D || n == 0xFEFF || IsUnicodeSpace(c)
  }

  function ToLower(c: char): (d: char)
    ensures !IsUpper(d)
  {
    if IsUpper(c) then (c as int + 32) as char else c
  }

  function ToUpper(c: char): (d: char)
    ensures !IsLower(d)
  {
    if IsLower(c) then (c as int - 32) as char else c
  }

  /** `str.lower()` / `String.prototype.toLowerCase()` on ASCII letters. */
  function Lower(s: string): (r: string)
    ensures |r| == |s|
    ensures forall i :: 0 <= i < |s| ==> r[i] == ToLower(s[i])
  {
    seq(|s|, i requires 0 <= i < |s| => ToLower(s[i]))
  }

  /** `String.prototype.toUpperCase()` on ASCII letters. */
  function Upper(s: string): (r: string)
    ensures |r| == |s|
    ensures forall i :: 0 <= i < |s| ==> r[i] == ToUpper(s[i])
  {
    seq(|s|, i requires 0 <= i < |s| => ToUpper(s[i]))
  }

  lemma LowerIdempotent(s: string)
    ensures Lower(Lower(s)) == Lower(s)
  {
  }

  lemma LowerUpper(s: string)
    ensures Lower(Upper(s)) == Lower(s)
  {
  }

  /** JavaScript's `trim`, in two halves. */
  function TrimStart(s: string): (r: string)
    ensures |r| <= |s|
    ensures r == [] || !IsJsSpace(r[0])
    ensures forall i :: 0 <= i < |s| - |r| ==> IsJsSpace(s[i])
  {
    if s != [] && IsJsSpace(s[0]) then TrimStart(s[1..]) else s
  }

  function TrimEnd(s: string): (r: string)
    ensures |r| <= |s|
    ensures r != [] ==> r[0] == s[0]
    ensures r == [] || !IsJsSpace(r[|r| - 1])
    ensures forall i :: |r| <= i < |s| ==> IsJsSpace(s[i])
  {
    if s != [] && IsJsSpace(s[|s| - 1]) then TrimEnd(s[..|s| - 1]) else s
  }

  function Trim(s: string): (r: string)
    ensures |r| <= |s|
    ensures r == [] || (!IsJsSpace(r[0]) && !IsJsSpace(r[|r| - 1]))
  {
    TrimEnd(TrimStart(s))
  }

  /** TrimStart keeps a suffix of its argument, TrimEnd a prefix. */
  lemma {:induction false} TrimStartSuffix(s: string)
    ensures TrimStart(s) == s[|s| - |TrimStart(s)|..]
  {
    if s != [] && IsJsSpace(s[0]) {
      TrimStartSuffix(s[1..]);
    }
  }

  lemma {:induction false} TrimEndPrefix(s: string)
    ensures TrimEnd(s) == s[..|TrimEnd(s)|]
  {
    if s != [] && IsJsSpace(s[|s| - 1]) {
      TrimEndPrefix(s[..|s| - 1]);
    }
  }

  /** `!s.trim()`: the string is empty or all white space. */
  predicate IsBlank(s: string) {
    Trim(s) == ""
  }

  lemma {:induction false} BlankIffAllSpace(s: string)
    ensures IsBlank(s) <==> forall i :: 0 <= i < |s| ==> IsJsSpace(s[i])
  {
    var t := TrimStart(s);
    if forall i :: 0 <= i < |s| ==> IsJsSpace(s[i]) {
      AllSpaceTrimsAway(s);
    } else {
      var k :| 0 <= k < |s| && !IsJsSpace(s[k]);
      assert |s| - |t| <= k;
      assert t != [];
      assert !IsJsSpace(t[0]);
      assert TrimEnd(t) != [];
    }
  }

  lemma {:induction false} AllSpaceTrimsAway(s: string)
    requires forall i :: 0 <= i < |s| ==> IsJsSpace(s[i])
    ensures TrimStart(s) == []
  {
    if s != [] {
      AllSpaceTrimsAway(s[1..]);
    }
  }

  /** JavaScript's `s.includes(sub)`. */
  predicate Contains(s: string, sub: string) {
    exists i :: 0 <= i <= |s| - |sub| && sub <= s[i..]
  }

  /** JavaScript's `s.startsWith(prefix)`. */
  predicate StartsWith(s: string, prefix: string) {
    prefix <= s
  }

  /** Trimming and lower-casing commute, since no white-space character is an
      ASCII letter. */
  lemma {:induction false} TrimLowerCommute(s: string)
    ensures Trim(Lower(s)) == Lower(Trim(s))
  {
    TrimStartLower(s);
    TrimEndLower(TrimStart(s));
  }

  lemma {:induction false} TrimStartLower(s: string)
    ensures TrimStart(Lower(s)) == Lower(TrimStart(s))
    decreases |s|
  {
    if s == [] {
    } else if IsJsSpace(s[0]) {
      assert Lower(s)[0] == s[0];
      assert Lower(s)[1..] == Lower(s[1..]);
      TrimStartLower(s[1..]);
    } else {
      assert !IsJsSpace(Lower(s)[0]);
    }
  }

  lemma {:induction false} TrimEndLower(s: string)
    ensures TrimEnd(Lower(s)) == Lower(TrimEnd(s))
    decreases |s|
  {
    if s != [] {
      var lowered, front := Lower(s), s[..|s| - 1];
      var c := s[|s| - 1];
      LowerKeepsSpace(c);
      assert lowered[|s| - 1] == ToLower(c);
      if IsJsSpace(c) {
        assert lowered[..|s| - 1] == Lower(front);
        TrimEndLower(front);
      }
    }
  }

  /** Lower-casing neither creates nor removes white space. */
  lemma LowerKeepsSpace(c: char)
    ensures IsJsSpace(ToLower(c)) == IsJsSpace(c)
  {
  }

  lemma TrimIdempotent(s: string)
    ensures Trim(Trim(s)) == Trim(s)
  {
    var r := Trim(s);
    assert TrimStart(r) == r;
    assert TrimEnd(r) == r;
  }
}
