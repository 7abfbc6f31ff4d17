/** The backend's text normaliser `clean_text`: lower-case, delete links,
    delete special characters, collapse white space and strip. Each regular
    expression pass is written out as a recursive function over the string. */
module Preprocess {
  import opened Text

  // ---------------------------------------------------------------------
  // Pass 2: re.sub(r"http\S+", "", text)
  // ---------------------------------------------------------------------

  /** A match of `http\S+` starts at index `k` of `s`: the four letters and at
      least one non-white character after them. */
  predicate LinkAt(s: string, k: nat) {
    k + 5 <= |s| && s[k] == 'h' && s[k + 1] == 't' && s[k + 2] == 't' && s[k + 3] == 'p' &&
    !IsPySpace(s[k + 4])
  }

  /** No match of `http\S+` starts anywhere in `s`. */
  predicate LinkFree(s: string) {
    forall k :: 0 <= k < |s| ==> !LinkAt(s, k)
  }

  /** Every character of `s` satisfies `P`. */
  predicate All(s: string, P: char -> bool) {
    forall i :: 0 <= i < |s| ==> P(s[i])
  }

  /** Length of the leading run of non-white characters (how far the greedy
      `\S+` reaches). */
  function RunLength(s: string): (n: nat)
    ensures n <= |s|
    ensures forall k :: 0 <= k < n ==> !IsPySpace(s[k])
    ensures n < |s| ==> IsPySpace(s[n])
  {
    if s == [] || IsPySpace(s[0]) then 0 else 1 + RunLength(s[1..])
  }

  /** Scans left to right; where a link starts, the whole run up to the next
      white-space character is deleted, otherwise one character is kept. */
  function StripLinks(s: string): (r: string)
    ensures |r| <= |s|
    decreases |s|
  {
    if s == [] then []
    else if LinkAt(s, 0) then StripLinks(s[RunLength(s)..])
    else [s[0]] + StripLinks(s[1..])
  }

  // ---------------------------------------------------------------------
  // Pass 3: re.sub(r"[^a-zA-Z0-9\s]", "", text)
  // ---------------------------------------------------------------------

  /** Keeps exactly the ASCII letters, digits and white-space characters, in order. */
  function RemoveSpecials(s: string): (r: string)
    ensures |r| <= |s|
  {
    if s == [] then []
    else (if IsAlnum(s[0]) || IsPySpace(s[0]) then [s[0]] else []) + RemoveSpecials(s[1..])
  }

  // ---------------------------------------------------------------------
  // Pass 4: re.sub(r"\s+", " ", text).strip()
  // ---------------------------------------------------------------------

  /** Replaces every maximal white-space run by one space: a run is dropped
      with the same step that strips the front of the text. */
  function Collapse(s: string): (r: string)
    ensures |r| <= |s|
    ensures forall i :: 0 <= i < |r| ==> IsPySpace(r[i]) ==> r[i] == ' '
    ensures forall i :: 0 <= i < |r| - 1 ==> !(IsPySpace(r[i]) && IsPySpace(r[i + 1]))
    ensures (r != [] && IsPySpace(r[0])) <==> (s != [] && IsPySpace(s[0]))
    decreases |s|
  {
    if s == [] then []
    else if IsPySpace(s[0]) then [' '] + Collapse(StripStart(s))
    else [s[0]] + Collapse(s[1..])
  }

  /** Python's `str.strip()`, in two halves. StripStart drops the leading
      white-space run. */
  function StripStart(s: string): (r: string)
    ensures |r| <= |s|
    ensures r == [] || !IsPySpace(r[0])
  {
    if s != [] && IsPySpace(s[0]) then StripStart(s[1..]) else s
  }

  function StripEnd(s: string): (r: string)
    ensures |r| <= |s|
    ensures r != [] ==> r[0] == s[0]
    ensures r == [] || !IsPySpace(r[|r| - 1])
  {
    if s != [] && IsPySpace(s[|s| - 1]) then StripEnd(s[..|s| - 1]) else s
  }

  function Strip(s: string): (r: string)
    ensures |r| <= |s|
    ensures r == [] || (!IsPySpace(r[0]) && !IsPySpace(r[|r| - 1]))
  {
    StripEnd(StripStart(s))
  }

  // ---------------------------------------------------------------------
  // The pipeline
  // ---------------------------------------------------------------------

  /** The shape `clean_text` promises: only lower-case ASCII letters, digits
      and spaces, no space at either end and never two spaces in a row. */
  predicate Normalized(r: string)
    ensures Normalized(r) ==> forall i :: 0 <= i < |r| ==> !IsUpper(r[i]) && (IsPySpace(r[i]) ==> r[i] == ' ')
  {
    && (forall i :: 0 <= i < |r| ==> IsLower(r[i]) || IsDigit(r[i]) || r[i] == ' ')
    && (r == [] || (r[0] != ' ' && r[|r| - 1] != ' '))
    && (forall i :: 0 <= i < |r| - 1 ==> !(r[i] == ' ' && r[i + 1] == ' '))
  }

  /** `clean_text`: the four passes in order. */
  function CleanText(s: string): (r: string)
    ensures |r| <= |s|
  {
    Strip(Collapse(RemoveSpecials(StripLinks(Lower(s)))))
  }

  /** Whatever the input, the cleaned text is normalized. */
  lemma CleanTextNormalized(s: string)
    ensures Normalized(CleanText(s))
  {
    var collapsed := Collapse(RemoveSpecials(StripLinks(Lower(s))));
    CollapsedChars(s, collapsed);
    StripNormalizes(collapsed);
  }

  /** After the first three passes and collapsing, only lower-case letters,
      digits and single spaces remain. */
  lemma CollapsedChars(s: string, c: string)
    requires c == Collapse(RemoveSpecials(StripLinks(Lower(s))))
    ensures forall i :: 0 <= i < |c| ==> IsLower(c[i]) || IsDigit(c[i]) || c[i] == ' '
  {
    var lowered := Lower(s);
    var noLinks := StripLinks(lowered);
    var filtered := RemoveSpecials(noLinks);
    assert All(lowered, c => !IsUpper(c));
    StripLinksKeeps(lowered, c => !IsUpper(c));
    RemoveSpecialsKeeps(noLinks, c => !IsUpper(c));
    RemoveSpecialsOnlyKept(noLinks);
    assert All(filtered, c => !IsUpper(c) && (IsAlnum(c) || IsPySpace(c)));
    CollapseKeeps(filtered, c => !IsUpper(c) && (IsAlnum(c) || IsPySpace(c)));
  }

  /** Stripping a collapsed string of letters, digits and spaces normalizes it. */
  lemma StripNormalizes(c: string)
    requires forall i :: 0 <= i < |c| ==> IsLower(c[i]) || IsDigit(c[i]) || c[i] == ' '
    requires forall i :: 0 <= i < |c| - 1 ==> !(IsPySpace(c[i]) && IsPySpace(c[i + 1]))
    ensures Normalized(Strip(c))
  {
    var r := Strip(c);
    StripSlice(c);
    var a := |c| - |StripStart(c)|;
    assert IsPySpace(' ');
    forall i | 0 <= i < |r|
      ensures r[i] == c[a + i]
      ensures IsLower(r[i]) || IsDigit(r[i]) || r[i] == ' '
    {
    }
    forall i | 0 <= i < |r| - 1 ensures !(r[i] == ' ' && r[i + 1] == ' ') {
      assert r[i] == c[a + i] && r[i + 1] == c[a + i + 1];
    }
  }

  /** Text that neither starts nor ends with white space is left alone. */
  lemma StripUnchanged(s: string)
    requires s == [] || (!IsPySpace(s[0]) && !IsPySpace(s[|s| - 1]))
    ensures Strip(s) == s
  {
  }

  /** The leading white space is exactly the first `n` characters. */
  lemma {:induction false} StripStartIs(s: string, n: nat)
    requires n <= |s|
    requires forall k :: 0 <= k < n ==> IsPySpace(s[k])
    requires n < |s| ==> !IsPySpace(s[n])
    ensures StripStart(s) == s[n..]
  {
    if n > 0 {
      StripStartIs(s[1..], n - 1);
      assert s[1..][n - 1..] == s[n..];
    }
  }

  /** Strip returns a contiguous piece of its argument. */
  lemma StripSlice(s: string)
    ensures var a := |s| - |StripStart(s)|;
      a + |Strip(s)| <= |s| && Strip(s) == s[a..a + |Strip(s)|]
  {
    StripStartSuffix(s);
    StripEndPrefix(StripStart(s));
  }

  /** What StripStart keeps is a suffix of its argument. */
  lemma {:induction false} StripStartSuffix(s: string)
    ensures StripStart(s) == s[|s| - |StripStart(s)|..]
  {
    if s != [] && IsPySpace(s[0]) {
      StripStartSuffix(s[1..]);
    }
  }

  /** What StripEnd keeps is a prefix of its argument. */
  lemma {:induction false} StripEndPrefix(s: string)
    ensures StripEnd(s) == s[..|StripEnd(s)|]
  {
    if s != [] && IsPySpace(s[|s| - 1]) {
      StripEndPrefix(s[..|s| - 1]);
    }
  }

  // ---------------------------------------------------------------------
  // Properties
  // ---------------------------------------------------------------------

  /** Deleting a link never creates one: the result of the link pass
      contains no match of `http\S+`. */
  lemma {:induction false} StripLinksLinkFree(s: string)
    ensures LinkFree(StripLinks(s))
    decreases |s|
  {
    if s == [] {
    } else if LinkAt(s, 0) {
      StripLinksLinkFree(s[RunLength(s)..]);
    } else {
      StripLinksLinkFree(s[1..]);
      NoLinkAtKeptFirst(s);
      LinkFreeCons(s[0], StripLinks(s[1..]));
    }
  }

  /** Putting a character in front of link-free text creates a link only at
      the front. */
  lemma LinkFreeCons(c: char, rest: string)
    requires LinkFree(rest) && !LinkAt([c] + rest, 0)
    ensures LinkFree([c] + rest)
  {
    var r := [c] + rest;
    forall k | 1 <= k < |r| ensures !LinkAt(r, k) {
      assert !LinkAt(rest, k - 1);
    }
  }

  /** When no link starts at the front of the input, none starts at the
      front of the output either. */
  lemma NoLinkAtKeptFirst(s: string)
    requires s != [] && !LinkAt(s, 0)
    ensures !LinkAt([s[0]] + StripLinks(s[1..]), 0)
  {
    var rest := StripLinks(s[1..]);
    if |rest| >= 4 && forall i :: 0 <= i < 4 ==> !IsPySpace(rest[i]) {
      StripLinksPrefix(s[1..], 4);
      assert rest[..4] == s[1..][..4];
      assert forall i :: 0 <= i < 4 ==> rest[i] == s[i + 1];
    }
  }

  /** Where the link pass keeps a non-white first character, it kept the
      input's first character and no link started there. */
  lemma StripLinksFirst(t: string)
    ensures StripLinks(t) != [] && !IsPySpace(StripLinks(t)[0]) ==>
      !LinkAt(t, 0) && StripLinks(t)[0] == t[0]
  {
    if t != [] && LinkAt(t, 0) {
      var u := t[RunLength(t)..];
      if u != [] {
        assert IsPySpace(u[0]);
        assert !LinkAt(u, 0);
        assert StripLinks(u)[0] == u[0];
      }
    }
  }

  /** A non-white prefix of the link pass's output is a prefix of its input. */
  lemma {:induction false} StripLinksPrefix(t: string, m: nat)
    requires m <= |StripLinks(t)|
    requires forall i :: 0 <= i < m ==> !IsPySpace(StripLinks(t)[i])
    ensures m <= |t| && StripLinks(t)[..m] == t[..m]
    decreases m
  {
    if m > 0 {
      var r := StripLinks(t);
      StripLinksFirst(t);
      var rest := StripLinks(t[1..]);
      assert r == [t[0]] + rest;
      forall i | 0 <= i < m - 1 ensures !IsPySpace(rest[i]) {
        assert rest[i] == r[i + 1];
      }
      StripLinksPrefix(t[1..], m - 1);
      assert r[..m] == [t[0]] + rest[..m - 1];
      assert t[..m] == [t[0]] + t[1..][..m - 1];
    }
  }

  /** The link pass changes nothing in a string without links. */
  lemma {:induction false} StripLinksFixpoint(s: string)
    requires LinkFree(s)
    ensures StripLinks(s) == s
  {
    if s != [] {
      assert !LinkAt(s, 0);
      assert LinkFree(s[1..]) by {
        forall k | 0 <= k < |s| - 1 ensures !LinkAt(s[1..], k) {
          assert !LinkAt(s, k + 1);
        }
      }
      StripLinksFixpoint(s[1..]);
    }
  }

  /** Hence the link pass on its own is idempotent. */
  lemma StripLinksIdempotent(s: string)
    ensures StripLinks(StripLinks(s)) == StripLinks(s)
  {
    StripLinksLinkFree(s);
    StripLinksFixpoint(StripLinks(s));
  }

  // ---------------------------------------------------------------------
  // What the link pass deletes, position by position
  // ---------------------------------------------------------------------

  /** Position `i` of `s` lies inside a match of `http\S+`: it is not white
      space, and a match starts there or position `i - 1` lies inside one.
      InLinkIff restates this without recursion. */
  predicate InLink(s: string, i: nat)
    requires i < |s|
    decreases i
  {
    !IsPySpace(s[i]) && (LinkAt(s, i) || (i > 0 && InLink(s, i - 1)))
  }

  /** A position lies inside a match exactly when a link starts at some
      `k <= i` and no white character lies between `k` and `i`. */
  lemma {:induction false} InLinkIff(s: string, i: nat)
    requires i < |s|
    ensures InLink(s, i) <==>
      exists k :: 0 <= k <= i && LinkAt(s, k) && (forall j :: k <= j <= i ==> !IsPySpace(s[j]))
    decreases i
  {
    if InLink(s, i) {
      InLinkWitness(s, i);
    }
    if exists k :: 0 <= k <= i && LinkAt(s, k) && (forall j :: k <= j <= i ==> !IsPySpace(s[j])) {
      var k :| 0 <= k <= i && LinkAt(s, k) && (forall j :: k <= j <= i ==> !IsPySpace(s[j]));
      InLinkFrom(s, k, i);
    }
  }

  lemma {:induction false} InLinkWitness(s: string, i: nat)
    requires i < |s| && InLink(s, i)
    ensures exists k :: 0 <= k <= i && LinkAt(s, k) && (forall j :: k <= j <= i ==> !IsPySpace(s[j]))
    decreases i
  {
    if !LinkAt(s, i) {
      InLinkWitness(s, i - 1);
      var k :| 0 <= k <= i - 1 && LinkAt(s, k) && (forall j :: k <= j <= i - 1 ==> !IsPySpace(s[j]));
      assert forall j :: k <= j <= i ==> !IsPySpace(s[j]);
    }
  }

  lemma {:induction false} InLinkFrom(s: string, k: nat, i: nat)
    requires k <= i < |s| && LinkAt(s, k)
    requires forall j :: k <= j <= i ==> !IsPySpace(s[j])
    ensures InLink(s, i)
    decreases i - k
  {
    if k < i {
      InLinkFrom(s, k, i - 1);
    }
  }

  /** The characters of `s` from index `i` on that lie inside no link, in
      order: the reference meaning of the link pass. */
  function OutsideLinks(s: string, i: nat): (r: string)
    requires i <= |s|
    ensures |r| <= |s| - i
    decreases |s| - i
  {
    if i == |s| then []
    else (if InLink(s, i) then [] else [s[i]]) + OutsideLinks(s, i + 1)
  }

  /** No link that starts before `i` reaches `i`: the scan of `s[i..]`
      starts afresh. */
  predicate ScanFresh(s: string, i: nat) {
    forall k :: 0 <= k < i && LinkAt(s, k) ==> exists j :: k <= j <= i && j < |s| && IsPySpace(s[j])
  }

  /** The link pass deletes exactly the characters inside links and keeps
      every other character, in order. */
  lemma {:induction false} StripLinksDeletesLinks(s: string)
    ensures StripLinks(s) == OutsideLinks(s, 0)
  {
    assert s[0..] == s;
    StripLinksFrom(s, 0);
  }

  lemma {:induction false} StripLinksFrom(s: string, i: nat)
    requires i <= |s| && ScanFresh(s, i)
    ensures StripLinks(s[i..]) == OutsideLinks(s, i)
    decreases |s| - i
  {
    if i < |s| {
      if LinkAt(s, i) {
        var n := LinkStep(s, i);
        ScanSkipsRun(s, i, n);
        OutsideSkipsRun(s, i, n);
        if i + n < |s| {
          FreshAfterLink(s, i, n);
          StripLinksFrom(s, i + n);
        } else {
          assert s[i + n..] == [];
        }
      } else {
        KeepStep(s, i);
        StripLinksFrom(s, i + 1);
      }
    }
  }

  /** A match at `i` consumes a non-empty run. */
  lemma {:induction false} LinkStep(s: string, i: nat) returns (n: nat)
    requires i < |s| && LinkAt(s, i)
    ensures n == RunLength(s[i..]) && 0 < n && i + n <= |s|
  {
    n := RunLength(s[i..]);
    assert s[i..][0] == s[i];
  }

  /** A match at `i` is deleted whole by the reference definition. */
  lemma {:induction false} OutsideSkipsRun(s: string, i: nat, n: nat)
    requires i < |s| && LinkAt(s, i) && n == RunLength(s[i..])
    ensures i + n <= |s|
    ensures OutsideLinks(s, i) == OutsideLinks(s, i + n)
  {
    OutsideSkipsFrom(s, i, n, i);
  }

  /** Positions from `i` to the end of the run a match at `k` consumes
      contribute nothing. */
  lemma {:induction false} OutsideSkipsFrom(s: string, k: nat, n: nat, i: nat)
    requires k < |s| && LinkAt(s, k) && n == RunLength(s[k..]) && k <= i <= k + n
    requires i == k || InLink(s, i - 1)
    ensures k + n <= |s|
    ensures OutsideLinks(s, i) == OutsideLinks(s, k + n)
    decreases k + n - i
  {
    if i < k + n {
      assert s[i] == s[k..][i - k];
      assert InLink(s, i);
      OutsideSkipsFrom(s, k, n, i + 1);
    }
  }

  /** ... and by the scanner. */
  lemma {:induction false} ScanSkipsRun(s: string, i: nat, n: nat)
    requires i < |s| && LinkAt(s, i) && n == RunLength(s[i..])
    ensures i + n <= |s|
    ensures StripLinks(s[i..]) == StripLinks(s[i + n..])
  {
    var t := s[i..];
    assert t[0] == s[i] && t[1] == s[i + 1] && t[2] == s[i + 2] && t[3] == s[i + 3] && t[4] == s[i + 4];
    assert LinkAt(t, 0);
    assert t[n..] == s[i + n..];
  }

  /** Where no match starts, both sides keep the character and move on. */
  lemma {:induction false} KeepStep(s: string, i: nat)
    requires i < |s| && !LinkAt(s, i) && ScanFresh(s, i)
    ensures StripLinks(s[i..]) == [s[i]] + StripLinks(s[i + 1..])
    ensures OutsideLinks(s, i) == [s[i]] + OutsideLinks(s, i + 1)
    ensures ScanFresh(s, i + 1)
  {
    var t := s[i..];
    assert !LinkAt(t, 0);
    assert t[1..] == s[i + 1..];
    FreshStep(s, i);
  }

  /** After a match the scan starts afresh at the white character ending it. */
  lemma {:induction false} FreshAfterLink(s: string, i: nat, n: nat)
    requires i < |s| && LinkAt(s, i) && n == RunLength(s[i..]) && i + n < |s|
    requires ScanFresh(s, i)
    ensures ScanFresh(s, i + n)
  {
    var t := s[i..];
    assert IsPySpace(s[i + n]) by { assert s[i + n] == t[n]; }
    forall k | 0 <= k < i + n && LinkAt(s, k)
      ensures exists j :: k <= j <= i + n && j < |s| && IsPySpace(s[j])
    {
      if k < i {
        var j :| k <= j <= i && j < |s| && IsPySpace(s[j]);
        assert k <= j <= i + n;
      } else {
        assert k <= i + n <= i + n && i + n < |s| && IsPySpace(s[i + n]);
      }
    }
  }

  /** Where no match starts, the character is kept and the scan moves on. */
  lemma {:induction false} FreshStep(s: string, i: nat)
    requires i < |s| && !LinkAt(s, i) && ScanFresh(s, i)
    ensures !InLink(s, i)
    ensures ScanFresh(s, i + 1)
  {
    forall k | 0 <= k <= i && LinkAt(s, k)
      ensures exists j :: k <= j <= i && IsPySpace(s[j])
    {
      var j :| k <= j <= i && j < |s| && IsPySpace(s[j]);
    }
    InLinkIff(s, i);
    forall k | 0 <= k < i + 1 && LinkAt(s, k)
      ensures exists j :: k <= j <= i + 1 && j < |s| && IsPySpace(s[j])
    {
      var j :| k <= j <= i && j < |s| && IsPySpace(s[j]);
      assert k <= j <= i + 1;
    }
  }

  // ---------------------------------------------------------------------
  // What collapsing does to runs and words
  // ---------------------------------------------------------------------

  /** A non-empty run of white space collapses to one space. */
  lemma {:induction false} CollapseRun(w: string)
    requires w != [] && All(w, IsPySpace)
    ensures Collapse(w) == [' ']
  {
    StripStartAllSpace(w);
  }

  /** Collapsing works run by run: cutting the text anywhere that is not
      inside a white-space run and collapsing the two pieces gives the same
      result. With CollapseRun, every maximal white-space run becomes exactly
      one space and every other character is kept, in order. */
  lemma {:induction false} CollapseAppend(a: string, b: string)
    requires a == [] || b == [] || !IsPySpace(a[|a| - 1]) || !IsPySpace(b[0])
    ensures Collapse(a + b) == Collapse(a) + Collapse(b)
    decreases |a|, 1
  {
    if a == [] {
      assert a + b == b;
    } else if b == [] {
      assert a + b == a;
    } else if !IsPySpace(a[0]) {
      CollapseAppendWord(a, b);
    } else {
      CollapseAppendSpace(a, b);
    }
  }

  /** The step of CollapseAppend where `a` starts with a kept character. */
  lemma {:induction false} CollapseAppendWord(a: string, b: string)
    requires a != [] && b != [] && !IsPySpace(a[0])
    requires !IsPySpace(a[|a| - 1]) || !IsPySpace(b[0])
    ensures Collapse(a + b) == Collapse(a) + Collapse(b)
    decreases |a|, 0
  {
    var ab := a + b;
    assert ab[0] == a[0];
    assert ab[1..] == a[1..] + b;
    assert Collapse(ab) == [a[0]] + Collapse(a[1..] + b);
    CollapseAppend(a[1..], b);
  }

  /** The step of CollapseAppend where `a` starts with white space. */
  lemma {:induction false} CollapseAppendSpace(a: string, b: string)
    requires a != [] && b != [] && IsPySpace(a[0])
    requires !IsPySpace(a[|a| - 1]) || !IsPySpace(b[0])
    ensures Collapse(a + b) == Collapse(a) + Collapse(b)
    decreases |a|, 0
  {
    if All(a, IsPySpace) {
      CollapseAppendRun(a, b);
    } else {
      var t := StripStart(a);
      assert (a + b)[0] == a[0];
      CollapseSpaceHead(a + b);
      CollapseSpaceHead(a);
      StripStartAppend(a, b);
      StripStartShorter(a);
      CollapseAppend(t, b);
      AppendAssoc([' '], Collapse(t), Collapse(b));
    }
  }

  /** One unfolding of Collapse at a white first character. */
  lemma CollapseSpaceHead(x: string)
    requires x != [] && IsPySpace(x[0])
    ensures Collapse(x) == [' '] + Collapse(StripStart(x))
  {
  }

  lemma AppendAssoc(p: string, q: string, r: string)
    ensures p + (q + r) == (p + q) + r
  {
  }

  /** Stripping white space that does not fill `a` leaves a shorter,
      non-empty string that ends as `a` does. */
  lemma {:induction false} StripStartShorter(a: string)
    requires a != [] && IsPySpace(a[0]) && !All(a, IsPySpace)
    ensures var t := StripStart(a); t != [] && |t| < |a| && t[|t| - 1] == a[|a| - 1]
  {
    StripStartSuffix(a);
    StripStartDropsWhite(a);
    assert StripStart(a) == StripStart(a[1..]);
  }

  /** A white-space run followed by a kept character: the run becomes one
      space in front of the collapsed rest. */
  lemma {:induction false} CollapseAppendRun(a: string, b: string)
    requires a != [] && All(a, IsPySpace) && b != [] && !IsPySpace(b[0])
    ensures Collapse(a + b) == Collapse(a) + Collapse(b)
  {
    var ab := a + b;
    assert ab[0] == a[0];
    CollapseRun(a);
    StripStartSkips(a, b);
  }

  /** Leading white space that covers all of `a` is stripped entirely. */
  lemma {:induction false} StripStartSkips(a: string, b: string)
    requires All(a, IsPySpace)
    ensures StripStart(a + b) == StripStart(b)
  {
    if a != [] {
      assert (a + b)[1..] == a[1..] + b;
      StripStartSkips(a[1..], b);
    } else {
      assert a + b == b;
    }
  }

  /** StripStart drops white space only. */
  lemma {:induction false} StripStartDropsWhite(s: string)
    ensures forall k :: 0 <= k < |s| - |StripStart(s)| ==> IsPySpace(s[k])
  {
    if s != [] && IsPySpace(s[0]) {
      StripStartDropsWhite(s[1..]);
      forall k | 1 <= k < |s| - |StripStart(s)| ensures IsPySpace(s[k]) {
        assert s[k] == s[1..][k - 1];
      }
    }
  }

  /** When `a` holds a non-white character, stripping stops inside `a`. */
  lemma {:induction false} StripStartAppend(a: string, b: string)
    requires !All(a, IsPySpace)
    ensures StripStart(a + b) == StripStart(a) + b
  {
    if IsPySpace(a[0]) {
      assert (a + b)[1..] == a[1..] + b;
      assert !All(a[1..], IsPySpace) by {
        var k :| 0 <= k < |a| && !IsPySpace(a[k]);
        assert a[1..][k - 1] == a[k];
      }
      StripStartAppend(a[1..], b);
    }
  }

  /** The non-white characters of `s`, in order. */
  function NonWhite(s: string): (r: string)
    ensures |r| <= |s|
  {
    if s == [] then []
    else (if IsPySpace(s[0]) then [] else [s[0]]) + NonWhite(s[1..])
  }

  lemma {:induction false} NonWhiteAppend(a: string, b: string)
    ensures NonWhite(a + b) == NonWhite(a) + NonWhite(b)
  {
    if a == [] {
      assert a + b == b;
    } else {
      var head := if IsPySpace(a[0]) then [] else [a[0]];
      assert (a + b)[0] == a[0] && (a + b)[1..] == a[1..] + b;
      assert NonWhite(a + b) == head + NonWhite(a[1..] + b);
      NonWhiteAppend(a[1..], b);
      assert NonWhite(a) == head + NonWhite(a[1..]);
    }
  }

  /** Stripping either end removes white space only. */
  lemma {:induction false} NonWhiteStripStart(s: string)
    ensures NonWhite(StripStart(s)) == NonWhite(s)
  {
    if s != [] && IsPySpace(s[0]) {
      NonWhiteStripStart(s[1..]);
    }
  }

  lemma {:induction false} NonWhiteStripEnd(s: string)
    ensures NonWhite(StripEnd(s)) == NonWhite(s)
  {
    if s != [] && IsPySpace(s[|s| - 1]) {
      var init := s[..|s| - 1];
      assert s == init + [s[|s| - 1]];
      NonWhiteAppend(init, [s[|s| - 1]]);
      NonWhiteStripEnd(init);
    }
  }

  /** Collapsing changes white space only: the words are untouched. */
  lemma {:induction false} CollapseKeepsWords(s: string)
    ensures NonWhite(Collapse(s)) == NonWhite(s)
    decreases |s|
  {
    if s != [] {
      if IsPySpace(s[0]) {
        var rest := Collapse(StripStart(s));
        assert NonWhite([' '] + rest) == NonWhite(rest) by {
          assert ([' '] + rest)[1..] == rest;
        }
        CollapseKeepsWords(StripStart(s));
        NonWhiteStripStart(s);
      } else {
        assert ([s[0]] + Collapse(s[1..]))[1..] == Collapse(s[1..]);
        CollapseKeepsWords(s[1..]);
      }
    }
  }

  /** The letters and digits of `s`, in order. */
  function Alnums(s: string): (r: string)
    ensures |r| <= |s|
  {
    if s == [] then []
    else (if IsAlnum(s[0]) then [s[0]] else []) + Alnums(s[1..])
  }

  lemma {:induction false} NonWhiteSpecials(s: string)
    ensures NonWhite(RemoveSpecials(s)) == Alnums(s)
  {
    if s != [] {
      var kept := if IsAlnum(s[0]) || IsPySpace(s[0]) then [s[0]] else [];
      NonWhiteAppend(kept, RemoveSpecials(s[1..]));
      NonWhiteSpecials(s[1..]);
    }
  }

  /** What `clean_text` keeps apart from spaces: exactly the ASCII letters
      and digits of the lower-cased text that lie inside no link, in order. */
  lemma {:induction false} CleanTextWords(s: string)
    ensures NonWhite(CleanText(s)) == Alnums(OutsideLinks(Lower(s), 0))
  {
    var noLinks := StripLinks(Lower(s));
    StripLinksDeletesLinks(Lower(s));
    var collapsed := Collapse(RemoveSpecials(noLinks));
    NonWhiteStripEnd(StripStart(collapsed));
    NonWhiteStripStart(collapsed);
    CollapseKeepsWords(RemoveSpecials(noLinks));
    NonWhiteSpecials(noLinks);
  }

  /** The link pass only deletes: every character it keeps came from its
      input, so a property of all input characters holds of the output. */
  lemma {:induction false} StripLinksKeeps(s: string, P: char -> bool)
    requires All(s, P)
    ensures All(StripLinks(s), P)
    decreases |s|
  {
    if s == [] {
    } else if LinkAt(s, 0) {
      StripLinksKeeps(s[RunLength(s)..], P);
    } else {
      StripLinksKeeps(s[1..], P);
    }
  }

  lemma {:induction false} RemoveSpecialsKeeps(s: string, P: char -> bool)
    requires All(s, P)
    ensures All(RemoveSpecials(s), P)
  {
    if s != [] {
      RemoveSpecialsKeeps(s[1..], P);
    }
  }

  /** Collapsing keeps the input's non-white characters and adds only spaces. */
  lemma {:induction false} CollapseKeeps(s: string, P: char -> bool)
    requires All(s, P)
    ensures forall i :: 0 <= i < |Collapse(s)| ==> Collapse(s)[i] == ' ' || P(Collapse(s)[i])
    decreases |s|
  {
    if s == [] {
    } else if IsPySpace(s[0]) {
      StripStartSuffix(s);
      CollapseKeeps(StripStart(s), P);
    } else {
      CollapseKeeps(s[1..], P);
    }
  }

  /** Only letters, digits and white space survive the special-character pass. */
  lemma {:induction false} RemoveSpecialsOnlyKept(s: string)
    ensures forall i :: 0 <= i < |RemoveSpecials(s)| ==>
      IsAlnum(RemoveSpecials(s)[i]) || IsPySpace(RemoveSpecials(s)[i])
  {
    if s != [] {
      RemoveSpecialsOnlyKept(s[1..]);
    }
  }

  /** The special-character pass is the identity on letters, digits and white space. */
  lemma {:induction false} RemoveSpecialsFixpoint(s: string)
    requires forall i :: 0 <= i < |s| ==> IsAlnum(s[i]) || IsPySpace(s[i])
    ensures RemoveSpecials(s) == s
  {
    if s != [] {
      RemoveSpecialsFixpoint(s[1..]);
    }
  }

  /** Collapsing is the identity once every white-space run is one space. */
  lemma {:induction false} CollapseFixpoint(s: string)
    requires forall i :: 0 <= i < |s| ==> IsPySpace(s[i]) ==> s[i] == ' '
    requires forall i :: 0 <= i < |s| - 1 ==> !(IsPySpace(s[i]) && IsPySpace(s[i + 1]))
    ensures Collapse(s) == s
  {
    if s != [] {
      if IsPySpace(s[0]) {
        if |s| > 1 {
          assert !IsPySpace(s[1]);
        }
        assert StripStart(s) == s[1..];
      }
      CollapseFixpoint(s[1..]);
    }
  }

  lemma {:induction false} StripStartAllSpace(s: string)
    requires All(s, IsPySpace)
    ensures StripStart(s) == []
  {
    if s != [] {
      StripStartAllSpace(s[1..]);
    }
  }

  /** Empty or all-white input cleans to the empty string. */
  lemma BlankCleansToEmpty(s: string)
    requires All(s, IsPySpace)
    ensures CleanText(s) == ""
  {
    assert Lower(s) == s;
    assert LinkFree(s) by {
      forall k | 0 <= k < |s| ensures !LinkAt(s, k) {
        assert IsPySpace(s[k]);
      }
    }
    StripLinksFixpoint(s);
    RemoveSpecialsFixpoint(s);
    var collapsed := Collapse(s);
    CollapseKeeps(s, IsPySpace);
    assert All(collapsed, IsPySpace);
    StripStartAllSpace(collapsed);
  }

  /** A cleaned string is a fixed point of the cleaner when it holds no link:
      cleaning again can only remove links. */
  lemma CleanFixpointIfLinkFree(s: string)
    requires LinkFree(CleanText(s))
    ensures CleanText(CleanText(s)) == CleanText(s)
  {
    var t := CleanText(s);
    CleanTextNormalized(s);
    assert forall i :: 0 <= i < |t| ==> !IsPySpace(t[i]) || t[i] == ' ';
    assert Lower(t) == t;
    StripLinksFixpoint(t);
    RemoveSpecialsFixpoint(t);
    CollapseFixpoint(t);
    assert t == [] || (!IsPySpace(t[0]) && !IsPySpace(t[|t| - 1]));
    assert StripStart(t) == t;
    assert StripEnd(t) == t;
  }

  /** Deleting special characters distributes over concatenation. */
  lemma {:induction false} RemoveSpecialsAppend(a: string, b: string)
    ensures RemoveSpecials(a + b) == RemoveSpecials(a) + RemoveSpecials(b)
  {
    if a == [] {
      assert a + b == b;
    } else {
      var kept := if IsAlnum(a[0]) || IsPySpace(a[0]) then [a[0]] else [];
      assert (a + b)[0] == a[0];
      assert (a + b)[1..] == a[1..] + b;
      assert RemoveSpecials(a + b) == kept + RemoveSpecials(a[1..] + b);
      RemoveSpecialsAppend(a[1..], b);
      assert kept + (RemoveSpecials(a[1..]) + RemoveSpecials(b)) ==
        (kept + RemoveSpecials(a[1..])) + RemoveSpecials(b);
    }
  }

  /** The cleaner is not idempotent. In a string such as "ht!tpx" (any ASCII
      special character third, any lower-case letter or digit last) the link pass
      finds no link; deleting the special character then joins "http" with
      the last character, and cleaning again deletes the link so formed. */
  lemma CleanNotIdempotent(s: string)
    requires |s| == 6 && s[0] == 'h' && s[1] == 't' && s[3] == 't' && s[4] == 'p'
    requires IsAscii(s[2]) && !IsAlnum(s[2]) && !IsPySpace(s[2])
    requires IsLower(s[5]) || IsDigit(s[5])
    ensures CleanText(s) == s[..2] + s[3..]
    ensures CleanText(CleanText(s)) == []
  {
    var joined := s[..2] + s[3..];
    JoinedLinkFree(s);
    JoinedSpecials(s);
    assert joined[0] == 'h' && joined[1] == 't' && joined[2] == 't' && joined[3] == 'p';
    assert joined[4] == s[5];
    LinkLastPasses(joined);
    LinkOnlyCleansAway(joined);
  }

  /** Collapsing and stripping leave a five-character link unchanged. */
  lemma LinkLastPasses(t: string)
    requires |t| == 5 && t[0] == 'h' && t[1] == 't' && t[2] == 't' && t[3] == 'p'
    requires IsLower(t[4]) || IsDigit(t[4])
    ensures Strip(Collapse(t)) == t
  {
    forall i | 0 <= i < |t| ensures !IsPySpace(t[i]) {
      if i == 0 {} else if i == 1 {} else if i == 2 {} else if i == 3 {} else {}
    }
    CollapseFixpoint(t);
    StripUnchanged(t);
  }

  /** The first two passes leave such a string as it is. */
  lemma JoinedLinkFree(s: string)
    requires |s| == 6 && s[0] == 'h' && s[1] == 't' && s[3] == 't' && s[4] == 'p'
    requires !IsAlnum(s[2]) && !IsPySpace(s[2])
    requires IsLower(s[5]) || IsDigit(s[5])
    ensures StripLinks(Lower(s)) == s
  {
    assert Lower(s) == s;
    assert LinkFree(s) by {
      forall k | 0 <= k < |s| ensures !LinkAt(s, k) {
        assert k == 0 ==> s[k + 2] != 't';
      }
    }
    StripLinksFixpoint(s);
  }

  /** The special-character pass deletes exactly the third character. */
  lemma JoinedSpecials(s: string)
    requires |s| == 6 && s[0] == 'h' && s[1] == 't' && s[3] == 't' && s[4] == 'p'
    requires !IsAlnum(s[2]) && !IsPySpace(s[2])
    requires IsLower(s[5]) || IsDigit(s[5])
    ensures RemoveSpecials(s) == s[..2] + s[3..]
  {
    var head, tail := s[..2], s[3..];
    assert s == head + [s[2]] + tail;
    forall i | 0 <= i < 2 ensures IsAlnum(head[i]) {
      if i == 0 {} else {}
    }
    forall i | 0 <= i < 3 ensures IsAlnum(tail[i]) {
      if i == 0 {} else if i == 1 {} else {}
    }
    RemoveSpecialsDropsOne(head, s[2], tail);
  }

  /** Deleting one special character between kept text joins the two sides. */
  lemma RemoveSpecialsDropsOne(head: string, c: char, tail: string)
    requires forall i :: 0 <= i < |head| ==> IsAlnum(head[i]) || IsPySpace(head[i])
    requires !IsAlnum(c) && !IsPySpace(c)
    requires forall i :: 0 <= i < |tail| ==> IsAlnum(tail[i]) || IsPySpace(tail[i])
    ensures RemoveSpecials(head + [c] + tail) == head + tail
  {
    assert head + [c] + tail == head + ([c] + tail);
    RemoveSpecialsAppend(head, [c] + tail);
    RemoveSpecialsFixpoint(head);
    assert RemoveSpecials([c] + tail) == RemoveSpecials(tail) by {
      assert ([c] + tail)[1..] == tail;
    }
    RemoveSpecialsFixpoint(tail);
  }

  /** A five-character link and nothing else cleans to the empty string. */
  lemma LinkOnlyCleansAway(t: string)
    requires |t| == 5 && t[0] == 'h' && t[1] == 't' && t[2] == 't' && t[3] == 'p'
    requires IsLower(t[4]) || IsDigit(t[4])
    ensures CleanText(t) == []
  {
    assert Lower(t) == t;
    RunLengthIs(t, 5);
    assert StripLinks(t) == StripLinks(t[5..]);
  }

  /** Links go before punctuation: "http" followed only by ASCII special
      characters (as in "http://") is a link and is deleted whole, while deleting the
      punctuation first would leave a bare "http" that no longer matches. */
  lemma LinksBeforeSpecials(s: string)
    requires |s| >= 5 && s[0] == 'h' && s[1] == 't' && s[2] == 't' && s[3] == 'p'
    requires forall i :: 4 <= i < |s| ==> IsAscii(s[i]) && !IsAlnum(s[i]) && !IsPySpace(s[i])
    ensures CleanText(s) == []
    ensures Strip(Collapse(StripLinks(RemoveSpecials(Lower(s))))) == s[..4]
  {
    assert Lower(s) == s;
    RunLengthIs(s, |s|);
    assert StripLinks(s) == StripLinks(s[|s|..]);
    SpecialsFirst(s);
    var h := s[..4];
    assert LinkFree(h);
    StripLinksFixpoint(h);
    CollapseFixpoint(h);
    StripUnchanged(h);
  }

  lemma SpecialsFirst(s: string)
    requires |s| >= 5 && s[0] == 'h' && s[1] == 't' && s[2] == 't' && s[3] == 'p'
    requires forall i :: 4 <= i < |s| ==> !IsAlnum(s[i]) && !IsPySpace(s[i])
    ensures RemoveSpecials(s) == s[..4]
  {
    var head, rest := s[..4], s[4..];
    assert s == head + rest;
    assert head[0] == 'h' && head[1] == 't' && head[2] == 't' && head[3] == 'p';
    HttpIsAlnum(head);
    forall i | 0 <= i < |rest| ensures !IsAlnum(rest[i]) && !IsPySpace(rest[i]) {
      assert rest[i] == s[i + 4];
    }
    RemoveSpecialsDropsTail(head, rest);
  }

  lemma HttpIsAlnum(h: string)
    requires |h| == 4 && h[0] == 'h' && h[1] == 't' && h[2] == 't' && h[3] == 'p'
    ensures forall i :: 0 <= i < |h| ==> IsAlnum(h[i])
  {
    forall i | 0 <= i < |h| ensures IsAlnum(h[i]) {
      if i == 0 {} else if i == 1 {} else if i == 2 {} else {}
    }
  }

  /** Kept text followed by special characters only loses the special characters. */
  lemma RemoveSpecialsDropsTail(head: string, rest: string)
    requires forall i :: 0 <= i < |head| ==> IsAlnum(head[i]) || IsPySpace(head[i])
    requires forall i :: 0 <= i < |rest| ==> !IsAlnum(rest[i]) && !IsPySpace(rest[i])
    ensures RemoveSpecials(head + rest) == head
  {
    RemoveSpecialsAppend(head, rest);
    RemoveSpecialsFixpoint(head);
    RemoveSpecialsDropsAll(rest);
    assert head + [] == head;
  }

  /** A string of special characters only is deleted entirely. */
  lemma {:induction false} RemoveSpecialsDropsAll(u: string)
    requires forall i :: 0 <= i < |u| ==> !IsAlnum(u[i]) && !IsPySpace(u[i])
    ensures RemoveSpecials(u) == []
  {
    if u != [] {
      RemoveSpecialsDropsAll(u[1..]);
    }
  }

  /** The leading non-white run is exactly `n` long when the first `n`
      characters are non-white and the next one is white or absent. */
  lemma {:induction false} RunLengthIs(s: string, n: nat)
    requires n <= |s|
    requires forall k :: 0 <= k < n ==> !IsPySpace(s[k])
    requires n < |s| ==> IsPySpace(s[n])
    ensures RunLength(s) == n
  {
    if n > 0 {
      RunLengthIs(s[1..], n - 1);
    }
  }
}
