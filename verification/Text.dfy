/** The few Python and SQL string operations the repository relies on. */
module Text {

  /** The characters `str.strip()` removes. */
  predicate IsSpace(c: char) {
    var n := c as int;
    || 0x09 <= n <= 0x0D || 0x1C <= n <= 0x20 || n == 0x85 || n == 0xA0 || n == 0x1680
    || 0x2000 <= n <= 0x200A || n == 0x2028 || n == 0x2029 || n == 0x202F || n == 0x205F || n == 0x3000
  }

  /** No character at either end for which `drop` holds. */
  ghost predicate TrimmedOf(drop: char -> bool, s: string) {
    s != "" ==> !drop(s[0]) && !drop(s[|s| - 1])
  }

  /** Removes characters satisfying `drop` from both ends. */
  function Trim(drop: char -> bool, s: string): (r: string)
    ensures TrimmedOf(drop, r)
    ensures |r| <= |s|
    ensures TrimmedOf(drop, s) ==> r == s
    ensures r == "" <==> forall i :: 0 <= i < |s| ==> drop(s[i])
    decreases |s|
  {
    if s == "" then s
    else if drop(s[0]) then Trim(drop, s[1..])
    else if drop(s[|s| - 1]) then Trim(drop, s[..|s| - 1])
    else s
  }

  /** Python's `s.strip()`. */
  function Strip(s: string): (r: string)
    ensures Stripped(r)
    ensures |r| <= |s|
    ensures Stripped(s) ==> r == s
    ensures r == "" <==> forall i :: 0 <= i < |s| ==> IsSpace(s[i])
  {
    Trim(IsSpace, s)
  }

  /** Trimming adds no character. */
  lemma {:induction false} TrimWithin(drop: char -> bool, s: string, c: char)
    requires c in Trim(drop, s)
    ensures c in s
    decreases |s|
  {
    if s != "" && drop(s[0]) {
      TrimWithin(drop, s[1..], c);
    } else if s != "" && drop(s[|s| - 1]) {
      TrimWithin(drop, s[..|s| - 1], c);
    }
  }

  /** What is left of a text when dropped characters are cut off at both ends, and nothing else is. */
  ghost predicate CutTo(drop: char -> bool, s: string, r: string) {
    && TrimmedOf(drop, r)
    && exists front: string, back: string :: s == front + r + back && Dropped(drop, front) && Dropped(drop, back)
  }

  ghost predicate Dropped(drop: char -> bool, s: string) {
    forall i :: 0 <= i < |s| ==> drop(s[i])
  }

  lemma GrowFront(drop: char -> bool, s: string, front: string, r: string, back: string)
    requires s != "" && drop(s[0]) && s[1..] == front + r + back && Dropped(drop, front)
    ensures s == [s[0]] + front + r + back && Dropped(drop, [s[0]] + front)
  {
    assert s == [s[0]] + s[1..];
  }

  lemma GrowBack(drop: char -> bool, s: string, front: string, r: string, back: string)
    requires s != "" && drop(s[|s| - 1]) && s[..|s| - 1] == front + r + back && Dropped(drop, back)
    ensures s == front + r + (back + [s[|s| - 1]]) && Dropped(drop, back + [s[|s| - 1]])
  {
    assert s == s[..|s| - 1] + [s[|s| - 1]];
  }

  lemma {:induction false} TrimCuts(drop: char -> bool, s: string) returns (front: string, back: string)
    ensures s == front + Trim(drop, s) + back && Dropped(drop, front) && Dropped(drop, back)
    decreases |s|
  {
    front, back := "", "";
    assert Dropped(drop, "");
    hide Dropped, TrimmedOf;
    if s != "" && drop(s[0]) {
      front, back := TrimCuts(drop, s[1..]);
      GrowFront(drop, s, front, Trim(drop, s[1..]), back);
      front := [s[0]] + front;
    } else if s != "" && drop(s[|s| - 1]) {
      front, back := TrimCuts(drop, s[..|s| - 1]);
      GrowBack(drop, s, front, Trim(drop, s[..|s| - 1]), back);
      back := back + [s[|s| - 1]];
    }
  }

  /** There is only one way to cut a text. */
  lemma CutOnce(drop: char -> bool, s: string, i: nat, j: nat, k: nat, l: nat)
    requires i <= j <= |s| && Dropped(drop, s[..i]) && Dropped(drop, s[j..]) && TrimmedOf(drop, s[i..j])
    requires k <= l <= |s| && Dropped(drop, s[..k]) && Dropped(drop, s[l..]) && TrimmedOf(drop, s[k..l])
    ensures s[i..j] == s[k..l]
  {
    if i < j {
      assert s[i..j][0] == s[i] && s[i..j][j - i - 1] == s[j - 1];
      KeptInside(drop, s, k, l, i);
      KeptInside(drop, s, k, l, j - 1);
    }
    if k < l {
      assert s[k..l][0] == s[k] && s[k..l][l - k - 1] == s[l - 1];
      KeptInside(drop, s, i, j, k);
      KeptInside(drop, s, i, j, l - 1);
    }
  }

  lemma KeptInside(drop: char -> bool, s: string, k: nat, l: nat, n: nat)
    requires k <= l <= |s| && n < |s| && Dropped(drop, s[..k]) && Dropped(drop, s[l..]) && !drop(s[n])
    ensures k <= n < l
  {
    assert s == s[..k] + s[k..l] + s[l..];
  }

  /** Trimming is exactly that cut. */
  lemma TrimIff(drop: char -> bool, s: string, r: string)
    ensures CutTo(drop, s, r) <==> Trim(drop, s) == r
  {
    var front, back := TrimCuts(drop, s);
    if CutTo(drop, s, r) {
      var f: string, b: string :| s == f + r + b && Dropped(drop, f) && Dropped(drop, b);
      CutIndices(drop, s, front, Trim(drop, s), back);
      CutIndices(drop, s, f, r, b);
      CutOnce(drop, s, |front|, |s| - |back|, |f|, |s| - |b|);
    }
  }

  lemma CutIndices(drop: char -> bool, s: string, front: string, r: string, back: string)
    requires s == front + r + back
    ensures s[..|front|] == front && s[|front|..|s| - |back|] == r && s[|s| - |back|..] == back
  {
  }

  /** `r` is `s` without the white space at its ends. */
  ghost predicate StripsTo(s: string, r: string) {
    CutTo(IsSpace, s, r)
  }

  lemma StripIff(s: string, r: string)
    ensures StripsTo(s, r) <==> Strip(s) == r
  {
    TrimIff(IsSpace, s, r);
  }

  /** The white space of ASCII, with the four information separators. */
  const ASCII_SPACES := {'\t', '\n', '\U{0B}', '\U{0C}', '\r', '\U{1C}', '\U{1D}', '\U{1E}', '\U{1F}', ' '}

  /** The white space beyond ASCII. */
  const OTHER_SPACES :=
    {'\U{85}', '\U{A0}', '\U{1680}', '\U{2000}', '\U{2001}', '\U{2002}', '\U{2003}', '\U{2004}', '\U{2005}', '\U{2006}',
     '\U{2007}', '\U{2008}', '\U{2009}', '\U{200A}', '\U{2028}', '\U{2029}', '\U{202F}', '\U{205F}', '\U{3000}'}

  /** The twenty-nine characters one by one. */
  lemma SpacesListed(c: char)
    ensures c as int < 0x80 ==> (IsSpace(c) <==> c in ASCII_SPACES)
    ensures c as int >= 0x80 ==> (IsSpace(c) <==> c in OTHER_SPACES)
  {
  }

  /** No white space at either end. */
  predicate Stripped(s: string) {
    s != "" ==> !IsSpace(s[0]) && !IsSpace(s[|s| - 1])
  }

  /** SQL's `btrim(s)`, which removes blanks only. */
  function BTrim(s: string): (r: string)
    ensures Stripped(s) ==> r == s
    ensures r == "" <==> forall i :: 0 <= i < |s| ==> s[i] == ' '
  {
    Trim(c => c == ' ', s)
  }

  /** `s.lower() == t`, for a lower-case ASCII `t` without the letters i and k (the only ASCII letters that
      occur in the lower-case form of a non-ASCII character). */
  predicate LowersTo(s: string, t: string) {
    |s| == |t| && forall i :: 0 <= i < |s| ==> LowerAscii(s[i]) == t[i]
  }

  function LowerAscii(c: char): char {
    if 'A' <= c <= 'Z' then (c as int + 32) as char else c
  }
}
