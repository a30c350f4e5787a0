// The text normalisation applied to scraped rate cells before they are
// parsed as numbers: removing separators and the won sign, and JavaScript's
// `trim`.

module Text {
  import opened Seqs

  const Comma: char := ','
  const Won: char := '원'

  /** `s` with every occurrence of `c` removed (`str.replace(c, "")`, `replace(/c/g, '')`). */
  function RemoveAll(s: string, c: char): (r: string)
    ensures forall x :: x in r <==> x in s && x != c
    ensures |r| <= |s|
  {
    if |s| == 0 then ""
    else (if s[0] == c then "" else [s[0]]) + RemoveAll(s[1..], c)
  }

  /** Removal works piece by piece, so the characters kept stay in their order. */
  lemma {:induction false} RemoveAllAppend(a: string, b: string, c: char)
    ensures RemoveAll(a + b, c) == RemoveAll(a, c) + RemoveAll(b, c)
  {
    if |a| > 0 {
      assert (a + b)[1..] == a[1..] + b;
      RemoveAllAppend(a[1..], b, c);
    } else {
      assert a + b == b;
    }
  }

  /** A text without `c` is left as it is. */
  lemma {:induction false} RemoveAllAbsent(s: string, c: char)
    requires c !in s
    ensures RemoveAll(s, c) == s
  {
    if |s| > 0 {
      RemoveAllAbsent(s[1..], c);
      assert s == [s[0]] + s[1..];
    }
  }

  /** `s.replace(c, '')` with a string pattern: only the first `c` is removed. */
  function ReplaceFirst(s: string, c: char): (r: string)
    ensures c !in s ==> r == s
    ensures c in s ==> |r| == |s| - 1
    ensures c in s ==> var i := IndexIn(s, c); c !in s[..i] && r == s[..i] + s[i + 1..]
    ensures forall x :: x in r ==> x in s
  {
    var i := IndexIn(s, c);
    if i < 0 then s
    else
      assert forall x :: x in s[..i] + s[i + 1..] ==> x in s[..i] || x in s[i + 1..];
      s[..i] + s[i + 1..]
  }

  /** No two characters of `s` are `c`. */
  predicate AtMostOne(s: string, c: char)
  {
    forall i, j :: 0 <= i < j < |s| && s[i] == c ==> s[j] != c
  }

  /** With at most one `c` in the text, removing the first `c` removes them all. */
  lemma {:induction false} ReplaceFirstRemovesSingle(s: string, c: char)
    requires AtMostOne(s, c)
    ensures ReplaceFirst(s, c) == RemoveAll(s, c)
  {
    var i := IndexIn(s, c);
    if i < 0 {
      RemoveAllAbsent(s, c);
    } else {
      var a, b := s[..i], s[i + 1..];
      assert s == a + ([c] + b);
      assert c !in b;
      RemoveAllAppend(a, [c] + b, c);
      assert ([c] + b)[1..] == b;
      assert RemoveAll([c] + b, c) == RemoveAll(b, c);
      RemoveAllAbsent(a, c);
      RemoveAllAbsent(b, c);
    }
  }

  /** A character JavaScript's `trim` removes: WhiteSpace and LineTerminator of ECMA-262. */
  predicate IsJsSpace(c: char)
  {
    || c == ' ' || c == '\t' || c == '\n' || c == '\r' || c == '\U{000B}' || c == '\U{000C}'
    || c == '\U{00A0}' || c == '\U{1680}' || ('\U{2000}' <= c <= '\U{200A}')
    || c == '\U{2028}' || c == '\U{2029}' || c == '\U{202F}' || c == '\U{205F}'
    || c == '\U{3000}' || c == '\U{FEFF}'
  }

  /** The text has no space at either end. */
  predicate Trimmed(s: string)
  {
    |s| == 0 || (!IsJsSpace(s[0]) && !IsJsSpace(s[|s| - 1]))
  }

  /** The text has no space anywhere. */
  predicate SpaceFree(s: string)
  {
    forall i :: 0 <= i < |s| ==> !IsJsSpace(s[i])
  }

  /** The first position at or after `i` that is not a space, or `|s|`. */
  function StartIndex(s: string, i: nat): (k: nat)
    requires i <= |s|
    ensures i <= k <= |s|
    ensures forall j :: i <= j < k ==> IsJsSpace(s[j])
    ensures k < |s| ==> !IsJsSpace(s[k])
    decreases |s| - i
  {
    if i < |s| && IsJsSpace(s[i]) then StartIndex(s, i + 1) else i
  }

  /** The end of `s[lo..e]` once the spaces before `e` are cut off. */
  function EndIndex(s: string, lo: nat, e: nat): (k: nat)
    requires lo <= e <= |s|
    ensures lo <= k <= e
    ensures forall j :: k <= j < e ==> IsJsSpace(s[j])
    ensures k > lo ==> !IsJsSpace(s[k - 1])
  {
    if e > lo && IsJsSpace(s[e - 1]) then EndIndex(s, lo, e - 1) else e
  }

  /**
   * `s.trim()`: the slice of `s` between its leading and its trailing
   * spaces, with no space at either end.
   */
  function Trim(s: string): (r: string)
    ensures Trimmed(r)
    ensures forall x :: x in r ==> x in s
    ensures var k := StartIndex(s, 0); var e := EndIndex(s, k, |s|);
      && r == s[k..e]
      && (forall j :: 0 <= j < k ==> IsJsSpace(s[j]))
      && (forall j :: e <= j < |s| ==> IsJsSpace(s[j]))
  {
    var k := StartIndex(s, 0);
    var e := EndIndex(s, k, |s|);
    assert forall x :: x in s[k..e] ==> x in s;
    s[k..e]
  }

  /** A text with no space anywhere is its own trim. */
  lemma {:induction false} TrimSpaceFree(s: string)
    requires SpaceFree(s)
    ensures Trim(s) == s
  {
    if |s| > 0 {
      assert !IsJsSpace(s[0]) && !IsJsSpace(s[|s| - 1]);
      assert StartIndex(s, 0) == 0;
    }
  }

  /** Removing characters keeps a text free of spaces. */
  lemma {:induction false} RemoveAllSpaceFree(s: string, c: char)
    requires SpaceFree(s)
    ensures SpaceFree(RemoveAll(s, c))
  {
    var r := RemoveAll(s, c);
    forall i | 0 <= i < |r| ensures !IsJsSpace(r[i]) {
      assert r[i] in s;
    }
  }

  /** Removing characters keeps at most one `w`. */
  lemma {:induction false} RemoveAllAtMostOne(s: string, c: char, w: char)
    requires AtMostOne(s, w)
    ensures AtMostOne(RemoveAll(s, c), w)
  {
    if |s| > 0 {
      RemoveAllAtMostOne(s[1..], c, w);
      var rest := RemoveAll(s[1..], c);
      if s[0] == w && w != c {
        assert forall j :: 0 <= j < |s[1..]| ==> s[1..][j] == s[j + 1];
        assert w !in rest;
        assert RemoveAll(s, c) == [w] + rest;
        assert forall j :: 0 < j < |[w] + rest| ==> ([w] + rest)[j] == rest[j - 1];
      }
    }
  }

  /** `text.replace(",", "").replace("원", "")`: every comma and every won sign removed. */
  function NormalisePy(text: string): (r: string)
    ensures forall x :: x in r <==> x in text && x != Comma && x != Won
  {
    RemoveAll(RemoveAll(text, Comma), Won)
  }

  /** `text.trim().replace(/,/g, '').replace('원', '').trim()`: every comma, but only the first won sign. */
  function NormaliseJs(text: string): (r: string)
    ensures Comma !in r && Trimmed(r)
  {
    Trim(ReplaceFirst(RemoveAll(Trim(text), Comma), Won))
  }

  /** The two normalisations agree on a cell with at most one won sign and no spaces. */
  lemma {:induction false} NormalisationsAgree(text: string)
    requires AtMostOne(text, Won) && SpaceFree(text)
    ensures NormaliseJs(text) == NormalisePy(text)
  {
    TrimSpaceFree(text);
    var noComma := RemoveAll(text, Comma);
    RemoveAllAtMostOne(text, Comma, Won);
    ReplaceFirstRemovesSingle(noComma, Won);
    RemoveAllSpaceFree(text, Comma);
    RemoveAllSpaceFree(noComma, Won);
    TrimSpaceFree(RemoveAll(noComma, Won));
  }

  lemma {:induction false} FirstWonRemoved(s: string)
    requires s == "1원2원"
    ensures ReplaceFirst(s, Won) == "12원"
  {
    assert s[0] != Won && s[1] == Won;
    assert IndexIn(s, Won) == 1;
  }

  /** The JavaScript normalisation leaves a second won sign in place; the Python one does not. */
  lemma {:induction false} SecondWonKept(s: string)
    requires s == "1원2원"
    ensures Won in NormaliseJs(s) && Won !in NormalisePy(s)
  {
    var t := ReplaceFirst(s, Won);
    FirstWonRemoved(s);
    assert SpaceFree(s) && SpaceFree(t) && Comma !in s;
    TrimSpaceFree(s);
    RemoveAllAbsent(s, Comma);
    TrimSpaceFree(t);
    assert t[2] == Won;
  }
}
