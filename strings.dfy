/**
 * The `str` operations the record normaliser relies on: whitespace splitting
 * (`s.strip().split()[0]`), lower-casing and substring search (`k in s`).
 */
module Strings {
  import opened Wrappers

  /** Python's `str.isspace()` for a single character: the separators `str.split()` splits on. */
  predicate IsSpace(c: char)
  {
    || c == ' ' || c == '\t' || c == '\n' || c == '\r' || c == '\U{0B}' || c == '\U{0C}'
    || ('\U{1C}' <= c <= '\U{1F}')
    || c == '\U{85}' || c == '\U{A0}' || c == '\U{1680}'
    || ('\U{2000}' <= c <= '\U{200A}')
    || c == '\U{2028}' || c == '\U{2029}' || c == '\U{202F}' || c == '\U{205F}' || c == '\U{3000}'
  }

  predicate AllSpace(s: string)
  {
    forall i :: 0 <= i < |s| ==> IsSpace(s[i])
  }

  predicate NoSpace(s: string)
  {
    forall i :: 0 <= i < |s| ==> !IsSpace(s[i])
  }

  /** `s.lstrip()`: drops the leading whitespace. */
  function SkipSpace(s: string): (r: string)
    ensures |r| <= |s| && r == s[|s| - |r|..]
    ensures AllSpace(s[..|s| - |r|])
    ensures r != [] ==> !IsSpace(r[0])
  {
    if s != [] && IsSpace(s[0]) then SkipSpace(s[1..]) else s
  }

  /** The longest prefix of `s` without whitespace. */
  function TakeToken(s: string): (r: string)
    ensures r <= s && NoSpace(r)
    ensures |r| < |s| ==> IsSpace(s[|r|])
  {
    if s == [] || IsSpace(s[0]) then [] else [s[0]] + TakeToken(s[1..])
  }

  /** `s.split()[0]`, or `None` where Python raises `IndexError` (no token at all). */
  function FirstToken(s: string): (r: Option<string>)
    ensures r.None? <==> AllSpace(s)
    ensures r.Some? ==> r.value != [] && NoSpace(r.value)
    ensures r.Some? ==>
      exists j :: 0 <= j <= |s| && AllSpace(s[..j]) && r.value <= s[j..]
        && (j + |r.value| == |s| || IsSpace(s[j + |r.value|]))
  {
    var t := SkipSpace(s);
    if t == [] then None
    else
      var j := |s| - |t|;
      var token := TakeToken(t);
      assert s[j..] == t;
      assert j + |token| < |s| ==> s[j + |token|] == t[|token|];
      assert AllSpace(s[..j]) && token <= s[j..] && (j + |token| == |s| || IsSpace(s[j + |token|]));
      Some(token)
  }

  /** A token followed by a space is the first token, whatever comes after. */
  lemma {:induction false} FirstTokenOfJoin(token: string, rest: string)
    requires token != [] && NoSpace(token)
    ensures FirstToken(token + " " + rest) == Some(token)
  {
    var s := token + " " + rest;
    assert SkipSpace(s) == s;
    TakeTokenOfJoin(token, rest);
  }

  lemma {:induction false} TakeTokenOfJoin(token: string, rest: string)
    requires NoSpace(token)
    ensures TakeToken(token + " " + rest) == token
  {
    if token != [] {
      assert (token + " " + rest)[1..] == token[1..] + " " + rest;
      TakeTokenOfJoin(token[1..], rest);
    }
  }

  /** Text made only of whitespace has no first token on either side of a joining space. */
  lemma AllSpaceJoin(a: string, b: string)
    ensures AllSpace(a + " " + b) <==> AllSpace(a) && AllSpace(b)
  {
    var s := a + " " + b;
    assert forall i :: 0 <= i < |a| ==> a[i] == s[i];
    assert forall i :: 0 <= i < |b| ==> b[i] == s[|a| + 1 + i];
    assert IsSpace(s[|a|]);
  }

  /** `c.lower()` for ASCII letters; every other character is kept. */
  function LowerChar(c: char): (r: char)
    ensures 'A' <= c <= 'Z' ==> 'a' <= r <= 'z' && r as int - c as int == 32
    ensures !('A' <= c <= 'Z') ==> r == c
  {
    if 'A' <= c <= 'Z' then (c as int + 32) as char else c
  }

  function Lower(s: string): (r: string)
    ensures |r| == |s|
    ensures forall i :: 0 <= i < |s| ==> r[i] == LowerChar(s[i])
  {
    if s == [] then [] else [LowerChar(s[0])] + Lower(s[1..])
  }

  /** Python's `k in s` on strings. */
  predicate Contains(s: string, k: string)
  {
    k <= s || (s != [] && Contains(s[1..], k))
  }

  predicate OccursAt(s: string, k: string, i: int)
  {
    0 <= i && i + |k| <= |s| && s[i..i + |k|] == k
  }

  /** `Contains` means: some window of `s` spells `k`. */
  lemma {:induction false} ContainsAt(s: string, k: string)
    ensures Contains(s, k) <==> exists i :: OccursAt(s, k, i)
  {
    if s != [] {
      ContainsAt(s[1..], k);
      if k <= s {
        assert OccursAt(s, k, 0);
      }
      if Contains(s[1..], k) {
        var i :| OccursAt(s[1..], k, i);
        assert OccursAt(s, k, i + 1);
      }
      if exists i :: OccursAt(s, k, i) {
        var i :| OccursAt(s, k, i);
        if i > 0 {
          assert OccursAt(s[1..], k, i - 1);
        }
      }
    } else {
      if k == [] {
        assert OccursAt(s, k, 0);
      }
      if exists i :: OccursAt(s, k, i) {
        var i :| OccursAt(s, k, i);
        assert k == [];
      }
    }
  }
}
