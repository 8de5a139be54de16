/** The JavaScript string operations the views use: `toLowerCase`, `toUpperCase` on
    the first character, `includes` and `startsWith`, over ASCII only. */
module Text {

  predicate IsUpperAscii(c: char)
  {
    'A' <= c <= 'Z'
  }

  predicate IsLowerAscii(c: char)
  {
    'a' <= c <= 'z'
  }

  function LowerChar(c: char): (r: char)
    ensures !IsUpperAscii(r)
    ensures IsLowerAscii(r) <==> IsLowerAscii(c) || IsUpperAscii(c)
  {
    if IsUpperAscii(c) then (c as int + 32) as char else c
  }

  function UpperChar(c: char): (r: char)
    ensures !IsLowerAscii(r)
    ensures IsLowerAscii(c) ==> LowerChar(r) == c
  {
    if IsLowerAscii(c) then (c as int - 32) as char else c
  }

  /** `s.toLowerCase()`, character by character. */
  function Lower(s: string): string
  {
    if s == [] then [] else Lower(s[..|s| - 1]) + [LowerChar(s[|s| - 1])]
  }

  /** No upper-case ASCII letter occurs in the text. */
  predicate NoUpper(s: string)
  {
    forall i :: 0 <= i < |s| ==> !IsUpperAscii(s[i])
  }

  lemma {:induction false} LowerAt(s: string)
    ensures |Lower(s)| == |s|
    ensures forall i :: 0 <= i < |s| ==> Lower(s)[i] == LowerChar(s[i])
  {
    if s != [] {
      LowerAt(s[..|s| - 1]);
    }
  }

  /** Lower-casing leaves a text without upper-case letters unchanged ... */
  lemma LowerOfNoUpper(s: string)
    requires NoUpper(s)
    ensures Lower(s) == s
  {
    LowerAt(s);
  }

  /** ... so lower-casing twice is lower-casing once. */
  lemma LowerIdempotent(s: string)
    ensures Lower(Lower(s)) == Lower(s)
  {
    LowerAt(s);
    LowerOfNoUpper(Lower(s));
  }

  /** `s.charAt(0).toUpperCase() + s.slice(1)`; the empty text stays empty. */
  function Capitalize(s: string): string
  {
    if s == [] then [] else [UpperChar(s[0])] + s[1..]
  }

  /** The label is the name with its first letter upper-cased and the rest kept, and
      lower-casing it gives back a lower-case name. */
  lemma CapitalizeInverse(s: string)
    requires NoUpper(s)
    ensures |Capitalize(s)| == |s|
    ensures s != [] ==> Capitalize(s)[0] == UpperChar(s[0]) && Capitalize(s)[1..] == s[1..]
    ensures Lower(Capitalize(s)) == s
  {
    var c := Capitalize(s);
    LowerAt(c);
    if s != [] {
      assert c[0] == UpperChar(s[0]);
      assert LowerChar(c[0]) == s[0];
    }
  }

  /** `s.includes(sub)`: `sub` occurs at some position; the empty text occurs everywhere. */
  predicate Contains(s: string, sub: string)
  {
    sub <= s || (s != [] && Contains(s[1..], sub))
  }

  /** An index-based reading of `includes`: some suffix of `s` starts with `sub`. */
  ghost predicate OccursAt(s: string, sub: string, i: int)
  {
    0 <= i <= |s| && sub <= s[i..]
  }

  lemma {:induction false} ContainsIffOccurs(s: string, sub: string)
    ensures Contains(s, sub) <==> exists i :: OccursAt(s, sub, i)
  {
    if sub <= s {
      assert OccursAt(s, sub, 0);
    } else if s == [] {
      forall i | OccursAt(s, sub, i) ensures false {
      }
    } else {
      ContainsIffOccurs(s[1..], sub);
      if Contains(s[1..], sub) {
        var i :| OccursAt(s[1..], sub, i);
        assert s[1..][i..] == s[i + 1..];
        assert OccursAt(s, sub, i + 1);
      } else {
        forall i | OccursAt(s, sub, i) ensures false {
          if i != 0 {
            assert s[1..][i - 1..] == s[i..];
            assert OccursAt(s[1..], sub, i - 1);
          }
        }
      }
    }
  }

  lemma ContainsEmpty(s: string)
    ensures Contains(s, "")
  {
  }

  /** An occurrence never is longer than the text it occurs in. */
  lemma {:induction false} ContainsShorter(s: string, sub: string)
    requires Contains(s, sub)
    ensures |sub| <= |s|
  {
    if !(sub <= s) {
      ContainsShorter(s[1..], sub);
    }
  }
}
