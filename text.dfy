/** The two string operations the contact search uses: `toLowerCase` and
    `includes`. Lower-casing is ASCII only. */
module Text {

  function LowerChar(c: char): char
  {
    if 'A' <= c <= 'Z' then (c as int + 32) as char else c
  }

  /** `s.toLowerCase()`, restricted to the ASCII letters. */
  function Lower(s: string): (r: string)
    ensures |r| == |s|
  {
    seq(|s|, i requires 0 <= i < |s| => LowerChar(s[i]))
  }

  /** Lower-casing twice is lower-casing once. */
  lemma LowerIdempotent(s: string)
    ensures Lower(Lower(s)) == Lower(s)
  {
  }

  /** `hay.includes(needle)`: `needle` occurs somewhere in `hay`. */
  predicate Contains(hay: string, needle: string)
    decreases |hay|
  {
    needle <= hay || (hay != [] && Contains(hay[1..], needle))
  }

  /** `Contains` finds exactly the positions at which `needle` starts in `hay`. */
  lemma {:induction false} ContainsAt(hay: string, needle: string)
    ensures Contains(hay, needle) <==> exists i :: 0 <= i <= |hay| && needle <= hay[i..]
    decreases |hay|
  {
    if needle <= hay {
      assert needle <= hay[0..];
    } else if hay == [] {
    } else {
      ContainsAt(hay[1..], needle);
      if Contains(hay[1..], needle) {
        var j :| 0 <= j <= |hay[1..]| && needle <= hay[1..][j..];
        assert hay[1..][j..] == hay[j + 1..];
      }
      if i :| 0 <= i <= |hay| && needle <= hay[i..] {
        assert i != 0;
        assert hay[1..][i - 1..] == hay[i..];
      }
    }
  }

  /** Every string contains itself, and every string contains the empty string. */
  lemma ContainsSelfAndEmpty(s: string)
    ensures Contains(s, s) && Contains(s, "")
  {
  }

}
