/** The size in bytes of a string's UTF-8 encoding, which is what Kotlin's
    `String.toByteArray()` (UTF-8 by default) produces. A Dafny `char` is a
    Unicode scalar value, so a character outside the Basic Multilingual Plane,
    which Kotlin holds as a surrogate pair, is one `char` here and four bytes in
    both. */
module Utf8 {

  /** Bytes needed to encode one scalar value. */
  function Width(c: char): (n: nat)
    ensures 1 <= n <= 4
    ensures n == 1 <==> c as int < 0x80
  {
    if c as int < 0x80 then 1
    else if c as int < 0x800 then 2
    else if c as int < 0x1_0000 then 3
    else 4
  }

  /** Bytes in the UTF-8 encoding of `s`. */
  function Size(s: string): (n: nat)
    ensures |s| <= n <= 4 * |s|
  {
    if s == [] then 0 else Width(s[0]) + Size(s[1..])
  }

  predicate IsAscii(s: string)
  {
    forall i :: 0 <= i < |s| ==> s[i] as int < 0x80
  }

  /** The encoding of a concatenation is the concatenation of the encodings. */
  lemma {:induction false} SizeAppend(s: string, t: string)
    ensures Size(s + t) == Size(s) + Size(t)
  {
    if s == [] {
      assert s + t == t;
    } else {
      assert (s + t)[0] == s[0];
      assert (s + t)[1..] == s[1..] + t;
      SizeAppend(s[1..], t);
    }
  }

  /** Plain ASCII text takes one byte per character, and only ASCII text does. */
  lemma {:induction false} SizeAscii(s: string)
    ensures Size(s) == |s| <==> IsAscii(s)
  {
    if s != [] {
      SizeAscii(s[1..]);
      if IsAscii(s) {
        assert IsAscii(s[1..]) by {
          forall i | 0 <= i < |s[1..]| ensures s[1..][i] as int < 0x80 {
            assert s[1..][i] == s[i + 1];
          }
        }
      } else if IsAscii(s[1..]) {
        assert s[0] as int >= 0x80 by {
          forall i | 1 <= i < |s| ensures s[i] as int < 0x80 {
            assert s[i] == s[1..][i - 1];
          }
        }
      }
    }
  }
}
