/** Byte offsets into text.  The source cuts strings at byte offsets, and a cut inside a character
    panics; characters take one to four bytes (section 3 of RFC 3629). */
module Utf8 {
  import opened Wrappers

  function Width(c: char): nat {
    var code := c as int;
    if code < 0x80 then 1 else if code < 0x800 then 2 else if code < 0x1_0000 then 3 else 4
  }

  /** The payload of a character of `n` bytes, in values of its code. */
  function Capacity(n: nat): nat {
    match n
    case 1 => 0x80         // 7 bits
    case 2 => 0x20 * 0x40  // 5 + 6 bits
    case 3 => 0x10 * 0x40 * 0x40
    case 4 => 0x8 * 0x40 * 0x40 * 0x40
    case _ => 0
  }

  /** A character takes the fewest bytes that can hold its code. */
  lemma WidthIsShortest(c: char)
    ensures 1 <= Width(c) <= 4 && Capacity(Width(c) - 1) <= c as int < Capacity(Width(c))
  {
  }

  function Bytes(s: string): nat {
    if s == "" then 0 else Width(s[0]) + Bytes(s[1..])
  }

  /** The characters that make up the first `n` bytes, unless byte `n` is inside one or behind the end. */
  function Cut(s: string, n: nat): Option<string> {
    if n == 0 then Some("")
    else if s == "" || Width(s[0]) > n then None
    else
      var rest := Cut(s[1..], n - Width(s[0]));
      if rest.None? then None else Some([s[0]] + rest.value)
  }

  /** Text that is too long for `n` bytes and cannot be cut there. */
  predicate Splits(s: string, n: nat) {
    n < Bytes(s) && Cut(s, n).None?
  }

  /** The last `n` bytes cannot be cut off a longer text. */
  predicate SplitsTail(s: string, n: nat) {
    n < Bytes(s) && Cut(s, Bytes(s) - n).None?
  }

  lemma {:induction false} BytesOfConcat(a: string, b: string)
    ensures Bytes(a + b) == Bytes(a) + Bytes(b)
  {
    if a == "" {
      assert a + b == b;
    } else {
      assert (a + b)[1..] == a[1..] + b;
      BytesOfConcat(a[1..], b);
    }
  }

  /** A cut is a prefix of exactly `n` bytes. */
  lemma {:induction false} CutIsPrefix(s: string, n: nat)
    requires Cut(s, n).Some?
    ensures Cut(s, n).value <= s && Bytes(Cut(s, n).value) == n
  {
    if n == 0 {
      assert Cut(s, n) == Some("");
    } else {
      CutIsPrefix(s[1..], n - Width(s[0]));
      var rest := Cut(s[1..], n - Width(s[0])).value;
      assert ([s[0]] + rest)[1..] == rest;
      assert s == [s[0]] + s[1..];
    }
  }

  lemma {:induction false} PrefixIsCut(s: string, k: nat)
    requires k <= |s|
    ensures Cut(s, Bytes(s[..k])) == Some(s[..k])
  {
    if k == 0 {
      assert s[..k] == "";
    } else {
      assert s[..k][1..] == s[1..][..k - 1];
      PrefixIsCut(s[1..], k - 1);
      assert s[..k] == [s[0]] + s[1..][..k - 1];
    }
  }

  /** Text splits exactly when byte `n` lies inside one of its characters. */
  lemma {:induction false} SplitsIff(s: string, n: nat)
    ensures Splits(s, n) <==> exists k :: 0 <= k < |s| && Bytes(s[..k]) < n < Bytes(s[..k]) + Width(s[k])
  {
    if s == "" {
      assert Bytes(s) == 0;
    } else {
      assert s[..0] == "" && Bytes(s[..0]) == 0;
      if n < Width(s[0]) {
        if n > 0 {
          assert Bytes(s[..0]) < n < Bytes(s[..0]) + Width(s[0]);
        } else {
          assert !Splits(s, n);
        }
      } else {
        var m := n - Width(s[0]);
        SplitsIff(s[1..], m);
        assert Splits(s, n) <==> Splits(s[1..], m);
        forall k | 0 < k < |s| ensures Bytes(s[..k]) == Width(s[0]) + Bytes(s[1..][..k - 1]) && s[k] == s[1..][k - 1] {
          assert s[..k][1..] == s[1..][..k - 1];
        }
        if Splits(s, n) {
          var k :| 0 <= k < |s[1..]| && Bytes(s[1..][..k]) < m < Bytes(s[1..][..k]) + Width(s[1..][k]);
          assert s[1..][..(k + 1) - 1] == s[1..][..k];
          assert Bytes(s[..k + 1]) < n < Bytes(s[..k + 1]) + Width(s[k + 1]);
        }
      }
    }
  }

  function Repeat(c: char, n: nat): (s: string)
    ensures |s| == n && forall i :: 0 <= i < n ==> s[i] == c
  {
    if n == 0 then "" else [c] + Repeat(c, n - 1)
  }

  /** Text in three-byte characters splits at every offset that is not a multiple of three. */
  lemma {:induction false} RepeatSplits(c: char, count: nat, n: nat)
    requires Width(c) == 3
    ensures Bytes(Repeat(c, count)) == 3 * count
    ensures Splits(Repeat(c, count), n) <==> n < 3 * count && n % 3 != 0
  {
    if count == 0 {
      assert Bytes("") == 0;
    } else {
      assert Repeat(c, count)[1..] == Repeat(c, count - 1);
      RepeatSplits(c, count - 1, if n >= 3 then n - 3 else 0);
    }
  }
}
