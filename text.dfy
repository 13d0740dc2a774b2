/** The few Go string operations the core relies on. A Go string is a byte sequence; here a
    string is a sequence of Unicode scalar values, and `Utf8Len` gives the byte length Go's
    `len` would report for its UTF-8 encoding. */
module Text {

  /** Number of bytes UTF-8 needs for one scalar value. */
  function Utf8Width(c: char): (w: nat)
    ensures 1 <= w <= 4
    ensures w == 1 <==> c as int < 0x80
  {
    if c as int < 0x80 then 1
    else if c as int < 0x800 then 2
    else if c as int < 0x1_0000 then 3
    else 4
  }

  /** Go's `len(s)`: the length of the UTF-8 encoding of `s`, in bytes. */
  function Utf8Len(s: string): (n: nat)
    ensures |s| <= n <= 4 * |s|
    ensures n == 0 <==> s == []
  {
    if s == [] then 0 else Utf8Width(s[0]) + Utf8Len(s[1..])
  }

  /** Only ASCII characters: then the byte length is the character count. */
  predicate IsAscii(s: string) {
    forall i :: 0 <= i < |s| ==> s[i] as int < 0x80
  }

  lemma {:induction false} AsciiByteLength(s: string)
    requires IsAscii(s)
    ensures Utf8Len(s) == |s|
  {
    if s != [] {
      assert IsAscii(s[1..]) by {
        forall i | 0 <= i < |s[1..]| ensures s[1..][i] as int < 0x80 {
          assert s[1..][i] == s[i + 1];
        }
      }
      AsciiByteLength(s[1..]);
    }
  }

  predicate AllSpaces(s: string) {
    forall i :: 0 <= i < |s| ==> s[i] == ' '
  }

  /** `strings.TrimLeft(s, " ")`. */
  function TrimLeftSpaces(s: string): (r: string)
    ensures |r| <= |s| && r == s[|s| - |r|..]
    ensures AllSpaces(s[..|s| - |r|])
    ensures r == [] || r[0] != ' '
  {
    if |s| > 0 && s[0] == ' ' then TrimLeftSpaces(s[1..]) else s
  }

  /** `strings.TrimRight(s, " ")`. */
  function TrimRightSpaces(s: string): (r: string)
    ensures |r| <= |s| && r == s[..|r|]
    ensures AllSpaces(s[|r|..])
    ensures r == [] || r[|r| - 1] != ' '
  {
    if |s| > 0 && s[|s| - 1] == ' ' then TrimRightSpaces(s[..|s| - 1]) else s
  }

  /** `strings.Trim(s, " ")`: drops every leading and trailing space, and nothing else. */
  function TrimSpaces(s: string): (r: string)
  {
    TrimRightSpaces(TrimLeftSpaces(s))
  }

  /** What is left after trimming is empty exactly when the string held nothing but spaces. */
  lemma TrimSpacesEmptyIff(s: string)
    ensures TrimSpaces(s) == [] <==> AllSpaces(s)
  {
    var l := TrimLeftSpaces(s);
    if TrimSpaces(s) == [] {
      assert AllSpaces(l[0..]);
      forall i | 0 <= i < |s| ensures s[i] == ' ' {
        if i < |s| - |l| {
          assert s[..|s| - |l|][i] == s[i];
        } else {
          assert l[i - (|s| - |l|)] == s[i];
        }
      }
    } else if AllSpaces(s) {
      assert false;
    }
  }

  /** Trimming keeps a contiguous middle part: the removed ends are spaces only. */
  lemma TrimSpacesIsInfix(s: string)
    ensures exists i, j {:trigger s[i..j]} :: 0 <= i <= j <= |s| && TrimSpaces(s) == s[i..j]
                                            && AllSpaces(s[..i]) && AllSpaces(s[j..])
  {
    var l := TrimLeftSpaces(s);
    var r := TrimRightSpaces(l);
    var i := |s| - |l|;
    var j := i + |r|;
    assert r == s[i..j];
    assert AllSpaces(s[j..]) by {
      assert s[j..] == l[|r|..];
    }
  }

  predicate HasPrefix(s: string, p: string) {
    |p| <= |s| && s[..|p|] == p
  }

  /** `strings.TrimPrefix(s, p)`: removes one leading `p` if present, otherwise returns `s`. */
  function TrimPrefix(s: string, p: string): (r: string)
    ensures HasPrefix(s, p) ==> p + r == s
    ensures !HasPrefix(s, p) ==> r == s
  {
    if HasPrefix(s, p) then s[|p|..] else s
  }
}
