/**
  JavaScript strings are sequences of UTF-16 code units, which is what their
  `length` counts and their `<` compares. The model keeps strings as sequences
  of characters and encodes them with `Values.Utf16`; this module proves that
  the encoding loses nothing (it decodes back), that it is compatible with `+`,
  and that the order it induces on strings is a strict total order.
 */
module StringFacts {
  import opened Syntax
  import opened Values

  /** Reads one character back from the front of `u`: a surrogate pair or a
      single unit. Units that no character encodes to give `None`. */
  function DecodeChar(u: seq<int>): (r: Option<(char, nat)>)
    requires u != []
    ensures r.Some? ==> 1 <= r.value.1 <= |u|
  {
    if 0xD800 <= u[0] < 0xDC00 && |u| >= 2 && 0xDC00 <= u[1] < 0xE000 then
      var c := (u[0] - 0xD800) * 0x400 + (u[1] - 0xDC00) + 0x1_0000;
      assert 0x1_0000 <= c < 0x11_0000;
      Some((c as char, 2))
    else if 0 <= u[0] < 0xD800 || 0xE000 <= u[0] < 0x1_0000 then Some((u[0] as char, 1))
    else None
  }

  /** The string whose UTF-16 units are `u`, when there is one. */
  function FromUtf16(u: seq<int>): (r: Option<string>)
    decreases |u|
  {
    if u == [] then Some([])
    else
      match DecodeChar(u)
      case None => None
      case Some((c, k)) =>
        match FromUtf16(u[k..])
        case None => None
        case Some(rest) => Some([c] + rest)
  }

  lemma Utf16CharDecodes(c: char, tail: seq<int>)
    ensures DecodeChar(Utf16Char(c) + tail) == Some((c, |Utf16Char(c)|))
  {
    var u := Utf16Char(c) + tail;
    if c as int >= 0x1_0000 {
      var v := c as int - 0x1_0000;
      var hi, lo := v / 0x400, v % 0x400;
      assert v == hi * 0x400 + lo;
      assert u[0] == 0xD800 + hi && u[1] == 0xDC00 + lo;
      assert (u[0] - 0xD800) * 0x400 + (u[1] - 0xDC00) + 0x1_0000 == c as int;
    } else {
      assert u[0] == c as int;
    }
  }

  /** Encoding then decoding gives back the string: no two strings share
      their code units. */
  lemma {:induction false} Utf16RoundTrip(s: string)
    ensures FromUtf16(Utf16(s)) == Some(s)
  {
    if s != [] {
      var head := Utf16Char(s[0]);
      var u := Utf16(s);
      assert u == head + Utf16(s[1..]);
      Utf16CharDecodes(s[0], Utf16(s[1..]));
      assert u[|head|..] == Utf16(s[1..]);
      Utf16RoundTrip(s[1..]);
      assert [s[0]] + s[1..] == s;
    }
  }

  lemma Utf16Injective(s: string, t: string)
    requires Utf16(s) == Utf16(t)
    ensures s == t
  {
    Utf16RoundTrip(s);
    Utf16RoundTrip(t);
  }

  /** The units of a concatenation are the units of its parts. */
  lemma {:induction false} Utf16Append(s: string, t: string)
    ensures Utf16(s + t) == Utf16(s) + Utf16(t)
  {
    if s != [] {
      assert (s + t)[0] == s[0] && (s + t)[1..] == s[1..] + t;
      Utf16Append(s[1..], t);
    } else {
      assert s + t == t;
    }
  }

  /** `length` adds up over `+`. */
  lemma LengthOfConcatenation(s: string, t: string)
    ensures Length(s + t) == Length(s) + Length(t)
  {
    Utf16Append(s, t);
  }

  /** The number of characters of `s` above U+FFFF. */
  function Astral(s: string): nat
  {
    if s == [] then 0 else (if s[0] as int < 0x1_0000 then 0 else 1) + Astral(s[1..])
  }

  /** `length` counts one unit per character and one more for each character
      above U+FFFF; so it equals the character count exactly when there is
      no such character. */
  lemma {:induction false} LengthCountsUnits(s: string)
    ensures Length(s) == |s| + Astral(s)
    ensures Length(s) == |s| <==> forall k :: 0 <= k < |s| ==> s[k] as int < 0x1_0000
  {
    if s != [] {
      LengthCountsUnits(s[1..]);
      assert forall k :: 1 <= k < |s| ==> s[1..][k - 1] == s[k];
    }
  }

  /** A character above U+FFFF has length 2 and sorts before U+FFFF, as in
      JavaScript; by character code it would be one character sorting after. */
  lemma AstralExample()
    ensures Length("\U{1F600}") == 2
    ensures StrLess("\U{1F600}", "\U{FFFF}")
    ensures !StrLess("\U{FFFF}", "\U{1F600}")
  {
    assert Utf16("\U{1F600}") == [0xD83D, 0xDE00];
    assert Utf16("\U{FFFF}") == [0xFFFF];
  }

  lemma {:induction false} UnitsLessIrreflexive(u: seq<int>)
    ensures !UnitsLess(u, u)
  {
    if u != [] {
      UnitsLessIrreflexive(u[1..]);
    }
  }

  lemma {:induction false} UnitsLessTransitive(u: seq<int>, v: seq<int>, x: seq<int>)
    requires UnitsLess(u, v) && UnitsLess(v, x)
    ensures UnitsLess(u, x)
  {
    if u != [] && v != [] && x != [] && u[0] == v[0] && v[0] == x[0] {
      UnitsLessTransitive(u[1..], v[1..], x[1..]);
    }
  }

  lemma {:induction false} UnitsLessTotal(u: seq<int>, v: seq<int>)
    requires u != v
    ensures UnitsLess(u, v) || UnitsLess(v, u)
  {
    if u != [] && v != [] && u[0] == v[0] {
      assert u == [u[0]] + u[1..] && v == [v[0]] + v[1..];
      UnitsLessTotal(u[1..], v[1..]);
    }
  }

  /** String `<` is a strict total order: irreflexive, transitive, and
      exactly one of `s < t`, `t < s`, `s == t` holds. */
  lemma StrLessIsStrictTotalOrder(s: string, t: string, x: string)
    ensures !StrLess(s, s)
    ensures StrLess(s, t) && StrLess(t, x) ==> StrLess(s, x)
    ensures s != t ==> StrLess(s, t) || StrLess(t, s)
    ensures !(StrLess(s, t) && StrLess(t, s))
  {
    UnitsLessIrreflexive(Utf16(s));
    if StrLess(s, t) && StrLess(t, x) {
      UnitsLessTransitive(Utf16(s), Utf16(t), Utf16(x));
    }
    if s != t {
      if Utf16(s) == Utf16(t) {
        Utf16Injective(s, t);
      }
      UnitsLessTotal(Utf16(s), Utf16(t));
    }
    if StrLess(s, t) && StrLess(t, s) {
      UnitsLessTransitive(Utf16(s), Utf16(t), Utf16(s));
    }
  }
}
