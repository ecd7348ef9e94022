/**
 * The string operations of the JavaScript standard library that the Pokédex
 * relies on: `toLowerCase`, `toUpperCase`, `includes`, `split` with a
 * one-character separator and `padStart`. Case mapping is over ASCII letters
 * only; every other character is left as it is.
 */
module Text {

  /** `c.toLowerCase()` for ASCII. */
  function LowerChar(c: char): char
  {
    if 'A' <= c <= 'Z' then (c as int + 32) as char else c
  }

  /** `c.toUpperCase()` for ASCII. */
  function UpperChar(c: char): char
  {
    if 'a' <= c <= 'z' then (c as int - 32) as char else c
  }

  /** `s.toLowerCase()`. */
  function ToLower(s: string): string
  {
    seq(|s|, i requires 0 <= i < |s| => LowerChar(s[i]))
  }

  /** Lower-casing a string that is already lower-case changes nothing. */
  lemma ToLowerIdempotent(s: string)
    ensures ToLower(ToLower(s)) == ToLower(s)
  {
  }

  /** Upper-casing a character never changes what it lower-cases to. */
  lemma LowerOfUpper(c: char)
    ensures LowerChar(UpperChar(c)) == LowerChar(c)
  {
  }

  /** `hay.includes(needle)`: `needle` occurs in `hay` as a contiguous run. */
  predicate Contains(hay: string, needle: string)
    decreases |hay|
  {
    needle <= hay || (hay != [] && Contains(hay[1..], needle))
  }

  /** `needle` occurs in `hay` starting at index `i`. */
  ghost predicate OccursAt(hay: string, needle: string, i: int)
  {
    0 <= i && i + |needle| <= |hay| && hay[i..i + |needle|] == needle
  }

  /** `Contains` agrees with the positional definition of a substring, both ways. */
  lemma {:induction false} ContainsIffOccurs(hay: string, needle: string)
    ensures Contains(hay, needle) <==> exists i :: OccursAt(hay, needle, i)
    decreases |hay|
  {
    if needle <= hay {
      assert hay[0..|needle|] == needle;
      assert OccursAt(hay, needle, 0);
    } else if hay == [] {
      assert needle != [];
      assert forall i :: !OccursAt(hay, needle, i);
    } else {
      ContainsIffOccurs(hay[1..], needle);
      if exists j :: OccursAt(hay[1..], needle, j) {
        var j :| OccursAt(hay[1..], needle, j);
        assert hay[j + 1..j + 1 + |needle|] == hay[1..][j..j + |needle|];
        assert OccursAt(hay, needle, j + 1);
      }
      if exists i :: OccursAt(hay, needle, i) {
        var i :| OccursAt(hay, needle, i);
        assert i != 0;
        assert hay[1..][i - 1..i - 1 + |needle|] == hay[i..i + |needle|];
        assert OccursAt(hay[1..], needle, i - 1);
      }
    }
  }

  /** A string in which the needle's first character never occurs does not include it. */
  lemma {:induction false} MissingFirstCharacter(hay: string, needle: string)
    requires needle != [] && needle[0] !in hay
    ensures !Contains(hay, needle)
    decreases |hay|
  {
    if hay != [] {
      MissingFirstCharacter(hay[1..], needle);
    }
  }

  /** A string includes no needle longer than itself. */
  lemma {:induction false} ContainsNoLonger(hay: string, needle: string)
    ensures Contains(hay, needle) ==> |needle| <= |hay|
    decreases |hay|
  {
    if hay != [] {
      ContainsNoLonger(hay[1..], needle);
    }
  }

  /** The empty string is included in every string. */
  lemma ContainsEmpty(hay: string)
    ensures Contains(hay, "")
  {
  }

  /**
   * `s.split(sep)` for a one-character separator: the runs between
   * separators, in order, with an empty run wherever two separators meet or
   * a separator starts or ends the string.
   */
  function Split(s: string, sep: char): (parts: seq<string>)
    ensures |parts| >= 1
    ensures forall k :: 0 <= k < |parts| ==> sep !in parts[k]
    decreases |s|
  {
    if s == [] then [[]]
    else
      var rest := Split(s[1..], sep);
      if s[0] == sep then [[]] + rest else [[s[0]] + rest[0]] + rest[1..]
  }

  /** `parts.join(sep)`. */
  function Join(parts: seq<string>, sep: char): string
  {
    if parts == [] then []
    else if |parts| == 1 then parts[0]
    else parts[0] + [sep] + Join(parts[1..], sep)
  }

  /** Joining the pieces of a split with the same separator gives back the string. */
  lemma {:induction false} JoinSplit(s: string, sep: char)
    ensures Join(Split(s, sep), sep) == s
    decreases |s|
  {
    if s != [] {
      var rest := Split(s[1..], sep);
      JoinSplit(s[1..], sep);
      if s[0] == sep {
        assert Split(s, sep) == [[]] + rest;
        assert ([[]] + rest)[1..] == rest;
        assert s == [] + [sep] + s[1..];
      } else {
        var parts := Split(s, sep);
        assert parts == [[s[0]] + rest[0]] + rest[1..];
        if |rest| == 1 {
          assert Join(rest, sep) == rest[0];
        } else {
          assert parts[1..] == rest[1..];
          assert Join(rest, sep) == rest[0] + [sep] + Join(rest[1..], sep);
        }
      }
    }
  }

  /** A string without the separator splits into itself alone. */
  lemma {:induction false} SplitNoSeparator(s: string, sep: char)
    requires sep !in s
    ensures Split(s, sep) == [s]
    decreases |s|
  {
    if s != [] {
      SplitNoSeparator(s[1..], sep);
      assert [s[0]] + s[1..] == s;
    }
  }

  /** A split yields more than one piece exactly when the separator occurs. */
  lemma {:induction false} SplitSeveralIffSeparator(s: string, sep: char)
    ensures |Split(s, sep)| >= 2 <==> sep in s
    decreases |s|
  {
    if sep !in s {
      SplitNoSeparator(s, sep);
    } else if s[0] != sep {
      assert sep in s[1..];
      SplitSeveralIffSeparator(s[1..], sep);
    }
  }

  /** Splitting `x + sep + y`, where `y` holds no separator, ends with piece `y`. */
  lemma {:induction false} SplitLastPiece(x: string, y: string, sep: char)
    requires sep !in y
    ensures Split(x + [sep] + y, sep) == Split(x, sep) + [y]
    decreases |x|
  {
    var s := x + [sep] + y;
    if x == [] {
      assert s == [sep] + y;
      assert s[1..] == y;
      SplitNoSeparator(y, sep);
    } else {
      assert s[0] == x[0];
      assert s[1..] == x[1..] + [sep] + y;
      SplitLastPiece(x[1..], y, sep);
    }
  }

  /** `c` repeated `n` times. */
  function Repeat(c: char, n: nat): (r: string)
    ensures |r| == n
    ensures forall i :: 0 <= i < n ==> r[i] == c
  {
    seq(n, _ => c)
  }

  /**
   * `s.padStart(width, fill)` for a one-character fill: `s` itself when it is
   * already `width` long or longer, else `s` preceded by enough `fill`s.
   */
  function PadStart(s: string, width: nat, fill: char): (r: string)
    ensures |r| == if |s| < width then width else |s|
    ensures r[|r| - |s|..] == s
    ensures forall i :: 0 <= i < |r| - |s| ==> r[i] == fill
  {
    if |s| < width then Repeat(fill, width - |s|) + s else s
  }

}
