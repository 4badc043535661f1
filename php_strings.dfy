/** The few PHP string built-ins and comparison rules the model generator relies on:
    `explode`, `implode`, `strstr`, ASCII lower-casing (standing for `Str::lower`),
    `empty` on strings and the loose `==` between a boolean and an integer. */
module PhpStrings {

  datatype Option<+T> = None | Some(value: T)

  // ---------------------------------------------------------------------------
  // Lower-casing
  // ---------------------------------------------------------------------------

  /** One character, lower-cased as `strtolower` does for ASCII. */
  function LowerChar(c: char): char
  {
    if 'A' <= c <= 'Z' then (c as int + 32) as char else c
  }

  /** `Str::lower`, restricted to ASCII letters. */
  function Lower(s: string): (r: string)
    ensures |r| == |s|
  {
    if s == [] then [] else [LowerChar(s[0])] + Lower(s[1..])
  }

  /** Each character is lower-cased in place, and no upper-case ASCII letter is left. */
  lemma {:induction false} LowerCharwise(s: string)
    ensures forall i :: 0 <= i < |s| ==> Lower(s)[i] == LowerChar(s[i])
    ensures forall i :: 0 <= i < |s| ==> !('A' <= Lower(s)[i] <= 'Z')
  {
    if s != [] {
      LowerCharwise(s[1..]);
      assert Lower(s) == [LowerChar(s[0])] + Lower(s[1..]);
    }
  }

  /** Lower-casing works character by character, so it distributes over concatenation. */
  lemma {:induction false} LowerConcat(a: string, b: string)
    ensures Lower(a + b) == Lower(a) + Lower(b)
  {
    if a != [] {
      assert (a + b)[1..] == a[1..] + b;
      LowerConcat(a[1..], b);
    } else {
      assert a + b == b;
    }
  }

  /** Lower-casing twice is lower-casing once. */
  lemma {:induction false} LowerIdempotent(s: string)
    ensures Lower(Lower(s)) == Lower(s)
  {
    if s != [] {
      LowerIdempotent(s[1..]);
    }
  }

  /** A string without upper-case ASCII letters is its own lower-casing. */
  lemma {:induction false} LowerOfLowerCase(s: string)
    requires forall i :: 0 <= i < |s| ==> !('A' <= s[i] <= 'Z')
    ensures Lower(s) == s
  {
    if s != [] {
      LowerOfLowerCase(s[1..]);
      assert [s[0]] + s[1..] == s;
    }
  }

  /** A character that is not an ASCII letter is found in the lower-cased string exactly
      where it was found in the original one. */
  lemma {:induction false} LowerKeepsChar(s: string, c: char)
    requires !('A' <= c <= 'Z') && !('a' <= c <= 'z')
    ensures c in Lower(s) <==> c in s
  {
    if s != [] {
      LowerKeepsChar(s[1..], c);
      assert Lower(s) == [LowerChar(s[0])] + Lower(s[1..]);
      assert s == [s[0]] + s[1..];
    }
  }

  // ---------------------------------------------------------------------------
  // explode / implode
  // ---------------------------------------------------------------------------

  /** `explode(sep, s)`: the maximal pieces of `s` between occurrences of `sep`.
      There is always at least one piece (`explode(':', "")` is `[""]`), there are at
      least two exactly when `sep` occurs, and no piece contains `sep`. */
  function Explode(sep: char, s: string): (parts: seq<string>)
    ensures |parts| >= 1
    ensures sep in s <==> |parts| >= 2
    ensures forall i :: 0 <= i < |parts| ==> sep !in parts[i]
  {
    if s == [] then [""]
    else
      var rest := Explode(sep, s[1..]);
      assert s == [s[0]] + s[1..];
      if s[0] == sep then [""] + rest
      else [[s[0]] + rest[0]] + rest[1..]
  }

  /** `implode(sep, parts)`: the pieces joined with `sep` between neighbours. */
  function Implode(sep: char, parts: seq<string>): (s: string)
    ensures parts == [] ==> s == ""
    ensures |parts| >= 1 ==> parts[0] <= s
    ensures |parts| == 1 ==> s == parts[0]
    ensures |parts| >= 2 ==> |s| > |parts[0]| && s[|parts[0]|] == sep
  {
    if parts == [] then ""
    else if |parts| == 1 then parts[0]
    else parts[0] + [sep] + Implode(sep, parts[1..])
  }

  /** Joining the pieces of `explode` with the same separator gives the string back. */
  lemma {:induction false} ImplodeExplode(sep: char, s: string)
    ensures Implode(sep, Explode(sep, s)) == s
  {
    if s != [] {
      var rest := Explode(sep, s[1..]);
      ImplodeExplode(sep, s[1..]);
      if s[0] == sep {
        assert Explode(sep, s) == [""] + rest;
        assert ([""] + rest)[1..] == rest;
      } else {
        var parts := [[s[0]] + rest[0]] + rest[1..];
        assert Explode(sep, s) == parts;
        if |rest| == 1 {
          assert Implode(sep, rest) == rest[0];
        } else {
          assert parts[1..] == rest[1..];
          assert Implode(sep, rest) == rest[0] + [sep] + Implode(sep, rest[1..]);
        }
      }
    }
  }

  /** A first piece free of `sep`, then `sep`, then anything: `explode` cuts at that `sep`. */
  lemma {:induction false} ExplodeAtFirst(sep: char, a: string, b: string)
    requires sep !in a
    ensures Explode(sep, a + [sep] + b) == [a] + Explode(sep, b)
  {
    if a == [] {
      assert a + [sep] + b == [sep] + b;
      assert ([sep] + b)[1..] == b;
    } else {
      assert (a + [sep] + b)[1..] == a[1..] + [sep] + b;
      ExplodeAtFirst(sep, a[1..], b);
      assert [a[0]] + a[1..] == a;
    }
  }

  /** A string without `sep` explodes into itself alone. */
  lemma {:induction false} ExplodeWithoutSep(sep: char, s: string)
    requires sep !in s
    ensures Explode(sep, s) == [s]
  {
    if s != [] {
      ExplodeWithoutSep(sep, s[1..]);
      assert [s[0]] + s[1..] == s;
    }
  }

  /** The other round trip: pieces free of `sep`, joined, explode back into the same pieces. */
  lemma {:induction false} ExplodeImplode(sep: char, parts: seq<string>)
    requires |parts| >= 1
    requires forall i :: 0 <= i < |parts| ==> sep !in parts[i]
    ensures Explode(sep, Implode(sep, parts)) == parts
  {
    if |parts| == 1 {
      ExplodeWithoutSep(sep, parts[0]);
    } else {
      ExplodeImplode(sep, parts[1..]);
      ExplodeAtFirst(sep, parts[0], Implode(sep, parts[1..]));
      assert [parts[0]] + parts[1..] == parts;
    }
  }

  // ---------------------------------------------------------------------------
  // strstr and PHP truthiness
  // ---------------------------------------------------------------------------

  /** `strstr(haystack, needle)` for a one-character needle: the tail of `haystack` from the
      first occurrence of `needle`, or `false` (here `None`) when there is none. */
  function StrStr(haystack: string, needle: char): (r: Option<string>)
    ensures r.None? <==> needle !in haystack
    ensures r.Some? ==> && |r.value| >= 1 && r.value[0] == needle
                        && |r.value| <= |haystack|
                        && haystack[|haystack| - |r.value|..] == r.value
                        && needle !in haystack[..|haystack| - |r.value|]
  {
    if haystack == [] then None
    else if haystack[0] == needle then Some(haystack)
    else StrStr(haystack[1..], needle)
  }

  /** PHP's `empty` on a string: the empty string and "0" are both empty. */
  predicate PhpEmpty(s: string)
  {
    s == "" || s == "0"
  }

  /** Truthiness of a `strstr` result: `false` is falsy, and so are "" and "0"; every
      string of two characters or more is truthy. */
  predicate Truthy(r: Option<string>): (b: bool)
    ensures b ==> r.Some? && r.value != ""
    ensures r.Some? && |r.value| >= 2 ==> b
  {
    r.Some? && !PhpEmpty(r.value)
  }

  /** For any needle other than '0', `strstr` is truthy exactly when the needle occurs. */
  lemma {:induction false} StrStrTruthy(haystack: string, needle: char)
    requires needle != '0'
    ensures Truthy(StrStr(haystack, needle)) <==> needle in haystack
  {
    if haystack != [] && haystack[0] != needle {
      StrStrTruthy(haystack[1..], needle);
      assert haystack == [haystack[0]] + haystack[1..];
    }
  }

  /** PHP's loose `==` between a boolean and an integer: the integer is read as a boolean. */
  function LooseEqualsBoolInt(b: bool, n: int): bool
  {
    b == (n != 0)
  }
}
