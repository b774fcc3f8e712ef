/** The string operations the pages use: toLowerCase (ASCII letters only),
    includes, trim, split on one character and join. */
module Text {

  /** toLowerCase on one character, for the ASCII letters A-Z: the result
      is never an upper-case letter, a character changes exactly when it is
      one, and letters stay letters of the same alphabet position */
  function LowerChar(c: char): (r: char)
    ensures !('A' <= r <= 'Z')
    ensures r != c <==> 'A' <= c <= 'Z'
    ensures 'a' <= r <= 'z' <==> ('A' <= c <= 'Z' || 'a' <= c <= 'z')
    ensures 'A' <= c <= 'Z' ==> r as int - 'a' as int == c as int - 'A' as int
  {
    if 'A' <= c <= 'Z' then (c as int + 32) as char else c
  }

  function Lower(s: string): (r: string)
    ensures |r| == |s|
    ensures forall i :: 0 <= i < |s| ==> r[i] == LowerChar(s[i])
  {
    if s == [] then [] else [LowerChar(s[0])] + Lower(s[1..])
  }

  lemma {:induction false} LowerIdempotent(s: string)
    ensures Lower(Lower(s)) == Lower(s)
  {
    assert forall i :: 0 <= i < |s| ==> LowerChar(LowerChar(s[i])) == LowerChar(s[i]);
  }

  predicate StartsWith(s: string, prefix: string) {
    |prefix| <= |s| && s[..|prefix|] == prefix
  }

  /** String.prototype.includes: needle occurs in hay as a contiguous run */
  predicate Contains(hay: string, needle: string)
    decreases |hay|
  {
    StartsWith(hay, needle) || (hay != [] && Contains(hay[1..], needle))
  }

  /** needle occurs in hay starting at index i */
  predicate OccursAt(hay: string, needle: string, i: int) {
    0 <= i && i + |needle| <= |hay| && hay[i..i + |needle|] == needle
  }

  /** Contains agrees with the positional definition of a substring */
  lemma {:induction false} ContainsIff(hay: string, needle: string)
    ensures Contains(hay, needle) <==> exists i :: OccursAt(hay, needle, i)
  {
    if hay != [] {
      ContainsIff(hay[1..], needle);
      if exists i :: OccursAt(hay, needle, i) {
        var i :| OccursAt(hay, needle, i);
        if i > 0 {
          assert OccursAt(hay[1..], needle, i - 1);
        }
      }
      if Contains(hay[1..], needle) {
        var i :| OccursAt(hay[1..], needle, i);
        assert hay[1..][i..i + |needle|] == hay[i + 1..i + 1 + |needle|];
        assert OccursAt(hay, needle, i + 1);
      }
      if StartsWith(hay, needle) {
        assert OccursAt(hay, needle, 0);
      }
    } else {
      if Contains(hay, needle) {
        assert OccursAt(hay, needle, 0);
      }
      if exists i :: OccursAt(hay, needle, i) {
        var i :| OccursAt(hay, needle, i);
        assert i == 0 && needle == [];
      }
    }
  }

  /** includes('') holds of every string */
  lemma {:induction false} ContainsEmpty(hay: string)
    ensures Contains(hay, "")
  {
    assert StartsWith(hay, "");
  }

  /** `hay.toLowerCase().includes(term.toLowerCase())` */
  predicate ContainsIgnoringCase(hay: string, term: string) {
    Contains(Lower(hay), Lower(term))
  }

  /** Case-insensitive matching does not depend on the case of either side */
  lemma {:induction false} CaseOfEitherSideIrrelevant(hay: string, term: string)
    ensures ContainsIgnoringCase(Lower(hay), term) == ContainsIgnoringCase(hay, term)
    ensures ContainsIgnoringCase(hay, Lower(term)) == ContainsIgnoringCase(hay, term)
  {
    LowerIdempotent(hay);
    LowerIdempotent(term);
  }

  /** `filter(Boolean)` on strings: only the empty string is falsy */
  predicate NonEmpty(s: string) {
    s != ""
  }

  // ------------------------------------------------------------------ trim

  /** The characters String.prototype.trim removes: the ECMAScript
      WhiteSpace and LineTerminator code points */
  predicate IsWhitespace(c: char) {
    c == ' ' || c == '\t' || c == '\n' || c == '\r'
    || c as int == 0x0B || c as int == 0x0C || c as int == 0xA0
    || c as int == 0x1680 || 0x2000 <= c as int <= 0x200A
    || c as int == 0x2028 || c as int == 0x2029 || c as int == 0x202F
    || c as int == 0x205F || c as int == 0x3000 || c as int == 0xFEFF
  }

  /** neither starts nor ends with whitespace */
  predicate IsTrimmed(s: string) {
    s == [] || (!IsWhitespace(s[0]) && !IsWhitespace(s[|s| - 1]))
  }

  function TrimStart(s: string): (r: string)
    ensures |r| <= |s| && r == s[|s| - |r|..]
    ensures r == [] || !IsWhitespace(r[0])
    ensures forall i :: 0 <= i < |s| - |r| ==> IsWhitespace(s[i])
  {
    if s != [] && IsWhitespace(s[0]) then TrimStart(s[1..]) else s
  }

  function TrimEnd(s: string): (r: string)
    ensures |r| <= |s| && r == s[..|r|]
    ensures r == [] || !IsWhitespace(r[|r| - 1])
    ensures forall i :: |r| <= i < |s| ==> IsWhitespace(s[i])
  {
    if s != [] && IsWhitespace(s[|s| - 1]) then TrimEnd(s[..|s| - 1]) else s
  }

  /** String.prototype.trim */
  function Trim(s: string): string {
    TrimEnd(TrimStart(s))
  }

  /** where trim's result starts in its input */
  function TrimOffset(s: string): (k: nat)
    ensures k <= |s|
  {
    |s| - |TrimStart(s)|
  }

  /** trim's result is trimmed and is a contiguous piece of its input */
  lemma {:induction false} TrimSpec(s: string)
    ensures IsTrimmed(Trim(s))
    ensures TrimOffset(s) + |Trim(s)| <= |s|
    ensures Trim(s) == s[TrimOffset(s)..TrimOffset(s) + |Trim(s)|]
  {
    TrimIsTrimmed(s);
    TrimIsSlice(s);
  }

  lemma {:induction false} TrimIsSlice(s: string)
    ensures TrimOffset(s) + |Trim(s)| <= |s|
    ensures Trim(s) == s[TrimOffset(s)..TrimOffset(s) + |Trim(s)|]
  {
    var a := TrimStart(s);
    var b := TrimEnd(a);
    var k := |s| - |a|;
    assert a == s[k..] && b == a[..|b|];
    SliceOfSuffix(s, k, |b|);
  }

  lemma {:induction false} TrimIsTrimmed(s: string)
    ensures IsTrimmed(Trim(s))
  {
    var a := TrimStart(s);
    var b := TrimEnd(a);
    if b != [] {
      assert b[0] == a[0];
    }
  }

  lemma SliceOfSuffix(s: string, k: nat, n: nat)
    requires k + n <= |s|
    ensures s[k..][..n] == s[k..k + n]
  {
  }

  /** trimming never introduces a character */
  lemma {:induction false} TrimKeepsOnlyOwnChars(s: string, c: char)
    requires c in Trim(s)
    ensures c in s
  {
    TrimSpec(s);
    var k := TrimOffset(s);
    var i :| 0 <= i < |Trim(s)| && Trim(s)[i] == c;
    assert s[k + i] == c;
  }

  /** A trimmed string preceded by whitespace trims back to itself */
  lemma {:induction false} TrimLeadingSpace(t: string, ws: string)
    requires IsTrimmed(t)
    requires forall i :: 0 <= i < |ws| ==> IsWhitespace(ws[i])
    ensures Trim(ws + t) == t
  {
    TrimStartDropsWhitespace(ws, t);
    if t != [] {
      assert TrimEnd(t) == t;
    }
  }

  lemma {:induction false} TrimStartDropsWhitespace(ws: string, t: string)
    requires forall i :: 0 <= i < |ws| ==> IsWhitespace(ws[i])
    requires t == [] || !IsWhitespace(t[0])
    ensures TrimStart(ws + t) == t
  {
    if ws != [] {
      assert (ws + t)[1..] == ws[1..] + t;
      TrimStartDropsWhitespace(ws[1..], t);
    } else {
      assert ws + t == t;
    }
  }

  // ----------------------------------------------------------- split, join

  /** String.prototype.split with a one-character separator: always at least
      one piece, and no piece contains the separator */
  function Split(s: string, sep: char): (r: seq<string>)
    ensures |r| >= 1
    ensures forall i :: 0 <= i < |r| ==> sep !in r[i]
  {
    if s == [] then [""]
    else
      var rest := Split(s[1..], sep);
      if s[0] == sep then [""] + rest
      else [[s[0]] + rest[0]] + rest[1..]
  }

  /** Array.prototype.join */
  function Join(parts: seq<string>, sep: string): string {
    if parts == [] then ""
    else if |parts| == 1 then parts[0]
    else parts[0] + sep + Join(parts[1..], sep)
  }

  /** Joining the pieces of a split with the separator restores the string */
  lemma {:induction false} JoinSplit(s: string, sep: char)
    ensures Join(Split(s, sep), [sep]) == s
  {
    if s != [] {
      var rest := Split(s[1..], sep);
      JoinSplit(s[1..], sep);
      if s[0] == sep {
        assert ([""] + rest)[1..] == rest;
        assert s == [sep] + s[1..];
      } else {
        var r := [[s[0]] + rest[0]] + rest[1..];
        if |rest| == 1 {
          assert s == [s[0]] + rest[0];
        } else {
          assert r[1..] == rest[1..];
          assert Join(rest, [sep]) == rest[0] + [sep] + Join(rest[1..], [sep]);
          assert s == [s[0]] + s[1..];
        }
      }
    }
  }

  /** Splitting a join of separator-free pieces gives the pieces back */
  lemma {:induction false} SplitJoin(parts: seq<string>, sep: char)
    requires |parts| >= 1
    requires forall i :: 0 <= i < |parts| ==> sep !in parts[i]
    ensures Split(Join(parts, [sep]), sep) == parts
  {
    if |parts| == 1 {
      SplitFree(parts[0], sep);
    } else {
      SplitJoin(parts[1..], sep);
      SplitPieceThenRest(parts[0], Join(parts[1..], [sep]), sep);
      assert [parts[0]] + parts[1..] == parts;
    }
  }

  /** a separator-free string splits into itself */
  lemma {:induction false} SplitFree(s: string, sep: char)
    requires sep !in s
    ensures Split(s, sep) == [s]
  {
    if s != [] {
      SplitFree(s[1..], sep);
      assert s == [s[0]] + s[1..];
    }
  }

  /** split(p + sep + t) puts p in front of split(t) */
  lemma {:induction false} SplitPieceThenRest(p: string, t: string, sep: char)
    requires sep !in p
    ensures Split(p + [sep] + t, sep) == [p] + Split(t, sep)
  {
    if p == [] {
      assert p + [sep] + t == [sep] + t;
      assert ([sep] + t)[1..] == t;
    } else {
      SplitPieceThenRest(p[1..], t, sep);
      assert (p + [sep] + t)[1..] == p[1..] + [sep] + t;
      var rest := Split(p[1..] + [sep] + t, sep);
      assert rest[0] == p[1..] && rest[1..] == Split(t, sep);
      assert [p[0]] + p[1..] == p;
    }
  }
}
