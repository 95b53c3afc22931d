/**
 * String helpers used by the Python backends and the JavaScript pages:
 * ASCII lower-casing, whitespace stripping, splitting on one character,
 * first-occurrence search for a substring, and the code-point
 * lexicographic order used by Python's `sorted` on strings.
 */
module Text {
  import opened Basics

  // ---------------------------------------------------------------- case

  /** `str.lower()` / `toLowerCase()` restricted to ASCII letters. */
  function LowerChar(c: char): char {
    if 'A' <= c <= 'Z' then (c as int + 32) as char else c
  }

  function Lower(s: string): (r: string)
    ensures |r| == |s|
    ensures forall i :: 0 <= i < |s| ==> r[i] == LowerChar(s[i])
  {
    seq(|s|, i requires 0 <= i < |s| => LowerChar(s[i]))
  }

  lemma LowerIdempotent(s: string)
    ensures Lower(Lower(s)) == Lower(s)
  {
    assert forall i :: 0 <= i < |s| ==> Lower(Lower(s))[i] == Lower(s)[i];
  }

  // ---------------------------------------------------------- whitespace

  /** Whose notion of whitespace a strip uses. */
  datatype Runtime = Python | JavaScript

  /**
   * The ASCII whitespace that `str.strip()` (Python) or `String.prototype.trim()`
   * (JavaScript) removes: both remove space and tab to carriage return, and
   * Python's `isspace` also holds for the separators U+001C to U+001F.
   */
  predicate IsSpace(c: char, rt: Runtime) {
    c == ' ' || 9 <= c as int <= 13 || (rt == Python && 28 <= c as int <= 31)
  }

  /** Drops leading whitespace: the result is the suffix of `s` after a whitespace-only run. */
  function StripStart(s: string, rt: Runtime): (r: string)
    ensures |r| <= |s| && r == s[|s| - |r|..]
    ensures r == [] || !IsSpace(r[0], rt)
    ensures forall k :: 0 <= k < |s| - |r| ==> IsSpace(s[k], rt)
  {
    if |s| > 0 && IsSpace(s[0], rt) then StripStart(s[1..], rt) else s
  }

  /** Drops trailing whitespace: the result is the prefix of `s` before a whitespace-only run. */
  function StripEnd(s: string, rt: Runtime): (r: string)
    ensures |r| <= |s| && r == s[..|r|]
    ensures r == [] || !IsSpace(r[|r| - 1], rt)
    ensures forall k :: |r| <= k < |s| ==> IsSpace(s[k], rt)
  {
    if |s| > 0 && IsSpace(s[|s| - 1], rt) then StripEnd(s[..|s| - 1], rt) else s
  }

  /** `s.strip()` in Python, `s.trim()` in JavaScript, as `rt` says. */
  function Strip(s: string, rt: Runtime): (r: string)
    ensures r == [] || (!IsSpace(r[0], rt) && !IsSpace(r[|r| - 1], rt))
    ensures r == [] <==> forall k :: 0 <= k < |s| ==> IsSpace(s[k], rt)
    ensures forall ch :: ch in r ==> ch in s
  {
    StripBlank(s, rt);
    StripChars(s, rt);
    StripEnd(StripStart(s, rt), rt)
  }

  /** Text that does not start with whitespace keeps something when its end is stripped. */
  lemma StripEndNonEmpty(t: string, rt: Runtime)
    requires t == [] || !IsSpace(t[0], rt)
    ensures t != [] ==> StripEnd(t, rt) != []
  {
  }

  /** Stripped text is empty exactly when the input is all whitespace. */
  lemma StripBlank(s: string, rt: Runtime)
    ensures StripEnd(StripStart(s, rt), rt) == [] <==> forall k :: 0 <= k < |s| ==> IsSpace(s[k], rt)
  {
    var t := StripStart(s, rt);
    if StripEnd(t, rt) == [] {
      StripEndNonEmpty(t, rt);
    } else {
      assert t[0] == s[|s| - |t|];
    }
  }

  /** Stripping keeps only characters of the input. */
  lemma StripChars(s: string, rt: Runtime)
    ensures forall ch :: ch in StripEnd(StripStart(s, rt), rt) ==> ch in s
  {
    var t := StripStart(s, rt);
    var r := StripEnd(t, rt);
    forall ch | ch in r
      ensures ch in t
    {
      var k :| 0 <= k < |r| && r[k] == ch;
      assert t[k] == ch;
    }
    forall ch | ch in t
      ensures ch in s
    {
      var k :| 0 <= k < |t| && t[k] == ch;
      assert s[|s| - |t| + k] == ch;
    }
  }

  // ------------------------------------------------------------ splitting

  /** Number of occurrences of `c` in `s`. */
  function Occurrences(s: string, c: char): nat {
    multiset(s)[c]
  }

  /** `s.split(c)` with a one-character separator, as Python and JavaScript both define it. */
  function Split(s: string, sep: char): (r: seq<string>)
    ensures |r| > 0
  {
    if |s| == 0 then [""]
    else
      var rest := Split(s[1..], sep);
      if s[0] == sep then [""] + rest else [[s[0]] + rest[0]] + rest[1..]
  }

  /** There is one piece more than separators, and no piece holds the separator. */
  lemma {:induction false} SplitShape(s: string, sep: char)
    ensures |Split(s, sep)| == Occurrences(s, sep) + 1
    ensures forall i :: 0 <= i < |Split(s, sep)| ==> sep !in Split(s, sep)[i]
  {
    if |s| > 0 {
      var u := s[1..];
      assert s == [s[0]] + u;
      SplitShape(u, sep);
      SplitCons(s[0], u, sep);
      assert multiset(s) == multiset([s[0]]) + multiset(u);
      var rest := Split(u, sep);
      if s[0] != sep {
        assert forall i :: 1 <= i < |Split(s, sep)| ==> Split(s, sep)[i] == rest[i];
      } else {
        assert forall i :: 1 <= i < |Split(s, sep)| ==> Split(s, sep)[i] == rest[i - 1];
      }
    }
  }

  /** Joins the pieces back with `sep` between them (the inverse of `Split`). */
  function Join(parts: seq<string>, sep: char): string
    requires |parts| > 0
  {
    if |parts| == 1 then parts[0] else parts[0] + [sep] + Join(parts[1..], sep)
  }

  /** Splitting on a character loses nothing: joining the pieces gives the input back. */
  lemma {:induction false} JoinSplit(s: string, sep: char)
    ensures Join(Split(s, sep), sep) == s
  {
    if |s| > 0 {
      var u := s[1..];
      assert s == [s[0]] + u;
      JoinSplit(u, sep);
      SplitCons(s[0], u, sep);
      var rest := Split(u, sep);
      if s[0] == sep {
        assert ([""] + rest)[1..] == rest;
      } else if |rest| > 1 {
        var first := [s[0]] + rest[0];
        assert ([first] + rest[1..])[1..] == rest[1..];
        assert Join(rest, sep) == rest[0] + [sep] + Join(rest[1..], sep);
      }
    }
  }

  /** A piece free of the separator splits to itself. */
  lemma {:induction false} SplitWithoutSeparator(w: string, sep: char)
    requires sep !in w
    ensures Split(w, sep) == [w]
  {
    if |w| > 0 {
      SplitWithoutSeparator(w[1..], sep);
      assert w == [w[0]] + w[1..];
    }
  }

  /** A separator-free piece followed by the separator splits off as the first piece. */
  lemma {:induction false} SplitAfterPiece(w: string, t: string, sep: char)
    requires sep !in w
    ensures Split(w + [sep] + t, sep) == [w] + Split(t, sep)
  {
    if |w| == 0 {
      assert w + [sep] + t == [sep] + t;
      SplitCons(sep, t, sep);
    } else {
      var u := w[1..] + [sep] + t;
      assert w + [sep] + t == [w[0]] + u;
      SplitAfterPiece(w[1..], t, sep);
      SplitCons(w[0], u, sep);
      assert [w[0]] + w[1..] == w;
    }
  }

  /** One step of `Split`: the first character either ends the first piece or joins it. */
  lemma SplitCons(c: char, s: string, sep: char)
    ensures Split([c] + s, sep) ==
      if c == sep then [""] + Split(s, sep) else [[c] + Split(s, sep)[0]] + Split(s, sep)[1..]
  {
    assert ([c] + s)[1..] == s;
  }

  /** Joining separator-free pieces and splitting again gives the pieces back. */
  lemma {:induction false} SplitJoin(parts: seq<string>, sep: char)
    requires |parts| > 0
    requires forall i :: 0 <= i < |parts| ==> sep !in parts[i]
    ensures Split(Join(parts, sep), sep) == parts
  {
    if |parts| == 1 {
      SplitWithoutSeparator(parts[0], sep);
    } else {
      SplitJoin(parts[1..], sep);
      SplitAfterPiece(parts[0], Join(parts[1..], sep), sep);
      assert [parts[0]] + parts[1..] == parts;
    }
  }

  /** Stripping text that has no whitespace at either end changes nothing. */
  lemma StripTrimmed(s: string, rt: Runtime)
    requires s == [] || (!IsSpace(s[0], rt) && !IsSpace(s[|s| - 1], rt))
    ensures Strip(s, rt) == s
  {
  }

  /** Lower-casing neither creates nor removes whitespace, nor any other non-letter. */
  lemma LowerKeepsNonLetters(s: string, rt: Runtime)
    ensures forall i :: 0 <= i < |s| ==> (IsSpace(Lower(s)[i], rt) <==> IsSpace(s[i], rt))
    ensures forall c :: !('a' <= c <= 'z') && !('A' <= c <= 'Z') ==> (c in Lower(s) <==> c in s)
  {
    forall c | !('a' <= c <= 'z') && !('A' <= c <= 'Z')
      ensures c in Lower(s) <==> c in s
    {
      if c in s {
        var i :| 0 <= i < |s| && s[i] == c;
        assert Lower(s)[i] == c;
      }
      if c in Lower(s) {
        var i :| 0 <= i < |s| && Lower(s)[i] == c;
        assert s[i] == c;
      }
    }
  }

  /** The text before the first `sep`, that is `s.split(sep)[0]`. */
  function FirstField(s: string, sep: char): (r: string)
    ensures sep !in r
    ensures |r| <= |s| && r == s[..|r|]
    ensures |r| < |s| ==> s[|r|] == sep
  {
    if |s| == 0 || s[0] == sep then ""
    else
      var t := FirstField(s[1..], sep);
      assert s[..|t| + 1] == [s[0]] + s[1..][..|t|];
      [s[0]] + t
  }

  lemma {:induction false} FirstFieldIsSplitHead(s: string, sep: char)
    ensures FirstField(s, sep) == Split(s, sep)[0]
  {
    if |s| > 0 && s[0] != sep {
      FirstFieldIsSplitHead(s[1..], sep);
    }
  }

  // ----------------------------------------------------- substring search

  /** `sub` occurs in `s` starting at index `i`. */
  predicate OccursAt(s: string, sub: string, i: nat) {
    i + |sub| <= |s| && s[i..i + |sub|] == sub
  }

  /** Index of the first occurrence of `sub` in `s` at or after `from`. */
  function IndexFrom(s: string, sub: string, from: nat): (r: Option<nat>)
    decreases |s| - from
    ensures r.Some? ==> from <= r.value && OccursAt(s, sub, r.value)
    ensures r.Some? ==> forall j :: from <= j < r.value ==> !OccursAt(s, sub, j)
    ensures r.None? ==> forall j :: from <= j ==> !OccursAt(s, sub, j)
  {
    if from + |sub| > |s| then None
    else if s[from..from + |sub|] == sub then Some(from)
    else IndexFrom(s, sub, from + 1)
  }

  /** Index of the first occurrence of `sub` in `s` (Python's `s.find(sub)`, absent as `None`). */
  function IndexOf(s: string, sub: string): Option<nat> {
    IndexFrom(s, sub, 0)
  }

  /** Python's `sub in s`, JavaScript's `s.includes(sub)`. */
  predicate Contains(s: string, sub: string) {
    IndexOf(s, sub).Some?
  }

  /** `Contains` agrees with the definition "occurs at some index". */
  lemma ContainsIff(s: string, sub: string)
    ensures Contains(s, sub) <==> exists j: nat :: OccursAt(s, sub, j)
  {
  }

  // ------------------------------------------------- lexicographic order

  /** `a <= b` on strings in Python: code-point lexicographic order. */
  predicate Below(a: string, b: string) {
    |a| == 0 || (|b| > 0 && (a[0] < b[0] || (a[0] == b[0] && Below(a[1..], b[1..]))))
  }

  lemma {:induction false} BelowReflexive(a: string)
    ensures Below(a, a)
  {
    if |a| > 0 { BelowReflexive(a[1..]); }
  }

  lemma {:induction false} BelowTotal(a: string, b: string)
    ensures Below(a, b) || Below(b, a)
  {
    if |a| > 0 && |b| > 0 && a[0] == b[0] { BelowTotal(a[1..], b[1..]); }
  }

  lemma {:induction false} BelowAntisymmetric(a: string, b: string)
    requires Below(a, b) && Below(b, a)
    ensures a == b
  {
    if |a| > 0 && |b| > 0 {
      BelowAntisymmetric(a[1..], b[1..]);
      assert a == [a[0]] + a[1..] && b == [b[0]] + b[1..];
    }
  }

  lemma {:induction false} BelowTransitive(a: string, b: string, c: string)
    requires Below(a, b) && Below(b, c)
    ensures Below(a, c)
  {
    if |a| > 0 && |b| > 0 && |c| > 0 && a[0] == b[0] == c[0] {
      BelowTransitive(a[1..], b[1..], c[1..]);
    }
  }

  /** Every element is `Below` every later one. */
  predicate Sorted(s: seq<string>) {
    forall i, j :: 0 <= i < j < |s| ==> Below(s[i], s[j])
  }

  function Insert(x: string, s: seq<string>): (r: seq<string>)
    ensures |r| == |s| + 1
    ensures multiset(r) == multiset(s) + multiset{x}
  {
    if s == [] then [x]
    else if Below(x, s[0]) then
      assert s == [s[0]] + s[1..];
      [x] + s
    else
      assert s == [s[0]] + s[1..];
      [s[0]] + Insert(x, s[1..])
  }

  /** Inserting into a sorted list keeps it sorted. */
  lemma {:induction false} InsertSorted(x: string, s: seq<string>)
    requires Sorted(s)
    ensures Sorted(Insert(x, s))
  {
    if s == [] {
    } else if Below(x, s[0]) {
      forall j | 0 <= j < |s| ensures Below(x, s[j]) {
        if j > 0 { BelowTransitive(x, s[0], s[j]); }
      }
    } else {
      InsertSorted(x, s[1..]);
      var t := Insert(x, s[1..]);
      BelowTotal(x, s[0]);
      forall y | y in t ensures Below(s[0], y) {
        assert y in multiset(t);
        if y != x {
          assert y in multiset(s[1..]);
          var j :| 0 <= j < |s[1..]| && s[1..][j] == y;
          assert s[j + 1] == y;
        }
      }
      assert Insert(x, s) == [s[0]] + t;
    }
  }

  /** Python's `sorted` on a list of strings (insertion sort). */
  function Sort(s: seq<string>): (r: seq<string>)
    ensures |r| == |s|
    ensures multiset(r) == multiset(s)
    ensures Sorted(r)
  {
    if s == [] then []
    else
      assert s == [s[0]] + s[1..];
      InsertSorted(s[0], Sort(s[1..]));
      Insert(s[0], Sort(s[1..]))
  }
}
