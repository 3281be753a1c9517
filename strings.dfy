/**
 * The string operations app/page.tsx relies on: `split(', ')`, the default (code-unit) order of
 * `Array.prototype.sort()`, and `Array.from(new Set(values)).sort()`.
 */
module Strings {

  /** `s` holds the separator ", " starting at index `i`. */
  predicate SepAt(s: string, i: int) {
    0 <= i && i + 1 < |s| && s[i] == ',' && s[i + 1] == ' '
  }

  predicate ContainsSep(s: string) {
    exists i :: 0 <= i < |s| && SepAt(s, i)
  }

  /** Where `split(', ')` makes its first cut: the first separator, if there is one. */
  datatype Found = NotFound | FoundAt(index: nat)

  function FindSep(s: string): (r: Found)
    ensures r.FoundAt? ==> SepAt(s, r.index) && forall j :: 0 <= j < r.index ==> !SepAt(s, j)
    ensures r.NotFound? ==> !ContainsSep(s)
    decreases |s|
  {
    if |s| < 2 then NotFound
    else if s[0] == ',' && s[1] == ' ' then FoundAt(0)
    else
      match FindSep(s[1..])
      case NotFound =>
        assert forall i :: SepAt(s, i) ==> i == 0 || SepAt(s[1..], i - 1);
        NotFound
      case FoundAt(k) =>
        assert forall j :: 0 < j <= k ==> (SepAt(s, j) <==> SepAt(s[1..], j - 1));
        FoundAt(k + 1)
  }

  /** `s.split(', ')`: the pieces between the separators, left to right. */
  function Split(s: string): (parts: seq<string>)
    ensures |parts| >= 1
    ensures parts[0] == s <==> !ContainsSep(s)
    decreases |s|
  {
    match FindSep(s)
    case NotFound => [s]
    case FoundAt(i) => [s[..i]] + Split(s[i + 2..])
  }

  /** `const [a, b] = s.split(', ')`: a missing second piece is `undefined`, which renders as nothing. */
  function FirstTwo(s: string): (string, string) {
    var parts := Split(s);
    (parts[0], if |parts| > 1 then parts[1] else "")
  }

  /** The template string `${a}, ${b}`. */
  function Join(a: string, b: string): string {
    a + ", " + b
  }

  /** A separator at `i` with none before it is what `indexOf` finds. */
  lemma {:induction false} FindSepFirst(s: string, i: nat)
    requires SepAt(s, i) && forall j :: 0 <= j < i ==> !SepAt(s, j)
    ensures FindSep(s) == FoundAt(i)
  {
    if i > 0 {
      assert !SepAt(s, 0);
      forall j | 0 <= j < i - 1 ensures !SepAt(s[1..], j) {
        assert !SepAt(s, j + 1);
      }
      FindSepFirst(s[1..], i - 1);
    }
  }

  /** The first separator of a joined pair is the one of `a` if `a` has one, else the joining one. */
  lemma JoinFirstSep(a: string, b: string)
    ensures FindSep(Join(a, b)) == (if ContainsSep(a) then FindSep(a) else FoundAt(|a|))
  {
    var s := Join(a, b);
    forall j | 0 <= j < |a| - 1 ensures SepAt(s, j) == SepAt(a, j) { }
    if ContainsSep(a) {
      var i := FindSep(a).index;
      FindSepFirst(s, i);
    } else {
      assert |a| > 0 ==> !SepAt(s, |a| - 1);
      forall j | 0 <= j < |a| ensures !SepAt(s, j) {
        assert j < |a| - 1 ==> !SepAt(a, j);
      }
      FindSepFirst(s, |a|);
    }
  }

  /**
   * Splitting `${a}, ${b}` on ", " gives back `a` and `b` exactly when neither contains ", ";
   * otherwise the first piece is `a` cut at its first separator.
   */
  lemma SplitJoin(a: string, b: string)
    ensures |Split(Join(a, b))| >= 2
    ensures FirstTwo(Join(a, b)) == (a, b) <==> !ContainsSep(a) && !ContainsSep(b)
    ensures ContainsSep(a) ==> FirstTwo(Join(a, b)).0 == a[..FindSep(a).index]
    ensures !ContainsSep(a) ==> FirstTwo(Join(a, b)) == (a, Split(b)[0])
  {
    var s := Join(a, b);
    JoinFirstSep(a, b);
    if ContainsSep(a) {
      var i := FindSep(a).index;
      assert s[..i] == a[..i];
      assert |a[..i]| < |a|;
      var rest := s[i + 2..];
      assert SepAt(s, |a|);
      assert SepAt(rest, |a| - i - 2);
      assert ContainsSep(rest);
    } else {
      assert s[..|a|] == a;
      assert s[|a| + 2..] == b;
    }
  }

  /** The order `sort()` uses without a comparator: code unit by code unit, a proper prefix first. */
  predicate Less(a: string, b: string) {
    if a == [] then b != []
    else if b == [] then false
    else a[0] < b[0] || (a[0] == b[0] && Less(a[1..], b[1..]))
  }

  lemma {:induction false} LessIrreflexive(a: string)
    ensures !Less(a, a)
  {
    if a != [] { LessIrreflexive(a[1..]); }
  }

  lemma {:induction false} LessTransitive(a: string, b: string, c: string)
    requires Less(a, b) && Less(b, c)
    ensures Less(a, c)
  {
    if a != [] && a[0] == b[0] && b[0] == c[0] {
      LessTransitive(a[1..], b[1..], c[1..]);
    }
  }

  lemma {:induction false} LessTotal(a: string, b: string)
    requires a != b
    ensures Less(a, b) || Less(b, a)
  {
    if a != [] && b != [] && a[0] == b[0] {
      assert a == [a[0]] + a[1..] && b == [b[0]] + b[1..];
      LessTotal(a[1..], b[1..]);
    }
  }

  predicate StrictlySorted(s: seq<string>) {
    forall i, j :: 0 <= i < j < |s| ==> Less(s[i], s[j])
  }

  /** Adds `x` to a strictly sorted list unless it is already there. */
  function InsertUnique(x: string, s: seq<string>): (r: seq<string>)
    requires StrictlySorted(s)
    ensures StrictlySorted(r)
    ensures forall y :: y in r <==> y == x || y in s
  {
    if s == [] then [x]
    else if x == s[0] then s
    else if Less(x, s[0]) then
      assert forall j :: 0 < j < |s| ==> Less(x, s[j]) by {
        forall j | 0 < j < |s| ensures Less(x, s[j]) { LessTransitive(x, s[0], s[j]); }
      }
      [x] + s
    else
      LessTotal(x, s[0]);
      var t := InsertUnique(x, s[1..]);
      assert forall j :: 0 <= j < |t| ==> Less(s[0], t[j]) by {
        forall j | 0 <= j < |t| ensures Less(s[0], t[j]) {
          assert t[j] in t;
        }
      }
      [s[0]] + t
  }

  /** `Array.from(new Set(values)).sort()`: every value once, in ascending order. */
  function SortedUnique(values: seq<string>): (r: seq<string>)
    ensures StrictlySorted(r)
    ensures forall y :: y in r <==> y in values
  {
    if values == [] then []
    else
      var r := InsertUnique(values[|values| - 1], SortedUnique(values[..|values| - 1]));
      assert values == values[..|values| - 1] + [values[|values| - 1]];
      r
  }

  lemma {:induction false} LessAsymmetric(a: string, b: string)
    requires Less(a, b)
    ensures !Less(b, a)
  {
    if a != [] && a[0] == b[0] {
      LessAsymmetric(a[1..], b[1..]);
    }
  }

  /** The head of a strictly sorted list is below every other element. */
  lemma HeadIsLeast(s: seq<string>, y: string)
    requires StrictlySorted(s) && y in s
    ensures y == s[0] || Less(s[0], y)
  {
  }

  /**
   * A strictly sorted list is fixed by its set of elements, so the option list depends only on
   * which values occur, not on their order or repetition.
   */
  lemma {:induction false} StrictlySortedUnique(a: seq<string>, b: seq<string>)
    requires StrictlySorted(a) && StrictlySorted(b)
    requires forall y :: y in a <==> y in b
    ensures a == b
  {
    if a != [] && b != [] {
      HeadIsLeast(a, b[0]);
      HeadIsLeast(b, a[0]);
      LessIrreflexive(a[0]);
      if Less(a[0], b[0]) {
        LessAsymmetric(a[0], b[0]);
        assert false;
      }
      forall y ensures y in a[1..] <==> y in b[1..] {
        if y in a[1..] {
          var i :| 1 <= i < |a| && a[i] == y;
          assert Less(a[0], y);
          assert y in b;
        }
        if y in b[1..] {
          var i :| 1 <= i < |b| && b[i] == y;
          assert Less(b[0], y);
          assert y in a;
        }
      }
      StrictlySortedUnique(a[1..], b[1..]);
    } else if a != [] {
      NonEmptyHasHead(a);
      assert false;
    } else if b != [] {
      NonEmptyHasHead(b);
      assert false;
    }
  }

  lemma NonEmptyHasHead(s: seq<string>)
    requires s != []
    ensures s[0] in s
  {
  }
}
