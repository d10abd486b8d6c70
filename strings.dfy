/** The .NET string operations the library relies on, over `seq<char>`,
    and the helpers its specifications are stated with. */
module Strings {

  /** The parts with one separator between neighbours, as `String.Join`
      would give (a specification helper; the library does not call it). */
  function Join(parts: seq<string>, sep: char): string
  {
    if |parts| == 0 then ""
    else if |parts| == 1 then parts[0]
    else Join(parts[..|parts| - 1], sep) + [sep] + parts[|parts| - 1]
  }

  /** The number of occurrences of `c` in `s`. */
  function Count(s: string, c: char): nat
  {
    if s == [] then 0
    else Count(s[..|s| - 1], c) + (if s[|s| - 1] == c then 1 else 0)
  }

  lemma {:induction false} CountZero(s: string, c: char)
    ensures Count(s, c) == 0 <==> c !in s
  {
    if s != [] {
      CountZero(s[..|s| - 1], c);
      assert s == s[..|s| - 1] + [s[|s| - 1]];
    }
  }

  /** `s.StartsWith(prefix)` with ordinal comparison. */
  predicate StartsWith(s: string, prefix: string)
  {
    |prefix| <= |s| && s[..|prefix|] == prefix
  }

  /** `s.Split(sep)`: the maximal separator-free runs of `s`, empty runs
      included. */
  function Split(s: string, sep: char): (fields: seq<string>)
    ensures |fields| == Count(s, sep) + 1
  {
    if s == [] then [""]
    else
      var init := Split(s[..|s| - 1], sep);
      var c := s[|s| - 1];
      if c == sep then init + [""]
      else init[..|init| - 1] + [init[|init| - 1] + [c]]
  }

  lemma JoinSnoc(parts: seq<string>, x: string, sep: char)
    ensures Join(parts + [x], sep) == if parts == [] then x else Join(parts, sep) + [sep] + x
  {
    assert (parts + [x])[..|parts|] == parts;
  }

  /** Appending to the last field appends to the join. */
  lemma JoinExtendLast(parts: seq<string>, c: char, sep: char)
    requires |parts| > 0
    ensures Join(parts[..|parts| - 1] + [parts[|parts| - 1] + [c]], sep) == Join(parts, sep) + [c]
  {
    var init := parts[..|parts| - 1];
    assert parts == init + [parts[|parts| - 1]];
    JoinSnoc(init, parts[|parts| - 1] + [c], sep);
    JoinSnoc(init, parts[|parts| - 1], sep);
  }

  /** Splitting inverts joining: joined with the separator, the fields give
      `s` back, and no field holds the separator. */
  lemma {:induction false} SplitJoin(s: string, sep: char)
    ensures Join(Split(s, sep), sep) == s
    ensures forall i :: 0 <= i < |Split(s, sep)| ==> sep !in Split(s, sep)[i]
  {
    if s != [] {
      var init := Split(s[..|s| - 1], sep);
      SplitJoin(s[..|s| - 1], sep);
      var c := s[|s| - 1];
      assert s == s[..|s| - 1] + [c];
      if c == sep {
        JoinSnoc(init, "", sep);
      } else {
        JoinExtendLast(init, c, sep);
        var fields := Split(s, sep);
        assert forall i :: 0 <= i < |fields| - 1 ==> fields[i] == init[i];
      }
    }
  }

  /** The first field is the text before the first separator. */
  lemma {:induction false} SplitFirst(s: string, sep: char)
    ensures var fields := Split(s, sep);
      && |fields[0]| <= |s| && fields[0] == s[..|fields[0]|]
      && (|fields| > 1 ==> |fields[0]| < |s| && s[|fields[0]|] == sep)
  {
    if s != [] {
      var init := Split(s[..|s| - 1], sep);
      SplitFirst(s[..|s| - 1], sep);
      var c := s[|s| - 1];
      if c == sep {
        if |init| == 1 {
          SplitJoin(s[..|s| - 1], sep);
        }
      } else if |init| == 1 {
        SplitJoin(s[..|s| - 1], sep);
        assert s == s[..|s| - 1] + [c];
      }
    }
  }

  /** `s` with every `c` taken out. */
  function RemoveAll(s: string, c: char): (r: string)
    ensures c !in r
    ensures forall d :: d != c ==> Count(r, d) == Count(s, d)
    ensures |r| == |s| - Count(s, c)
  {
    if s == [] then ""
    else
      var init := RemoveAll(s[..|s| - 1], c);
      var d := s[|s| - 1];
      if d == c then init
      else
        var r := init + [d];
        assert r[..|r| - 1] == init;
        r
  }
}
