/**
  Lexical path handling as config.go uses it through filepath.Join: the
  elements are joined with the separator and the result is cleaned (empty
  and "." elements dropped, ".." resolved against the element before it,
  or dropped at the root).
*/
module Paths {

  /** The two separators: '/' for Unix-like systems, '\\' for Windows. */
  predicate ValidSep(sep: char) {
    sep == '/' || sep == '\\'
  }

  /** The elements between separators, in order; n separators give n + 1 elements. */
  function Split(p: string, sep: char): (parts: seq<string>)
    ensures |parts| >= 1
    ensures forall i :: 0 <= i < |parts| ==> sep !in parts[i]
    decreases |p|
  {
    if p == [] then [""]
    else
      var rest := Split(p[1..], sep);
      if p[0] == sep then [""] + rest else [[p[0]] + rest[0]] + rest[1..]
  }

  /** The elements laid end to end with one separator between each two. */
  function JoinElems(es: seq<string>, sep: char): string
    decreases |es|
  {
    if es == [] then "" else if |es| == 1 then es[0] else es[0] + [sep] + JoinElems(es[1..], sep)
  }

  /** An element that survives cleaning on its own. */
  predicate Normal(e: string, sep: char) {
    e != "" && e != "." && e != ".." && sep !in e
  }

  /**
    A cleaned element list: normal elements, with ".." only in a leading run,
    and none at all under the root.
  */
  predicate CleanStack(s: seq<string>, rooted: bool, sep: char) {
    (forall i :: 0 <= i < |s| ==> s[i] == ".." || Normal(s[i], sep)) &&
    (forall i, j :: 0 <= i < j < |s| && s[j] == ".." ==> s[i] == "..") &&
    (rooted ==> forall i :: 0 <= i < |s| ==> s[i] != "..")
  }

  /** One element of Clean's scan. */
  function Step(stack: seq<string>, e: string, rooted: bool): seq<string> {
    if e == "" || e == "." then stack
    else if e == ".." then
      if |stack| > 0 && stack[|stack| - 1] != ".." then stack[..|stack| - 1]
      else if rooted then stack
      else stack + [".."]
    else stack + [e]
  }

  function Resolve(stack: seq<string>, es: seq<string>, rooted: bool): seq<string>
    decreases |es|
  {
    if es == [] then stack else Resolve(Step(stack, es[0], rooted), es[1..], rooted)
  }

  predicate Rooted(p: string, sep: char) {
    |p| > 0 && p[0] == sep
  }

  /** The cleaned element list of a path. */
  function Stack(p: string, sep: char): seq<string> {
    Resolve([], Split(p, sep), Rooted(p, sep))
  }

  function Render(s: seq<string>, rooted: bool, sep: char): string {
    if rooted then [sep] + JoinElems(s, sep)
    else if s == [] then "."
    else JoinElems(s, sep)
  }

  /** filepath.Clean */
  function Clean(p: string, sep: char): string {
    Render(Stack(p, sep), Rooted(p, sep), sep)
  }

  /** filepath.Join of two elements: from the first non-empty one on, joined and cleaned; "" when both are empty. */
  function Join(a: string, b: string, sep: char): string {
    if a != "" then Clean(a + [sep] + b, sep)
    else if b != "" then Clean(b, sep)
    else ""
  }

  // ---------------------------------------------------------------- splitting and joining

  lemma {:induction false} SplitAppend(a: string, b: string, sep: char)
    ensures Split(a + [sep] + b, sep) == Split(a, sep) + Split(b, sep)
    decreases |a|
  {
    var p := a + [sep] + b;
    if a == [] {
      assert p[1..] == b;
    } else {
      assert p[0] == a[0];
      assert p[1..] == a[1..] + [sep] + b;
      SplitAppend(a[1..], b, sep);
    }
  }

  lemma {:induction false} SplitPlain(a: string, sep: char)
    requires sep !in a
    ensures Split(a, sep) == [a]
    decreases |a|
  {
    if a != [] {
      SplitPlain(a[1..], sep);
      assert [a[0]] + a[1..] == a;
    }
  }

  lemma {:induction false} SplitJoinElems(es: seq<string>, sep: char)
    requires |es| >= 1
    requires forall i :: 0 <= i < |es| ==> sep !in es[i]
    ensures Split(JoinElems(es, sep), sep) == es
    decreases |es|
  {
    if |es| == 1 {
      SplitPlain(es[0], sep);
    } else {
      SplitAppend(es[0], JoinElems(es[1..], sep), sep);
      SplitPlain(es[0], sep);
      SplitJoinElems(es[1..], sep);
    }
  }

  lemma {:induction false} JoinElemsSnoc(es: seq<string>, e: string, sep: char)
    requires |es| >= 1
    ensures JoinElems(es + [e], sep) == JoinElems(es, sep) + [sep] + e
    decreases |es|
  {
    if |es| > 1 {
      assert (es + [e])[1..] == es[1..] + [e];
      JoinElemsSnoc(es[1..], e, sep);
    }
  }

  lemma {:induction false} JoinElemsHead(es: seq<string>, sep: char)
    requires |es| >= 1 && |es[0]| > 0
    ensures |JoinElems(es, sep)| > 0 && JoinElems(es, sep)[0] == es[0][0]
  {
  }

  // ---------------------------------------------------------------- resolving

  lemma {:induction false} ResolveAppend(s: seq<string>, a: seq<string>, b: seq<string>, rooted: bool)
    ensures Resolve(s, a + b, rooted) == Resolve(Resolve(s, a, rooted), b, rooted)
    decreases |a|
  {
    if a == [] {
      assert a + b == b;
    } else {
      assert (a + b)[0] == a[0];
      assert (a + b)[1..] == a[1..] + b;
      ResolveAppend(Step(s, a[0], rooted), a[1..], b, rooted);
    }
  }

  lemma StepClean(s: seq<string>, e: string, rooted: bool, sep: char)
    requires CleanStack(s, rooted, sep) && sep !in e
    ensures CleanStack(Step(s, e, rooted), rooted, sep)
  {
    if e == ".." && |s| > 0 && s[|s| - 1] == ".." {
      assert forall i :: 0 <= i < |s| ==> s[i] == "..";
    }
  }

  /** Clean's scan only ever yields a cleaned list. */
  lemma {:induction false} ResolveClean(s: seq<string>, es: seq<string>, rooted: bool, sep: char)
    requires CleanStack(s, rooted, sep)
    requires forall i :: 0 <= i < |es| ==> sep !in es[i]
    ensures CleanStack(Resolve(s, es, rooted), rooted, sep)
    decreases |es|
  {
    if es != [] {
      StepClean(s, es[0], rooted, sep);
      ResolveClean(Step(s, es[0], rooted), es[1..], rooted, sep);
    }
  }

  /** Scanning an already cleaned list changes nothing. */
  lemma {:induction false} ResolveCleanIdentity(s: seq<string>, es: seq<string>, rooted: bool, sep: char)
    requires CleanStack(s + es, rooted, sep)
    ensures Resolve(s, es, rooted) == s + es
    decreases |es|
  {
    if es != [] {
      var e := es[0];
      assert (s + es)[|s|] == e;
      if e == ".." && |s| > 0 {
        assert (s + es)[|s| - 1] == s[|s| - 1];
      }
      assert Step(s, e, rooted) == s + [e];
      assert (s + [e]) + es[1..] == s + es;
      ResolveCleanIdentity(s + [e], es[1..], rooted, sep);
    } else {
      assert s + es == s;
    }
  }

  lemma CleanStackPrefix(s: seq<string>, t: seq<string>, rooted: bool, sep: char)
    requires CleanStack(s + t, rooted, sep)
    ensures CleanStack(s, rooted, sep)
  {
    assert forall i :: 0 <= i < |s| ==> (s + t)[i] == s[i];
  }

  // ---------------------------------------------------------------- what Clean promises

  /** A cleaned list, rendered and read back, gives the same list and the same rootedness. */
  lemma RenderReadBack(s: seq<string>, rooted: bool, sep: char)
    requires ValidSep(sep) && CleanStack(s, rooted, sep)
    ensures Rooted(Render(s, rooted, sep), sep) == rooted
    ensures Stack(Render(s, rooted, sep), sep) == s
  {
    var p := Render(s, rooted, sep);
    assert forall i :: 0 <= i < |s| ==> sep !in s[i];
    if rooted {
      assert p == [] + [sep] + JoinElems(s, sep);
      SplitAppend([], JoinElems(s, sep), sep);
      if s == [] {
        assert Split(p, sep) == ["", ""];
      } else {
        SplitJoinElems(s, sep);
        assert Split(p, sep) == [""] + s;
        ResolveCleanIdentity([], s, rooted, sep);
        assert [] + s == s;
      }
    } else if s == [] {
      SplitPlain(".", sep);
    } else {
      JoinElemsHead(s, sep);
      SplitJoinElems(s, sep);
      ResolveCleanIdentity([], s, rooted, sep);
      assert [] + s == s;
    }
  }

  lemma StackOfPathIsClean(p: string, sep: char)
    ensures CleanStack(Stack(p, sep), Rooted(p, sep), sep)
  {
    ResolveClean([], Split(p, sep), Rooted(p, sep), sep);
  }

  /** Cleaning a cleaned path changes nothing. */
  lemma CleanIdempotent(p: string, sep: char)
    requires ValidSep(sep)
    ensures Clean(Clean(p, sep), sep) == Clean(p, sep)
  {
    StackOfPathIsClean(p, sep);
    RenderReadBack(Stack(p, sep), Rooted(p, sep), sep);
  }

  lemma RootedAppend(a: string, b: string, sep: char)
    requires a != ""
    ensures Rooted(a + [sep] + b, sep) == Rooted(a, sep)
  {
    assert (a + [sep] + b)[0] == a[0];
  }

  /** Joining a normal element onto a path appends it to the path's cleaned list. */
  lemma JoinNormal(a: string, e: string, sep: char)
    requires Normal(e, sep)
    ensures Join(a, e, sep) == Render(Stack(a, sep) + [e], Rooted(a, sep), sep)
  {
    SplitPlain(e, sep);
    if a != "" {
      SplitAppend(a, e, sep);
      RootedAppend(a, e, sep);
      ResolveAppend([], Split(a, sep), [e], Rooted(a, sep));
    } else {
      assert Split(a, sep) == [""];
      assert Resolve([], [""], false) == Resolve([], [""][1..], false);
      assert Stack(a, sep) == [];
      assert Resolve([], [e], false) == [e];
    }
  }

  /** The path Join gives for a normal element ends with that element, behind a separator unless it stands alone. */
  lemma JoinNormalSuffix(a: string, e: string, sep: char)
    requires Normal(e, sep)
    ensures var j := Join(a, e, sep);
      j == e || j == [sep] + e || exists d :: j == d + [sep] + e && d != ""
  {
    JoinNormal(a, e, sep);
    var s := Stack(a, sep);
    if s != [] {
      JoinElemsSnoc(s, e, sep);
      assert JoinElems(s, sep) + [sep] + e == JoinElems(s + [e], sep);
      if Rooted(a, sep) {
        assert Join(a, e, sep) == ([sep] + JoinElems(s, sep)) + [sep] + e;
      } else {
        assert |JoinElems(s, sep)| > 0 by {
          StackOfPathIsClean(a, sep);
          JoinElemsHead(s, sep);
        }
      }
    } else {
      assert [] + [e] == [e];
    }
  }

  /** Joining a normal element onto what Join produced extends it by one separator and the element. */
  lemma {:induction false} JoinTwice(a: string, e1: string, e2: string, sep: char)
    requires ValidSep(sep) && Normal(e1, sep) && Normal(e2, sep)
    ensures Join(Join(a, e1, sep), e2, sep) == Join(a, e1, sep) + [sep] + e2
  {
    var s := Stack(a, sep) + [e1];
    var r := Rooted(a, sep);
    StackOfPathIsClean(a, sep);
    assert CleanStack(s, r, sep) by {
      assert forall i :: 0 <= i < |Stack(a, sep)| ==> s[i] == Stack(a, sep)[i];
    }
    JoinNormal(a, e1, sep);
    var d := Join(a, e1, sep);
    RenderReadBack(s, r, sep);
    JoinNormal(d, e2, sep);
    JoinElemsSnoc(s, e2, sep);
  }
}
