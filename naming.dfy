/** `camelToPascalWithSpace`: two global regular-expression replacements. The first,
    `/([a-z])([A-Z])/g` with `"$1 $2"`, puts a space between a lower-case letter and the
    upper-case letter after it; the second, `/([a-zA-Z])+/g` with a callback, upper-cases the
    first letter of every maximal run of ASCII letters. Each replacement is modelled as the
    left-to-right scan the regular-expression engine performs, and proved equal to a
    character-by-character description. */
module Naming {
  import opened Common
  import opened JsStrings

  // ---------------------------------------------------------------------------
  // First replacement: a space at every lower-to-upper boundary.

  /** A lower-case letter at `i` followed by an upper-case letter. */
  predicate Boundary(s: string, i: int) {
    0 <= i && i + 1 < |s| && IsLower(s[i]) && IsUpper(s[i + 1])
  }

  /** The scan of `s.replace(/([a-z])([A-Z])/g, "$1 $2")`: a match at the front is
      replaced and the scan resumes after it; otherwise the first character is kept. */
  function SplitCamel(s: string): string {
    if |s| < 2 then s
    else if IsLower(s[0]) && IsUpper(s[1]) then [s[0], ' ', s[1]] + SplitCamel(s[2..])
    else [s[0]] + SplitCamel(s[1..])
  }

  /** Every character, followed by a space exactly where a boundary starts. */
  function Spaced(s: string): string {
    if s == [] then []
    else [s[0]] + (if Boundary(s, 0) then " " else "") + Spaced(s[1..])
  }

  /** The number of boundaries in `s`. */
  function Boundaries(s: string): nat {
    if s == [] then 0 else (if Boundary(s, 0) then 1 else 0) + Boundaries(s[1..])
  }

  /** Matches of the pattern never overlap, since a match ends with an upper-case letter
      and the next one starts with a lower-case letter: the scan inserts a space at every
      boundary and nowhere else. */
  lemma {:induction false} SplitCamelSpaced(s: string)
    ensures SplitCamel(s) == Spaced(s)
    decreases |s|
  {
    if |s| >= 2 {
      if IsLower(s[0]) && IsUpper(s[1]) {
        var t := s[1..];
        assert !Boundary(t, 0);
        assert t[1..] == s[2..];
        SplitCamelSpaced(s[2..]);
      } else {
        SplitCamelSpaced(s[1..]);
      }
    } else if |s| == 1 {
      assert s[1..] == [];
    }
  }

  /** One more character per boundary. */
  lemma {:induction false} SpacedLength(s: string)
    ensures |Spaced(s)| == |s| + Boundaries(s)
  {
    if s != [] {
      SpacedLength(s[1..]);
    }
  }

  // ---------------------------------------------------------------------------
  // Second replacement: the first letter of every run upper-cased.

  /** The length of the run of letters at the front of `s`. */
  function LetterRun(s: string): (n: nat)
    ensures n <= |s|
    ensures forall i :: 0 <= i < n ==> IsLetter(s[i])
    ensures n < |s| ==> !IsLetter(s[n])
  {
    if s == [] || !IsLetter(s[0]) then 0 else 1 + LetterRun(s[1..])
  }

  /** The scan of `s.replace(/([a-zA-Z])+/g, (match) => match.charAt(0).toUpperCase() +
      match.slice(1))`: the greedy match at the front is the whole run of letters. */
  function CapitalizeRuns(s: string): (r: string)
    ensures |r| == |s|
    decreases |s|
  {
    if s == [] then []
    else if IsLetter(s[0]) then
      var n := LetterRun(s);
      [UpperChar(s[0])] + s[1..n] + CapitalizeRuns(s[n..])
    else [s[0]] + CapitalizeRuns(s[1..])
  }

  /** Position `i` starts a run of letters. */
  predicate RunStart(s: string, i: int)
    requires 0 <= i < |s|
  {
    IsLetter(s[i]) && (i == 0 || !IsLetter(s[i - 1]))
  }

  /** The first letter of every run is upper-cased, every other character is kept. */
  lemma {:induction false} CapitalizeRunsAt(s: string)
    ensures forall i :: 0 <= i < |s| ==>
      CapitalizeRuns(s)[i] == if RunStart(s, i) then UpperChar(s[i]) else s[i]
    decreases |s|
  {
    if s != [] {
      var r := CapitalizeRuns(s);
      if IsLetter(s[0]) {
        var n := LetterRun(s);
        var t := s[n..];
        CapitalizeRunsAt(t);
        forall i | 0 <= i < |s| ensures r[i] == if RunStart(s, i) then UpperChar(s[i]) else s[i] {
          if n <= i {
            assert r[i] == CapitalizeRuns(t)[i - n];
            assert t[i - n] == s[i];
            if i - n == 0 {
              assert i > 0 && s[i - 1] == s[n - 1];
            } else {
              assert t[i - n - 1] == s[i - 1];
            }
          }
        }
      } else {
        var t := s[1..];
        CapitalizeRunsAt(t);
        forall i | 0 <= i < |s| ensures r[i] == if RunStart(s, i) then UpperChar(s[i]) else s[i] {
          if i > 0 {
            assert r[i] == CapitalizeRuns(t)[i - 1];
            assert t[i - 1] == s[i];
            if i > 1 {
              assert t[i - 2] == s[i - 1];
            }
          }
        }
      }
    }
  }

  // ---------------------------------------------------------------------------
  // The whole conversion.

  function CamelToPascalWithSpace(s: string): string {
    CapitalizeRuns(SplitCamel(s))
  }

  /** The result has one space more than the input per lower-to-upper boundary; it is the
      input with those spaces inserted, and with the first letter of every run of letters
      upper-cased. */
  lemma CamelToPascalWithSpaceSpec(s: string)
    ensures |CamelToPascalWithSpace(s)| == |Spaced(s)| == |s| + Boundaries(s)
    ensures var t := Spaced(s); forall i :: 0 <= i < |t| ==>
      CamelToPascalWithSpace(s)[i] == if RunStart(t, i) then UpperChar(t[i]) else t[i]
  {
    SplitCamelSpaced(s);
    SpacedLength(s);
    CapitalizeRunsAt(Spaced(s));
  }

  // ---------------------------------------------------------------------------
  // Camel-case names made of words.

  /** A word of a camel-case name: a letter followed by at least one lower-case letter. */
  predicate Word(w: string) {
    |w| >= 2 && IsLetter(w[0]) && forall i :: 1 <= i < |w| ==> IsLower(w[i])
  }

  /** The word with its first letter upper-cased. */
  function Capitalized(w: string): (r: string)
    requires w != []
    ensures |r| == |w|
  {
    [UpperChar(w[0])] + w[1..]
  }

  /** Camel case: every word but the first starts with an upper-case letter. */
  predicate CamelWords(ws: seq<string>) {
    (forall k :: 0 <= k < |ws| ==> Word(ws[k])) && forall k :: 1 <= k < |ws| ==> IsUpper(ws[k][0])
  }

  function Concat(ws: seq<string>): string {
    if ws == [] then [] else Concat(DropLast(ws)) + Last(ws)
  }

  function CapitalizeAll(ws: seq<string>): (r: seq<string>)
    requires forall k :: 0 <= k < |ws| ==> ws[k] != []
    ensures |r| == |ws| && forall k :: 0 <= k < |ws| ==> r[k] == Capitalized(ws[k])
  {
    if ws == [] then [] else CapitalizeAll(DropLast(ws)) + [Capitalized(Last(ws))]
  }

  lemma {:induction false} SpacedConcat(a: string, b: string)
    ensures Spaced(a + b) ==
      Spaced(a) + (if a != [] && b != [] && IsLower(Last(a)) && IsUpper(b[0]) then " " else "") + Spaced(b)
  {
    if a != [] {
      assert (a + b)[1..] == a[1..] + b;
      SpacedConcat(a[1..], b);
      if |a| == 1 {
        assert a[1..] == [];
        assert Spaced(a) == [a[0]];
      } else {
        assert Last(a[1..]) == Last(a);
        assert (a + b)[1] == a[1];
        assert Boundary(a + b, 0) == Boundary(a, 0);
      }
    } else {
      assert a + b == b;
    }
  }

  lemma {:induction false} SpacedWord(w: string)
    requires forall i :: 1 <= i < |w| ==> IsLower(w[i])
    ensures Spaced(w) == w
  {
    if w != [] {
      SpacedWord(w[1..]);
    }
  }

  lemma {:induction false} CapitalizeRunsConcat(a: string, b: string)
    requires a == [] || b == [] || !IsLetter(Last(a)) || !IsLetter(b[0])
    ensures CapitalizeRuns(a + b) == CapitalizeRuns(a) + CapitalizeRuns(b)
  {
    var s := a + b;
    CapitalizeRunsAt(s);
    CapitalizeRunsAt(a);
    CapitalizeRunsAt(b);
    forall i | 0 <= i < |s| ensures CapitalizeRuns(s)[i] == (CapitalizeRuns(a) + CapitalizeRuns(b))[i] {
      if i < |a| {
        assert RunStart(s, i) == RunStart(a, i);
      } else {
        assert s[i] == b[i - |a|];
        if i > |a| {
          assert s[i - 1] == b[i - |a| - 1];
        } else if a != [] {
          assert s[i - 1] == Last(a);
        }
        assert RunStart(s, i) == RunStart(b, i - |a|);
      }
    }
  }

  lemma {:induction false} CapitalizeRunsWord(w: string)
    requires Word(w)
    ensures CapitalizeRuns(w) == Capitalized(w)
  {
    CapitalizeRunsAt(w);
    forall i | 1 <= i < |w| ensures !RunStart(w, i) {
      assert IsLetter(w[i - 1]);
    }
  }

  /** Appending a space and a word to a text. */
  lemma CapitalizeRunsAppendWord(j: string, w: string)
    requires Word(w)
    ensures CapitalizeRuns(j + " " + w) == CapitalizeRuns(j) + " " + Capitalized(w)
  {
    CapitalizeRunsConcat(j + " ", w);
    CapitalizeRunsConcat(j, " ");
    CapitalizeRunsWord(w);
    assert CapitalizeRuns(" ") == " ";
  }

  /** The words of a camel-case name come out capitalised and separated by one space. */
  lemma {:induction false} CamelWordsSpaced(ws: seq<string>)
    requires CamelWords(ws)
    ensures CamelToPascalWithSpace(Concat(ws)) == Join(CapitalizeAll(ws), " ")
  {
    SpacedWordsJoin(ws);
    SplitCamelSpaced(Concat(ws));
    CapitalizeJoin(ws);
  }

  lemma {:induction false} SpacedWordsJoin(ws: seq<string>)
    requires CamelWords(ws)
    ensures Spaced(Concat(ws)) == Join(ws, " ")
    ensures ws != [] ==> Concat(ws) != [] && IsLower(Last(Concat(ws)))
  {
    if ws != [] {
      var p := DropLast(ws);
      var w := Last(ws);
      assert CamelWords(p) by {
        assert forall k :: 0 <= k < |p| ==> p[k] == ws[k];
      }
      SpacedWordsJoin(p);
      SpacedConcat(Concat(p), w);
      SpacedWord(w);
      assert Last(Concat(p) + w) == Last(w);
      if p != [] {
        assert IsUpper(ws[|ws| - 1][0]);
      }
    }
  }

  lemma {:induction false} CapitalizeJoin(ws: seq<string>)
    requires CamelWords(ws)
    ensures CapitalizeRuns(Join(ws, " ")) == Join(CapitalizeAll(ws), " ")
  {
    if |ws| == 1 {
      CapitalizeRunsWord(ws[0]);
    } else if |ws| > 1 {
      var p := DropLast(ws);
      var w := Last(ws);
      assert CamelWords(p) by {
        assert forall k :: 0 <= k < |p| ==> p[k] == ws[k];
      }
      CapitalizeJoin(p);
      CapitalizeRunsAppendWord(Join(p, " "), w);
      assert DropLast(CapitalizeAll(ws)) == CapitalizeAll(p);
    }
  }

  // ---------------------------------------------------------------------------
  // The cases of the helper's tests.

  const CamelCaseName: string := "camelCaseString"
  const SimpleTestName: string := "simpleTest"
  const PascalCaseName: string := "PascalCase"
  const SimpleName: string := "simple"
  const AnotherExampleName: string := "anotherExampleString"

  lemma CamelCaseString()
    ensures CamelToPascalWithSpace(CamelCaseName) == "Camel Case String"
  {
    var ws := ["camel", "Case", "String"];
    CamelCaseWords(ws);
    CamelCaseCapitalized(ws);
    CamelWordsSpaced(ws);
  }

  lemma CamelCaseWords(ws: seq<string>)
    requires ws == ["camel", "Case", "String"]
    ensures Concat(ws) == CamelCaseName && CamelWords(ws)
  {
    Concat3(ws[0], ws[1], ws[2]);
  }

  lemma CamelCaseCapitalized(ws: seq<string>)
    requires ws == ["camel", "Case", "String"]
    ensures Join(CapitalizeAll(ws), " ") == "Camel Case String"
  {
    CapitalizedHead("camel", "Camel");
    CapitalizedHead("Case", "Case");
    CapitalizedHead("String", "String");
    assert CapitalizeAll(ws) == ["Camel", "Case", "String"];
    Join3("Camel", "Case", "String", " ");
  }

  lemma AnotherExampleString()
    ensures CamelToPascalWithSpace(AnotherExampleName) == "Another Example String"
  {
    var ws := ["another", "Example", "String"];
    AnotherExampleWords(ws);
    AnotherExampleCapitalized(ws);
    CamelWordsSpaced(ws);
  }

  lemma AnotherExampleWords(ws: seq<string>)
    requires ws == ["another", "Example", "String"]
    ensures Concat(ws) == AnotherExampleName && CamelWords(ws)
  {
    Concat3(ws[0], ws[1], ws[2]);
  }

  lemma AnotherExampleCapitalized(ws: seq<string>)
    requires ws == ["another", "Example", "String"]
    ensures Join(CapitalizeAll(ws), " ") == "Another Example String"
  {
    AnotherWords();
    assert CapitalizeAll(ws) == ["Another", "Example", "String"];
    Join3("Another", "Example", "String", " ");
  }

  lemma AnotherWords()
    ensures Capitalized("another") == "Another"
    ensures Capitalized("Example") == "Example"
    ensures Capitalized("String") == "String"
  {
    CapitalizedHead("another", "Another");
    CapitalizedHead("Example", "Example");
    CapitalizedHead("String", "String");
  }

  lemma SimpleTest()
    ensures CamelToPascalWithSpace(SimpleTestName) == "Simple Test"
  {
    var ws := ["simple", "Test"];
    SimpleTestWords(ws);
    SimpleTestCapitalized(ws);
    CamelWordsSpaced(ws);
  }

  lemma SimpleTestWords(ws: seq<string>)
    requires ws == ["simple", "Test"]
    ensures Concat(ws) == SimpleTestName && CamelWords(ws)
  {
    Concat2(ws[0], ws[1]);
  }

  lemma SimpleTestCapitalized(ws: seq<string>)
    requires ws == ["simple", "Test"]
    ensures Join(CapitalizeAll(ws), " ") == "Simple Test"
  {
    CapitalizedHead("simple", "Simple");
    CapitalizedHead("Test", "Test");
    assert CapitalizeAll(ws) == ["Simple", "Test"];
    Join2("Simple", "Test", " ");
  }

  lemma EmptyName()
    ensures CamelToPascalWithSpace("") == ""
  {
  }

  lemma PascalCase()
    ensures CamelToPascalWithSpace(PascalCaseName) == "Pascal Case"
  {
    var ws := ["Pascal", "Case"];
    PascalCaseWords(ws);
    PascalCaseCapitalized(ws);
    CamelWordsSpaced(ws);
  }

  lemma PascalCaseWords(ws: seq<string>)
    requires ws == ["Pascal", "Case"]
    ensures Concat(ws) == PascalCaseName && CamelWords(ws)
  {
    Concat2(ws[0], ws[1]);
  }

  lemma PascalCaseCapitalized(ws: seq<string>)
    requires ws == ["Pascal", "Case"]
    ensures Join(CapitalizeAll(ws), " ") == "Pascal Case"
  {
    CapitalizedHead("Pascal", "Pascal");
    CapitalizedHead("Case", "Case");
    assert CapitalizeAll(ws) == ["Pascal", "Case"];
    Join2("Pascal", "Case", " ");
  }

  lemma SimpleWord()
    ensures CamelToPascalWithSpace(SimpleName) == "Simple"
  {
    var ws := ["simple"];
    SimpleWordConcat(ws);
    SimpleWordCapitalized(ws);
    CamelWordsSpaced(ws);
  }

  lemma SimpleWordConcat(ws: seq<string>)
    requires ws == ["simple"]
    ensures Concat(ws) == SimpleName && CamelWords(ws)
  {
    assert DropLast(ws) == [];
    assert [] + ws[0] == ws[0];
  }

  lemma SimpleWordCapitalized(ws: seq<string>)
    requires ws == ["simple"]
    ensures Join(CapitalizeAll(ws), " ") == "Simple"
  {
    CapitalizedHead("simple", "Simple");
    assert CapitalizeAll(ws) == ["Simple"];
  }

  /** A literal word with its first letter upper-cased. */
  lemma CapitalizedHead(w: string, r: string)
    requires |w| == |r| > 0 && r[0] == UpperChar(w[0]) && forall i :: 1 <= i < |w| ==> r[i] == w[i]
    ensures Capitalized(w) == r
  {
  }

  lemma Concat2(a: string, b: string)
    ensures Concat([a, b]) == a + b
  {
    assert Concat([a]) == a by {
      assert DropLast([a]) == [];
      assert [] + a == a;
    }
    assert DropLast([a, b]) == [a];
    assert Concat([a, b]) == Concat([a]) + b;
  }

  lemma Concat3(a: string, b: string, c: string)
    ensures Concat([a, b, c]) == a + b + c
  {
    assert DropLast([a, b, c]) == [a, b];
    Concat2(a, b);
  }

  lemma Join2(a: string, b: string, sep: string)
    ensures Join([a, b], sep) == a + sep + b
  {
    assert DropLast([a, b]) == [a];
  }

  lemma Join3(a: string, b: string, c: string, sep: string)
    ensures Join([a, b, c], sep) == a + sep + b + sep + c
  {
    assert DropLast([a, b, c]) == [a, b];
    Join2(a, b, sep);
  }
}
