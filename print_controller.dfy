/** `printController`: the table of routes an application prints at start-up. A first pass
    finds the widest path, use-case name and tag; a second pass formats one row per use
    case, printing a tag only on the first row of a run of rows with that tag. */
module PrintController {
  import opened Common
  import opened JsStrings
  import opened Json
  import opened Types
  import opened Naming

  /** What `printController` reads of a use case: the function's name and the decorator
      list it reads as `funcMetadata.decorators`. */
  datatype UseCase = UseCase(name: string, decorators: seq<Decorator>)

  /** The data of a `@Controller` decorator. */
  datatype Route = Route(httpMethod: string, path: string, tag: string)

  datatype Row = Row(tag: string, useCase: string, httpMethod: string, path: string)

  const ControllerName := "Controller"
  const MethodKey := "method"
  const PathKey := "path"
  const TagKey := "tag"

  /** The data of the first `Controller` decorator, when it has string `method`, `path` and
      `tag` members; otherwise reading them throws a TypeError. */
  function RouteOf(u: UseCase): Option<Route> {
    var c := FindDecorator(u.decorators, ControllerName);
    if c.None? then None
    else
      var m := StringMember(c.value.data, MethodKey);
      var p := StringMember(c.value.data, PathKey);
      var t := StringMember(c.value.data, TagKey);
      if m.Some? && p.Some? && t.Some? then Some(Route(m.value, p.value, t.value)) else None
  }

  /** Every use case has a route. */
  predicate AllRouted(us: seq<UseCase>) {
    forall i :: 0 <= i < |us| ==> RouteOf(us[i]).Some?
  }

  function RoutesOf(us: seq<UseCase>): (rs: seq<Route>)
    requires AllRouted(us)
    ensures |rs| == |us|
  {
    if us == [] then []
    else
      assert AllRouted(DropLast(us)) by {
        assert forall i :: 0 <= i < |us| - 1 ==> DropLast(us)[i] == us[i];
      }
      RoutesOf(DropLast(us)) + [RouteOf(Last(us)).value]
  }

  /** The routes are the use cases' routes, one for one. */
  lemma {:induction false} RoutesOfAt(us: seq<UseCase>)
    requires AllRouted(us)
    ensures forall i :: 0 <= i < |us| ==> RouteOf(us[i]) == Some(RoutesOf(us)[i])
  {
    if us != [] {
      var p := DropLast(us);
      assert forall i :: 0 <= i < |p| ==> p[i] == us[i];
      RoutesOfAt(p);
    }
  }

  lemma RouteAt(us: seq<UseCase>, i: nat)
    requires AllRouted(us) && i < |us|
    ensures RouteOf(us[i]) == Some(RoutesOf(us)[i])
  {
    RoutesOfAt(us);
  }

  /** The length of the longest string, 0 for none. */
  function MaxLen(ss: seq<string>): nat {
    if ss == [] then 0
    else
      var m := MaxLen(DropLast(ss));
      if m < |Last(ss)| then |Last(ss)| else m
  }

  /** No string is longer than the longest length. */
  lemma {:induction false} MaxLenBound(ss: seq<string>)
    ensures forall i :: 0 <= i < |ss| ==> |ss[i]| <= MaxLen(ss)
  {
    if ss != [] {
      MaxLenBound(DropLast(ss));
      assert forall i :: 0 <= i < |ss| - 1 ==> ss[i] == DropLast(ss)[i];
    }
  }

  /** The longest length is the length of one of the strings. */
  lemma {:induction false} MaxLenAttained(ss: seq<string>)
    requires ss != []
    ensures exists i :: 0 <= i < |ss| && |ss[i]| == MaxLen(ss)
  {
    if |ss| > 1 && MaxLen(DropLast(ss)) >= |Last(ss)| {
      MaxLenAttained(DropLast(ss));
      var i :| 0 <= i < |ss| - 1 && |DropLast(ss)[i]| == MaxLen(DropLast(ss));
      assert ss[i] == DropLast(ss)[i];
    } else {
      assert |ss[|ss| - 1]| == MaxLen(ss);
    }
  }

  function PathsOf(rs: seq<Route>): (ps: seq<string>)
    ensures |ps| == |rs|
  {
    if rs == [] then [] else PathsOf(DropLast(rs)) + [Last(rs).path]
  }

  function TagsOf(rs: seq<Route>): (ts: seq<string>)
    ensures |ts| == |rs|
  {
    if rs == [] then [] else TagsOf(DropLast(rs)) + [Last(rs).tag]
  }

  /** The use-case column before padding: each name with spaces between its words. */
  function TitlesOf(us: seq<UseCase>): (ts: seq<string>)
    ensures |ts| == |us|
  {
    if us == [] then [] else TitlesOf(DropLast(us)) + [CamelToPascalWithSpace(Last(us).name)]
  }

  /** The path and tag columns hold each route's path and tag. */
  lemma {:induction false} PathsTagsAt(rs: seq<Route>)
    ensures forall i :: 0 <= i < |rs| ==> PathsOf(rs)[i] == rs[i].path && TagsOf(rs)[i] == rs[i].tag
  {
    if rs != [] {
      PathsTagsAt(DropLast(rs));
      assert forall i :: 0 <= i < |rs| - 1 ==> rs[i] == DropLast(rs)[i];
    }
  }

  /** The title column holds each use case's title. */
  lemma {:induction false} TitlesAt(us: seq<UseCase>)
    ensures forall i :: 0 <= i < |us| ==> TitlesOf(us)[i] == CamelToPascalWithSpace(us[i].name)
  {
    if us != [] {
      TitlesAt(DropLast(us));
      assert forall i :: 0 <= i < |us| - 1 ==> us[i] == DropLast(us)[i];
    }
  }

  /** The tag printed on row `i`: the row's tag when it differs from the tag of the row
      before (the empty string before the first row), otherwise nothing. */
  function GroupLabel(rs: seq<Route>, i: nat): string
    requires i < |rs|
  {
    var previous := if i == 0 then "" else rs[i - 1].tag;
    if rs[i].tag != previous then rs[i].tag else ""
  }

  /** The widths of the tag, use-case and path columns. */
  datatype Widths = Widths(tag: nat, useCase: nat, path: nat)

  /** The widths the first pass computes: the longest tag, title and path. */
  function WidthsOf(us: seq<UseCase>): Widths
    requires AllRouted(us)
  {
    Widths(MaxLen(TagsOf(RoutesOf(us))), MaxLen(TitlesOf(us)), MaxLen(PathsOf(RoutesOf(us))))
  }

  /** The widths after one more use case with route `r` and title `title`. */
  function Widen(w: Widths, r: Route, title: string): Widths {
    Widths(if w.tag < |r.tag| then |r.tag| else w.tag,
           if w.useCase < |title| then |title| else w.useCase,
           if w.path < |r.path| then |r.path| else w.path)
  }

  /** The row the `map` returns for a use case named `name` with route `r`, when it prints
      `shown` in the tag column: each cell padded to its column's width, the method
      right-aligned in six characters, the tag and the method upper-cased. */
  function FormatRow(shown: string, name: string, r: Route, w: Widths): Row {
    Row(PadEnd(ToUpper(shown), w.tag),
        PadEnd(CamelToPascalWithSpace(name), w.useCase),
        ToUpper(PadStart(r.httpMethod, 6)),
        PadEnd(r.path, w.path))
  }

  /** Row `i` of the table, with the column widths `w`. */
  function TableRow(us: seq<UseCase>, rs: seq<Route>, w: Widths, i: nat): Row
    requires |us| == |rs| && i < |rs|
  {
    FormatRow(GroupLabel(rs, i), us[i].name, rs[i], w)
  }

  /** The first `n` rows of the table. */
  function Table(us: seq<UseCase>, rs: seq<Route>, w: Widths, n: nat): (t: seq<Row>)
    requires |us| == |rs| && n <= |rs|
    ensures |t| == n
  {
    seq(n, k requires 0 <= k < n => TableRow(us, rs, w, k))
  }

  /** `printController(useCases)`: one row per use case, or `None` when a use case has no
      usable `Controller` data and the source throws. */
  method Print(useCases: seq<UseCase>) returns (rows: Option<seq<Row>>)
    ensures rows.None? <==> !AllRouted(useCases)
    ensures rows.Some? ==>
      AllRouted(useCases) && rows.value == Table(useCases, RoutesOf(useCases), WidthsOf(useCases), |useCases|)
  {
    var widths := MeasureColumns(useCases);
    if widths.None? {
      return None;
    }
    var table := FormatRows(useCases, widths.value);
    return Some(table);
  }

  /** The first pass (the `forEach`): the widest path, title and tag; it throws at the
      first use case without a usable route. */
  method MeasureColumns(useCases: seq<UseCase>) returns (widths: Option<Widths>)
    ensures widths.None? <==> !AllRouted(useCases)
    ensures widths.Some? ==> AllRouted(useCases) && widths.value == WidthsOf(useCases)
  {
    var maxLengthRoute: nat, maxLengthUseCase: nat, maxLengthTag: nat := 0, 0, 0;
    var i := 0;
    while i < |useCases|
      invariant 0 <= i <= |useCases| && AllRouted(useCases[..i])
      invariant Widths(maxLengthTag, maxLengthUseCase, maxLengthRoute) == WidthsOf(useCases[..i])
    {
      var data := RouteOf(useCases[i]);
      if data.None? {
        return None;
      }
      WidthsStep(useCases, i);
      if maxLengthRoute < |data.value.path| {
        maxLengthRoute := |data.value.path|;
      }
      var useCase := CamelToPascalWithSpace(useCases[i].name);
      if maxLengthUseCase < |useCase| {
        maxLengthUseCase := |useCase|;
      }
      if maxLengthTag < |data.value.tag| {
        maxLengthTag := |data.value.tag|;
      }
      i := i + 1;
    }
    assert useCases[..i] == useCases;
    return Some(Widths(maxLengthTag, maxLengthUseCase, maxLengthRoute));
  }

  /** The second pass (the `map`): the rows, with the running tag deciding which rows
      print theirs. */
  method FormatRows(useCases: seq<UseCase>, widths: Widths) returns (rows: seq<Row>)
    requires AllRouted(useCases)
    ensures rows == Table(useCases, RoutesOf(useCases), widths, |useCases|)
  {
    ghost var routes := RoutesOf(useCases);
    var tag := "";
    rows := [];
    var i := 0;
    while i < |useCases|
      invariant 0 <= i <= |useCases|
      invariant tag == if i == 0 then "" else routes[i - 1].tag
      invariant rows == Table(useCases, routes, widths, i)
    {
      RouteAt(useCases, i);
      var data := RouteOf(useCases[i]).value;
      var groupLabel := data.tag;
      if tag != data.tag {
        tag := data.tag;
      } else {
        groupLabel := "";
      }
      var row := FormatRow(groupLabel, useCases[i].name, data, widths);
      assert row == TableRow(useCases, routes, widths, i) by {
        assert data == routes[i];
        assert groupLabel == GroupLabel(routes, i);
      }
      TableNext(useCases, routes, widths, i);
      rows := rows + [row];
      i := i + 1;
    }
  }

  /** One more use case in the first pass: the prefix stays routed, and each column's width
      grows to the new use case's cell when that is wider. */
  lemma WidthsStep(us: seq<UseCase>, i: nat)
    requires i < |us| && AllRouted(us[..i]) && RouteOf(us[i]).Some?
    ensures AllRouted(us[..i + 1])
    ensures WidthsOf(us[..i + 1]) == Widen(WidthsOf(us[..i]), RouteOf(us[i]).value, CamelToPascalWithSpace(us[i].name))
  {
    var p := us[..i + 1];
    assert DropLast(p) == us[..i];
    assert AllRouted(p) by {
      forall k | 0 <= k < |p| ensures RouteOf(p[k]).Some? {
        if k < i {
          assert p[k] == us[..i][k];
        }
      }
    }
    var rs := RoutesOf(us[..i]);
    var rt := RouteOf(us[i]).value;
    assert RoutesOf(p) == rs + [rt];
    assert DropLast(rs + [rt]) == rs;
    assert DropLast(TitlesOf(p)) == TitlesOf(us[..i]);
    assert DropLast(PathsOf(rs + [rt])) == PathsOf(rs);
    assert DropLast(TagsOf(rs + [rt])) == TagsOf(rs);
  }

  /** One more row of the table. */
  lemma TableNext(us: seq<UseCase>, rs: seq<Route>, w: Widths, n: nat)
    requires |us| == |rs| && n < |rs|
    ensures Table(us, rs, w, n + 1) == Table(us, rs, w, n) + [TableRow(us, rs, w, n)]
  {
    var t, u := Table(us, rs, w, n + 1), Table(us, rs, w, n) + [TableRow(us, rs, w, n)];
    forall k | 0 <= k <= n ensures t[k] == u[k] {
      AppendAt(Table(us, rs, w, n), TableRow(us, rs, w, n), k);
    }
  }

  /** The columns line up: on every row the tag, use-case and path cells are exactly as
      wide as the widest entry of their column, and the method cell is six characters
      wide, or as wide as the method when that is longer. */
  lemma CellWidths(us: seq<UseCase>, i: nat)
    requires AllRouted(us) && i < |us|
    ensures var rs, w := RoutesOf(us), WidthsOf(us);
      var row := Table(us, rs, w, |us|)[i];
      && |row.tag| == w.tag && |row.useCase| == w.useCase && |row.path| == w.path
      && |row.httpMethod| == if |rs[i].httpMethod| >= 6 then |rs[i].httpMethod| else 6
  {
    var rs, w := RoutesOf(us), WidthsOf(us);
    CellContents(us, i);
    assert |ToUpper(GroupLabel(rs, i))| <= w.tag by {
      PathsTagsAt(rs);
      MaxLenBound(TagsOf(rs));
      assert |GroupLabel(rs, i)| <= |TagsOf(rs)[i]|;
    }
    assert |CamelToPascalWithSpace(us[i].name)| <= w.useCase by {
      TitlesAt(us);
      MaxLenBound(TitlesOf(us));
    }
    assert |rs[i].path| <= w.path by {
      PathsTagsAt(rs);
      MaxLenBound(PathsOf(rs));
    }
  }

  /** No column is wider than it needs to be: each width is the length of one entry. */
  lemma WidthsAttained(us: seq<UseCase>)
    requires AllRouted(us) && us != []
    ensures exists i :: 0 <= i < |us| && |RoutesOf(us)[i].tag| == WidthsOf(us).tag
    ensures exists i :: 0 <= i < |us| && |CamelToPascalWithSpace(us[i].name)| == WidthsOf(us).useCase
    ensures exists i :: 0 <= i < |us| && |RoutesOf(us)[i].path| == WidthsOf(us).path
  {
    var rs := RoutesOf(us);
    PathsTagsAt(rs);
    TitlesAt(us);
    MaxLenAttained(TagsOf(rs));
    MaxLenAttained(TitlesOf(us));
    MaxLenAttained(PathsOf(rs));
    var a :| 0 <= a < |rs| && |TagsOf(rs)[a]| == MaxLen(TagsOf(rs));
    assert |rs[a].tag| == WidthsOf(us).tag;
    var b :| 0 <= b < |us| && |TitlesOf(us)[b]| == MaxLen(TitlesOf(us));
    assert |CamelToPascalWithSpace(us[b].name)| == WidthsOf(us).useCase;
    var c :| 0 <= c < |rs| && |PathsOf(rs)[c]| == MaxLen(PathsOf(rs));
    assert |rs[c].path| == WidthsOf(us).path;
  }

  /** Each cell starts with its text and is filled with spaces: the upper-cased label, the
      title, the path; the method cell is the upper-cased method after spaces. */
  lemma CellContents(us: seq<UseCase>, i: nat)
    requires AllRouted(us) && i < |us|
    ensures var rs, w := RoutesOf(us), WidthsOf(us);
      var row := Table(us, rs, w, |us|)[i];
      && row.tag == PadEnd(ToUpper(GroupLabel(rs, i)), w.tag)
      && row.useCase == PadEnd(CamelToPascalWithSpace(us[i].name), w.useCase)
      && row.path == PadEnd(rs[i].path, w.path)
      && row.httpMethod == PadStart(ToUpper(rs[i].httpMethod), 6)
  {
    var rs, w := RoutesOf(us), WidthsOf(us);
    UpperPadStart(rs[i].httpMethod, 6);
  }

  /** Upper-casing after padding on the left is padding after upper-casing: the padding
      is spaces, which upper-casing keeps. */
  lemma UpperPadStart(m: string, n: nat)
    ensures ToUpper(PadStart(m, n)) == PadStart(ToUpper(m), n)
  {
    if |m| < n {
      var p := n - |m|;
      var a, b := ToUpper(Spaces(p) + m), Spaces(p) + ToUpper(m);
      ToUpperAt(Spaces(p) + m);
      ToUpperAt(m);
      forall k | 0 <= k < |a| ensures a[k] == b[k] {
        if k >= p {
          assert (Spaces(p) + m)[k] == m[k - p];
        }
      }
      assert a == b;
    }
  }

  /** The tag a reader attributes to row `i`: the nearest label printed at or above it. */
  function ShownTag(rs: seq<Route>, i: nat): string
    requires i < |rs|
  {
    if i == 0 || GroupLabel(rs, i) != "" then GroupLabel(rs, i) else ShownTag(rs, i - 1)
  }

  /** Printing a tag only where it changes loses nothing: when no tag is empty, the
      nearest label at or above each row is that row's tag. */
  lemma {:induction false} ShownTagIsTag(rs: seq<Route>, i: nat)
    requires i < |rs| && forall k :: 0 <= k <= i ==> rs[k].tag != ""
    ensures ShownTag(rs, i) == rs[i].tag
  {
    if i > 0 && GroupLabel(rs, i) == "" {
      ShownTagIsTag(rs, i - 1);
    }
  }

  /** The routes of the four use cases of the module's test: three `User` routes, then a
      `Product` route. */
  const TestRoutes: seq<Route> := [
    Route("get", "/user/data", "User"), Route("put", "/user/data", "User"),
    Route("delete", "/user", "User"), Route("get", "/product/data", "Product")]

  /** The tag column of the test: the tag on the first row of each run only; the tag and
      path columns are 7 and 13 characters wide. */
  lemma TestGroupLabels()
    ensures GroupLabel(TestRoutes, 0) == "User" && GroupLabel(TestRoutes, 1) == ""
    ensures GroupLabel(TestRoutes, 2) == "" && GroupLabel(TestRoutes, 3) == "Product"
    ensures MaxLen(TagsOf(TestRoutes)) == 7
    ensures MaxLen(PathsOf(TestRoutes)) == 13
  {
    var rs := TestRoutes;
    assert rs[0].tag == rs[1].tag == rs[2].tag == "User" && rs[3].tag == "Product";
    assert DropLast(rs) == rs[..3] && DropLast(rs[..3]) == rs[..2] && DropLast(rs[..2]) == rs[..1];
    var tags := TagsOf(rs);
    assert tags == ["User", "User", "User", "Product"];
    assert MaxLen(tags) == 7 by {
      assert DropLast(tags) == tags[..3] && DropLast(tags[..3]) == tags[..2] && DropLast(tags[..2]) == tags[..1];
      assert MaxLen(tags[..1]) == 4 && MaxLen(tags[..2]) == 4 && MaxLen(tags[..3]) == 4;
    }
    var paths := PathsOf(rs);
    assert paths == ["/user/data", "/user/data", "/user", "/product/data"];
    assert MaxLen(paths) == 13 by {
      assert DropLast(paths) == paths[..3] && DropLast(paths[..3]) == paths[..2] && DropLast(paths[..2]) == paths[..1];
      assert MaxLen(paths[..1]) == 10 && MaxLen(paths[..2]) == 10 && MaxLen(paths[..3]) == 10;
    }
  }

  /** A three-letter method is right-aligned in six characters, upper-cased. */
  lemma ThreeLetterMethod(m: string, u: string)
    requires |m| == 3 && |u| == 3 && forall k :: 0 <= k < 3 ==> u[k] == UpperChar(m[k])
    ensures ToUpper(PadStart(m, 6)) == "   " + u
  {
    UpperPadStart(m, 6);
    ToUpperAt(m);
    assert ToUpper(m) == u;
    assert Spaces(3) == "   " by {
      assert Spaces(1) == " " && Spaces(2) == "  ";
    }
  }

  /** The method column of the test: `   GET`, `   PUT` and `DELETE`. */
  lemma TestMethodCells()
    ensures ToUpper(PadStart("get", 6)) == "   GET"
    ensures ToUpper(PadStart("put", 6)) == "   PUT"
    ensures ToUpper(PadStart("delete", 6)) == "DELETE"
  {
    ThreeLetterMethod("get", "GET");
    ThreeLetterMethod("put", "PUT");
    ToUpperAt("delete");
  }

  /** The test with no use cases: the table is empty. */
  method TestEmptyArray() returns (rows: Option<seq<Row>>)
    ensures rows == Some([])
  {
    rows := Print([]);
  }

  // The module's first test, row by row.

  /** A use case whose only decorator is a `Controller` with the given method, path and
      tag, in that key order. */
  function Controlled(name: string, httpMethod: string, path: string, tag: string): UseCase {
    UseCase(name, [Decorator(ControllerName, JObject([(MethodKey, JString(httpMethod)), (PathKey, JString(path)), (TagKey, JString(tag))]))])
  }

  lemma ControlledRoute(name: string, httpMethod: string, path: string, tag: string)
    ensures RouteOf(Controlled(name, httpMethod, path, tag)) == Some(Route(httpMethod, path, tag))
  {
    var e := [(MethodKey, JString(httpMethod)), (PathKey, JString(path)), (TagKey, JString(tag))];
    assert e[1..] == [(PathKey, JString(path)), (TagKey, JString(tag))];
    assert e[1..][1..] == [(TagKey, JString(tag))];
    assert Lookup(e, MethodKey) == Some(JString(httpMethod));
    assert Lookup(e, PathKey) == Some(JString(path));
    assert Lookup(e[1..][1..], TagKey) == Some(JString(tag));
    assert Lookup(e[1..], TagKey) == Some(JString(tag));
  }

  /** The four use cases of the test. */
  const TestUseCases: seq<UseCase> := [
    Controlled("getUserData", "get", "/user/data", "User"),
    Controlled("updateUserData", "put", "/user/data", "User"),
    Controlled("deleteUser", "delete", "/user", "User"),
    Controlled("getProductData", "get", "/product/data", "Product")]

  /** The rows the test expects. */
  const ExpectedRows: seq<Row> := [
    Row("USER   ", "Get User Data   ", "   GET", "/user/data   "),
    Row("       ", "Update User Data", "   PUT", "/user/data   "),
    Row("       ", "Delete User     ", "DELETE", "/user        "),
    Row("PRODUCT", "Get Product Data", "   GET", "/product/data")]

  /** The test: `printController` returns the four expected rows. */
  method TestPrintController() returns (rows: Option<seq<Row>>)
    ensures rows.Some? && |rows.value| == 4
    ensures rows.value[0] == Row("USER   ", "Get User Data   ", "   GET", "/user/data   ")
    ensures rows.value[1] == Row("       ", "Update User Data", "   PUT", "/user/data   ")
    ensures rows.value[2] == Row("       ", "Delete User     ", "DELETE", "/user        ")
    ensures rows.value[3] == Row("PRODUCT", "Get Product Data", "   GET", "/product/data")
  {
    TestTable();
    rows := Print(TestUseCases);
  }

  /** The rows of the test's table are the expected ones. */
  lemma TestTable()
    ensures AllRouted(TestUseCases) && |TestUseCases| == 4
    ensures var t := Table(TestUseCases, RoutesOf(TestUseCases), WidthsOf(TestUseCases), |TestUseCases|);
      t[0] == ExpectedRows[0] && t[1] == ExpectedRows[1] && t[2] == ExpectedRows[2] && t[3] == ExpectedRows[3]
  {
    TestNames();
    TestUseCaseRoutes();
    TestWidths();
    var w := Widths(7, 16, 13);
    TestRow0(w);
    TestRow1(w);
    TestRow2(w);
    TestRow3(w);
    TableAt(TestUseCases, TestRoutes, w, 4, 0);
    TableAt(TestUseCases, TestRoutes, w, 4, 1);
    TableAt(TestUseCases, TestRoutes, w, 4, 2);
    TableAt(TestUseCases, TestRoutes, w, 4, 3);
  }

  lemma TableAt(us: seq<UseCase>, rs: seq<Route>, w: Widths, n: nat, k: nat)
    requires |us| == |rs| && k < n <= |rs|
    ensures Table(us, rs, w, n)[k] == TableRow(us, rs, w, k)
  {
  }

  /** Every test use case has the route of `TestRoutes` at its position. */
  lemma TestUseCaseRoutes()
    ensures AllRouted(TestUseCases) && RoutesOf(TestUseCases) == TestRoutes
  {
    var us := TestUseCases;
    ControlledRoute("getUserData", "get", "/user/data", "User");
    ControlledRoute("updateUserData", "put", "/user/data", "User");
    ControlledRoute("deleteUser", "delete", "/user", "User");
    ControlledRoute("getProductData", "get", "/product/data", "Product");
    assert forall i :: 0 <= i < |us| ==> RouteOf(us[i]) == Some(TestRoutes[i]);
    RoutesOfAt(us);
    assert forall i :: 0 <= i < |us| ==> RoutesOf(us)[i] == TestRoutes[i];
  }

  /** The widths are 7 (`Product`), 16 (`Update User Data`) and 13 (`/product/data`). */
  lemma TestWidths()
    ensures AllRouted(TestUseCases) && WidthsOf(TestUseCases) == Widths(7, 16, 13)
  {
    TestUseCaseRoutes();
    TestGroupLabels();
    TestTitles();
    TestTitleWidth();
    WidthsFrom(TestUseCases, TestRoutes, ["Get User Data", "Update User Data", "Delete User", "Get Product Data"]);
  }

  lemma TestTitleWidth()
    ensures MaxLen(["Get User Data", "Update User Data", "Delete User", "Get Product Data"]) == 16
  {
    MaxLenIs(["Get User Data", "Update User Data", "Delete User", "Get Product Data"], 16, 1);
  }

  /** The widths from the routes and the titles. */
  lemma WidthsFrom(us: seq<UseCase>, rs: seq<Route>, titles: seq<string>)
    requires AllRouted(us) && RoutesOf(us) == rs && TitlesOf(us) == titles
    ensures WidthsOf(us) == Widths(MaxLen(TagsOf(rs)), MaxLen(titles), MaxLen(PathsOf(rs)))
  {
  }

  /** A bound that some string attains is the longest length. */
  lemma MaxLenIs(ss: seq<string>, m: nat, k: nat)
    requires k < |ss| && |ss[k]| == m
    requires forall i :: 0 <= i < |ss| ==> |ss[i]| <= m
    ensures MaxLen(ss) == m
  {
    MaxLenBound(ss);
    MaxLenAttained(ss);
  }

  lemma TestTitles()
    ensures TitlesOf(TestUseCases) == ["Get User Data", "Update User Data", "Delete User", "Get Product Data"]
  {
    TestTitle0();
    TestTitle1();
    TestTitle2();
    TestTitle3();
    TitlesOfFour(TestUseCases, "Get User Data", "Update User Data", "Delete User", "Get Product Data");
  }

  lemma TestTitle0()
    ensures |TestUseCases| == 4 && CamelToPascalWithSpace(TestUseCases[0].name) == "Get User Data"
  {
    TestNames();
    GetUserDataTitle();
  }

  lemma TestTitle1()
    ensures |TestUseCases| == 4 && CamelToPascalWithSpace(TestUseCases[1].name) == "Update User Data"
  {
    TestNames();
    UpdateUserDataTitle();
  }

  lemma TestTitle2()
    ensures |TestUseCases| == 4 && CamelToPascalWithSpace(TestUseCases[2].name) == "Delete User"
  {
    TestNames();
    DeleteUserTitle();
  }

  lemma TestTitle3()
    ensures |TestUseCases| == 4 && CamelToPascalWithSpace(TestUseCases[3].name) == "Get Product Data"
  {
    TestNames();
    GetProductDataTitle();
  }

  lemma TestNames()
    ensures |TestUseCases| == 4
    ensures TestUseCases[0].name == "getUserData" && TestUseCases[1].name == "updateUserData"
    ensures TestUseCases[2].name == "deleteUser" && TestUseCases[3].name == "getProductData"
  {
  }

  /** The title column of four use cases. */
  lemma TitlesOfFour(us: seq<UseCase>, t0: string, t1: string, t2: string, t3: string)
    requires |us| == 4
    requires CamelToPascalWithSpace(us[0].name) == t0 && CamelToPascalWithSpace(us[1].name) == t1
    requires CamelToPascalWithSpace(us[2].name) == t2 && CamelToPascalWithSpace(us[3].name) == t3
    ensures TitlesOf(us) == [t0, t1, t2, t3]
  {
    TitlesAt(us);
  }

  /** A row is determined by its four cells. */
  lemma RowFromCells(us: seq<UseCase>, rs: seq<Route>, w: Widths, i: nat, row: Row)
    requires |us| == |rs| && i < |rs|
    requires PadEnd(ToUpper(GroupLabel(rs, i)), w.tag) == row.tag
    requires PadEnd(CamelToPascalWithSpace(us[i].name), w.useCase) == row.useCase
    requires ToUpper(PadStart(rs[i].httpMethod, 6)) == row.httpMethod
    requires PadEnd(rs[i].path, w.path) == row.path
    ensures TableRow(us, rs, w, i) == row
  {
  }

  /** The test's use case `i` has the name and route at position `i`. */
  lemma TestAt(i: nat, name: string, r: Route)
    requires i < 4
    requires name == ["getUserData", "updateUserData", "deleteUser", "getProductData"][i]
    requires r == TestRoutes[i]
    ensures TestUseCases[i].name == name && TestRoutes[i] == r
  {
  }

  lemma TestRow0(w: Widths)
    requires w == Widths(7, 16, 13)
    ensures TableRow(TestUseCases, TestRoutes, w, 0) == ExpectedRows[0]
  {
    TestGroupLabels();
    TestMethodCells();
    TestAt(0, "getUserData", Route("get", "/user/data", "User"));
    UserTagCell();
    GetUserDataCell();
    UserDataPathCell();
    RowFromCells(TestUseCases, TestRoutes, w, 0, ExpectedRows[0]);
  }

  lemma TestRow1(w: Widths)
    requires w == Widths(7, 16, 13)
    ensures TableRow(TestUseCases, TestRoutes, w, 1) == ExpectedRows[1]
  {
    TestGroupLabels();
    TestMethodCells();
    TestAt(1, "updateUserData", Route("put", "/user/data", "User"));
    EmptyTagCell();
    UpdateUserDataCell();
    UserDataPathCell();
    RowFromCells(TestUseCases, TestRoutes, w, 1, ExpectedRows[1]);
  }

  lemma TestRow2(w: Widths)
    requires w == Widths(7, 16, 13)
    ensures TableRow(TestUseCases, TestRoutes, w, 2) == ExpectedRows[2]
  {
    TestGroupLabels();
    TestMethodCells();
    TestAt(2, "deleteUser", Route("delete", "/user", "User"));
    EmptyTagCell();
    DeleteUserCell();
    UserPathCell();
    RowFromCells(TestUseCases, TestRoutes, w, 2, ExpectedRows[2]);
  }

  lemma TestRow3(w: Widths)
    requires w == Widths(7, 16, 13)
    ensures TableRow(TestUseCases, TestRoutes, w, 3) == ExpectedRows[3]
  {
    TestGroupLabels();
    TestMethodCells();
    TestAt(3, "getProductData", Route("get", "/product/data", "Product"));
    ProductTagCell();
    GetProductDataCell();
    RowFromCells(TestUseCases, TestRoutes, w, 3, ExpectedRows[3]);
  }

  // The cells, one at a time.

  lemma UserTagCell()
    ensures PadEnd(ToUpper("User"), 7) == "USER   "
  {
    UpperWord("User", "USER");
    SpaceRuns();
    assert PadEnd("USER", 7) == "USER" + "   ";
  }

  lemma EmptyTagCell()
    ensures PadEnd(ToUpper(""), 7) == "       "
  {
    SpaceRuns();
  }

  lemma ProductTagCell()
    ensures PadEnd(ToUpper("Product"), 7) == "PRODUCT"
  {
    UpperWord("Product", "PRODUCT");
  }

  lemma GetUserDataCell()
    ensures PadEnd(CamelToPascalWithSpace("getUserData"), 16) == "Get User Data   "
  {
    GetUserDataTitle();
    SpaceRuns();
    assert PadEnd("Get User Data", 16) == "Get User Data" + "   ";
  }

  lemma UpdateUserDataCell()
    ensures PadEnd(CamelToPascalWithSpace("updateUserData"), 16) == "Update User Data"
  {
    UpdateUserDataTitle();
  }

  lemma DeleteUserCell()
    ensures PadEnd(CamelToPascalWithSpace("deleteUser"), 16) == "Delete User     "
  {
    DeleteUserTitle();
    DeleteUserPadded();
  }

  lemma DeleteUserPadded()
    ensures PadEnd("Delete User", 16) == "Delete User     "
  {
    SpaceRuns();
    assert PadEnd("Delete User", 16) == "Delete User" + "     ";
  }

  lemma GetProductDataCell()
    ensures PadEnd(CamelToPascalWithSpace("getProductData"), 16) == "Get Product Data"
  {
    GetProductDataTitle();
  }

  lemma UserDataPathCell()
    ensures PadEnd("/user/data", 13) == "/user/data   "
  {
    SpaceRuns();
    assert PadEnd("/user/data", 13) == "/user/data" + "   ";
  }

  lemma UserPathCell()
    ensures PadEnd("/user", 13) == "/user        "
  {
    SpaceRuns();
    assert PadEnd("/user", 13) == "/user" + "        ";
  }

  /** Upper-casing a word, letter by letter. */
  lemma UpperWord(s: string, u: string)
    requires |s| == |u| && forall k :: 0 <= k < |s| ==> u[k] == UpperChar(s[k])
    ensures ToUpper(s) == u
  {
    ToUpperAt(s);
  }

  lemma SpaceRuns()
    ensures Spaces(3) == "   " && Spaces(5) == "     " && Spaces(7) == "       " && Spaces(8) == "        "
  {
    assert Spaces(1) == " " && Spaces(2) == "  " && Spaces(3) == "   " && Spaces(4) == "    ";
    assert Spaces(5) == "     " && Spaces(6) == "      " && Spaces(7) == "       ";
  }

  lemma GetUserDataTitle()
    ensures CamelToPascalWithSpace("getUserData") == "Get User Data"
  {
    var ws := ["get", "User", "Data"];
    GetUserDataWords(ws);
    GetUserDataCapitalized(ws);
    CamelWordsSpaced(ws);
  }

  lemma GetUserDataWords(ws: seq<string>)
    requires ws == ["get", "User", "Data"]
    ensures Concat(ws) == "getUserData" && CamelWords(ws)
  {
    Concat3(ws[0], ws[1], ws[2]);
  }

  lemma GetUserDataCapitalized(ws: seq<string>)
    requires ws == ["get", "User", "Data"]
    ensures Join(CapitalizeAll(ws), " ") == "Get User Data"
  {
    GetUserDataHeads();
    assert CapitalizeAll(ws) == ["Get", "User", "Data"];
    Join3("Get", "User", "Data", " ");
  }

  lemma GetUserDataHeads()
    ensures Capitalized("get") == "Get"
    ensures Capitalized("User") == "User"
    ensures Capitalized("Data") == "Data"
  {
    CapitalizedHead("get", "Get");
    CapitalizedHead("User", "User");
    CapitalizedHead("Data", "Data");
  }

  lemma UpdateUserDataTitle()
    ensures CamelToPascalWithSpace("updateUserData") == "Update User Data"
  {
    var ws := ["update", "User", "Data"];
    UpdateUserDataWords(ws);
    UpdateUserDataCapitalized(ws);
    CamelWordsSpaced(ws);
  }

  lemma UpdateUserDataWords(ws: seq<string>)
    requires ws == ["update", "User", "Data"]
    ensures Concat(ws) == "updateUserData" && CamelWords(ws)
  {
    Concat3(ws[0], ws[1], ws[2]);
  }

  lemma UpdateUserDataCapitalized(ws: seq<string>)
    requires ws == ["update", "User", "Data"]
    ensures Join(CapitalizeAll(ws), " ") == "Update User Data"
  {
    UpdateUserDataHeads();
    assert CapitalizeAll(ws) == ["Update", "User", "Data"];
    Join3("Update", "User", "Data", " ");
  }

  lemma UpdateUserDataHeads()
    ensures Capitalized("update") == "Update"
    ensures Capitalized("User") == "User"
    ensures Capitalized("Data") == "Data"
  {
    CapitalizedHead("update", "Update");
    CapitalizedHead("User", "User");
    CapitalizedHead("Data", "Data");
  }

  lemma DeleteUserTitle()
    ensures CamelToPascalWithSpace("deleteUser") == "Delete User"
  {
    var ws := ["delete", "User"];
    DeleteUserWords(ws);
    DeleteUserCapitalized(ws);
    CamelWordsSpaced(ws);
  }

  lemma DeleteUserWords(ws: seq<string>)
    requires ws == ["delete", "User"]
    ensures Concat(ws) == "deleteUser" && CamelWords(ws)
  {
    Concat2(ws[0], ws[1]);
  }

  lemma DeleteUserCapitalized(ws: seq<string>)
    requires ws == ["delete", "User"]
    ensures Join(CapitalizeAll(ws), " ") == "Delete User"
  {
    DeleteUserHeads();
    assert CapitalizeAll(ws) == ["Delete", "User"];
    Join2("Delete", "User", " ");
  }

  lemma DeleteUserHeads()
    ensures Capitalized("delete") == "Delete"
    ensures Capitalized("User") == "User"
  {
    CapitalizedHead("delete", "Delete");
    CapitalizedHead("User", "User");
  }

  lemma GetProductDataTitle()
    ensures CamelToPascalWithSpace("getProductData") == "Get Product Data"
  {
    var ws := ["get", "Product", "Data"];
    GetProductDataWords(ws);
    GetProductDataCapitalized(ws);
    CamelWordsSpaced(ws);
  }

  lemma GetProductDataWords(ws: seq<string>)
    requires ws == ["get", "Product", "Data"]
    ensures Concat(ws) == "getProductData" && CamelWords(ws)
  {
    Concat3(ws[0], ws[1], ws[2]);
  }

  lemma GetProductDataCapitalized(ws: seq<string>)
    requires ws == ["get", "Product", "Data"]
    ensures Join(CapitalizeAll(ws), " ") == "Get Product Data"
  {
    GetProductDataHeads();
    assert CapitalizeAll(ws) == ["Get", "Product", "Data"];
    Join3("Get", "Product", "Data", " ");
  }

  lemma GetProductDataHeads()
    ensures Capitalized("get") == "Get"
    ensures Capitalized("Product") == "Product"
    ensures Capitalized("Data") == "Data"
  {
    CapitalizedHead("get", "Get");
    CapitalizedHead("Product", "Product");
    CapitalizedHead("Data", "Data");
  }
}
