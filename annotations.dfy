/** `getDecoratorMetadata`: the JSDoc tags of a declaration as decorators. Each doc block
    is read line by line; a line holding `@Name` starts a tag, and the lines after it
    that hold no tag continue its data. A tag whose data starts with `{` is decoded as
    JSON; other data is kept as trimmed text. `JSON.parse` is the parameter `parse`, which
    gives `None` where it throws. */
module Annotations {
  import opened Common
  import opened JsStrings
  import opened Json
  import opened Types

  /** A tag as the parser accumulates it: its name and its data text so far. */
  datatype RawTag = RawTag(name: string, data: string)

  /** The length of the run of word characters (`\w`) at the front of `s`. */
  function WordLength(s: string): (n: nat)
    ensures n <= |s|
  {
    if s == [] || !IsWordChar(s[0]) then 0 else 1 + WordLength(s[1..])
  }

  /** The length of the text before the first line terminator: what `.*` matches. */
  function LineLength(s: string): (n: nat)
    ensures n <= |s|
  {
    if s == [] || IsLineTerminator(s[0]) then 0 else 1 + LineLength(s[1..])
  }

  /** An `@` followed by a word character starts at `k`. */
  predicate TagAt(line: string, k: int) {
    0 <= k && k + 1 < |line| && line[k] == '@' && IsWordChar(line[k + 1])
  }

  /** The first position at or after `from` where a tag starts. */
  function FindTag(line: string, from: nat): (r: Option<nat>)
    ensures r.Some? ==> from <= r.value && TagAt(line, r.value)
    decreases |line| - from
  {
    if from + 1 >= |line| then None
    else if TagAt(line, from) then Some(from)
    else FindTag(line, from + 1)
  }

  /** `line.match(/@(\w+)\s*(.*)?/)`: the first `@` followed by a word character, then what
      follows it read by `WordTag`. */
  function TagMatch(line: string): Option<RawTag> {
    match FindTag(line, 0)
    case None => None
    case Some(k) => Some(WordTag(line[k + 1..]))
  }

  /** The whole word at the front of `rest` as the name, and the data after it. */
  function WordTag(rest: string): RawTag {
    var n := WordLength(rest);
    RawTag(rest[..n], TagData(rest[n..]))
  }

  /** The text after any white space, up to a line terminator (`match[2] || ""`). */
  function TagData(after: string): string {
    var tail := after[LeadingSpaces(after)..];
    tail[..LineLength(tail)]
  }

  /** The tags of one block, as the line loop leaves them: a tag line adds a tag, any other
      line after a tag appends a space and its trimmed text to the last tag's data, and
      lines before the first tag are dropped. */
  function BlockTags(lines: seq<string>): seq<RawTag> {
    if lines == [] then [] else Extend(BlockTags(DropLast(lines)), Last(lines))
  }

  /** What one more line does to the tags read so far. */
  function Extend(tags: seq<RawTag>, line: string): seq<RawTag> {
    match TagMatch(line)
    case Some(t) => tags + [t]
    case None =>
      if tags == [] then [] else DropLast(tags) + [Continue(Last(tags), line)]
  }

  /** `currentDecorator.data += " " + line.trim()`. */
  function Continue(t: RawTag, line: string): RawTag {
    RawTag(t.name, t.data + " " + Trim(line))
  }

  /** `pushDecorator`: data that starts with `{` is `JSON.parse`d, and kept raw when that
      throws; any other data is trimmed text. */
  function Decode(t: RawTag, parse: string -> Option<Json>): Decorator {
    if StartsWith(t.data, "{") then
      match parse(t.data)
      case Some(j) => Decorator(t.name, j)
      case None => Decorator(t.name, JString(t.data))
    else Decorator(t.name, JString(Trim(t.data)))
  }

  function DecodeAll(ts: seq<RawTag>, parse: string -> Option<Json>): (ds: seq<Decorator>)
    ensures |ds| == |ts|
  {
    if ts == [] then [] else DecodeAll(DropLast(ts), parse) + [Decode(Last(ts), parse)]
  }

  /** The decorators of all doc blocks, block after block. */
  function DecoratorsOf(jsDocs: seq<string>, parse: string -> Option<Json>): seq<Decorator> {
    if jsDocs == [] then []
    else DecoratorsOf(DropLast(jsDocs), parse) + DecodeAll(BlockTags(Split(Last(jsDocs), '\n')), parse)
  }

  /** `getDecoratorMetadata(jsDocs)`: the blocks' decorators, block after block. */
  method GetDecoratorMetadata(jsDocs: seq<string>, parse: string -> Option<Json>) returns (decorators: seq<Decorator>)
    ensures decorators == DecoratorsOf(jsDocs, parse)
  {
    decorators := [];
    var b := 0;
    while b < |jsDocs|
      invariant 0 <= b <= |jsDocs|
      invariant decorators == DecoratorsOf(jsDocs[..b], parse)
    {
      var block := ReadBlock(Split(jsDocs[b], '\n'), parse);
      decorators := decorators + block;
      PrefixStep(jsDocs, b);
      b := b + 1;
    }
    assert jsDocs[..b] == jsDocs;
  }

  /** The line loop over one doc block, `currentDecorator` holding the tag being read. */
  method ReadBlock(lines: seq<string>, parse: string -> Option<Json>) returns (decorators: seq<Decorator>)
    ensures decorators == DecodeAll(BlockTags(lines), parse)
  {
    decorators := [];
    var current := RawTag("", "");
    var hasDecorator := false;
    var i := 0;
    while i < |lines|
      invariant 0 <= i <= |lines|
      invariant hasDecorator <==> BlockTags(lines[..i]) != []
      invariant !hasDecorator ==> decorators == []
      invariant hasDecorator ==> current == Last(BlockTags(lines[..i]))
      invariant hasDecorator ==> decorators == DecodeAll(DropLast(BlockTags(lines[..i])), parse)
    {
      var line := lines[i];
      var m := TagMatch(line);
      LineStep(lines, i, parse);
      if m.Some? {
        if hasDecorator {
          DecodeLast(BlockTags(lines[..i]), parse);
          decorators := decorators + [Decode(current, parse)];
        }
        current := m.value;
        hasDecorator := true;
      } else if hasDecorator {
        current := Continue(current, line);
      }
      i := i + 1;
    }
    assert lines[..i] == lines;
    if hasDecorator {
      DecodeLast(BlockTags(lines), parse);
      decorators := decorators + [Decode(current, parse)];
    }
  }

  /** One more line in a block: how the tags of the prefix grow. */
  lemma LineStep(lines: seq<string>, i: nat, parse: string -> Option<Json>)
    requires i < |lines|
    ensures var tags, next := BlockTags(lines[..i]), BlockTags(lines[..i + 1]);
      match TagMatch(lines[i])
      case Some(t) => next == tags + [t] && DropLast(next) == tags
      case None =>
        && (tags == [] ==> next == [])
        && (tags != [] ==> next == DropLast(tags) + [Continue(Last(tags), lines[i])]
                           && DropLast(next) == DropLast(tags))
  {
    PrefixStep(lines, i);
    var tags := BlockTags(lines[..i]);
    if tags != [] {
      assert DropLast(DropLast(tags) + [Continue(Last(tags), lines[i])]) == DropLast(tags);
    }
  }

  /** Decoding all tags is decoding all but the last, then the last. */
  lemma DecodeLast(ts: seq<RawTag>, parse: string -> Option<Json>)
    requires ts != []
    ensures DecodeAll(ts, parse) == DecodeAll(DropLast(ts), parse) + [Decode(Last(ts), parse)]
  {
  }

  // ---------------------------------------------------------------------------------------
  // What the tag pattern matches

  lemma {:induction false} FindTagNone(line: string, from: nat)
    requires FindTag(line, from).None?
    ensures forall k :: from <= k ==> !TagAt(line, k)
    decreases |line| - from
  {
    if from + 1 < |line| {
      FindTagNone(line, from + 1);
    }
  }

  lemma {:induction false} FindTagFirst(line: string, from: nat)
    requires FindTag(line, from).Some?
    ensures forall k :: from <= k < FindTag(line, from).value ==> !TagAt(line, k)
    decreases |line| - from
  {
    if !TagAt(line, from) {
      FindTagFirst(line, from + 1);
    }
  }

  lemma {:induction false} WordLengthSpec(s: string)
    ensures forall i :: 0 <= i < WordLength(s) ==> IsWordChar(s[i])
    ensures WordLength(s) < |s| ==> !IsWordChar(s[WordLength(s)])
  {
    if s != [] && IsWordChar(s[0]) {
      WordLengthSpec(s[1..]);
    }
  }

  lemma {:induction false} LineLengthSpec(s: string)
    ensures forall i :: 0 <= i < LineLength(s) ==> !IsLineTerminator(s[i])
  {
    if s != [] && !IsLineTerminator(s[0]) {
      LineLengthSpec(s[1..]);
    }
  }

  /** A line matches exactly when it holds an `@` followed by a word character. */
  lemma TagMatchNone(line: string)
    ensures TagMatch(line).None? <==> forall k :: !TagAt(line, k)
  {
    if FindTag(line, 0).None? {
      FindTagNone(line, 0);
    }
  }

  /** The first such `@` is the one matched, and the name is the whole word after it: it
      is followed by no word character. */
  lemma TagMatchFirst(line: string, k: nat)
    requires TagAt(line, k) && forall j :: 0 <= j < k ==> !TagAt(line, j)
    ensures TagMatch(line).Some?
    ensures var name := TagMatch(line).value.name;
      && k + 1 + |name| <= |line| && line[k + 1..k + 1 + |name|] == name
      && (k + 1 + |name| < |line| ==> !IsWordChar(line[k + 1 + |name|]))
  {
    FindTagIs(line, k);
    var rest := line[k + 1..];
    var n := WordLength(rest);
    assert TagMatch(line).value.name == rest[..n];
    WordLengthSpec(rest);
    SliceOfSuffix(line, k + 1, n);
  }

  lemma FindTagIs(line: string, k: nat)
    requires TagAt(line, k) && forall j :: 0 <= j < k ==> !TagAt(line, j)
    ensures FindTag(line, 0) == Some(k)
  {
    TagMatchNone(line);
    FindTagFirst(line, 0);
  }

  /** The name is a nonempty run of word characters; the data holds no line terminator and
      does not start with white space. */
  lemma TagMatchShape(line: string)
    requires TagMatch(line).Some?
    ensures var t := TagMatch(line).value;
      && t.name != [] && (forall i :: 0 <= i < |t.name| ==> IsWordChar(t.name[i]))
      && (forall i :: 0 <= i < |t.data| ==> !IsLineTerminator(t.data[i]))
      && (t.data == [] || !IsSpace(t.data[0]))
  {
    var k := FindTag(line, 0).value;
    var rest := line[k + 1..];
    assert rest[0] == line[k + 1];
    assert TagMatch(line) == Some(WordTag(rest));
    WordTagShape(rest);
  }

  lemma WordTagShape(rest: string)
    requires rest != [] && IsWordChar(rest[0])
    ensures var t := WordTag(rest);
      && t.name != [] && (forall i :: 0 <= i < |t.name| ==> IsWordChar(t.name[i]))
      && (forall i :: 0 <= i < |t.data| ==> !IsLineTerminator(t.data[i]))
      && (t.data == [] || !IsSpace(t.data[0]))
  {
    WordLengthSpec(rest);
    TagDataShape(rest[WordLength(rest)..]);
  }

  lemma TagDataShape(after: string)
    ensures var d := TagData(after);
      && (forall i :: 0 <= i < |d| ==> !IsLineTerminator(d[i]))
      && (d == [] || !IsSpace(d[0]))
  {
    var tail := after[LeadingSpaces(after)..];
    LineLengthSpec(tail);
    if LineLength(tail) > 0 {
      assert tail[0] == after[LeadingSpaces(after)];
    }
  }

  // ---------------------------------------------------------------------------------------
  // How a block's lines become tags

  /** The names of a sequence of tags. */
  function Names(ts: seq<RawTag>): (ns: seq<string>)
    ensures |ns| == |ts|
  {
    if ts == [] then [] else Names(DropLast(ts)) + [Last(ts).name]
  }

  /** The tags the lines that hold one would start, in order. */
  function Started(lines: seq<string>): seq<RawTag> {
    if lines == [] then []
    else match TagMatch(Last(lines))
      case Some(t) => Started(DropLast(lines)) + [t]
      case None => Started(DropLast(lines))
  }

  /** Every line holding a tag gives one decorator, in the order of the lines, named after
      its tag: continuation lines change data, never names. */
  lemma {:induction false} BlockNames(lines: seq<string>)
    ensures Names(BlockTags(lines)) == Names(Started(lines))
  {
    if lines != [] {
      BlockNames(DropLast(lines));
      var tags := BlockTags(DropLast(lines));
      match TagMatch(Last(lines))
      case Some(t) =>
        assert DropLast(tags + [t]) == tags;
        assert DropLast(Started(DropLast(lines)) + [t]) == Started(DropLast(lines));
      case None =>
        if tags != [] {
          var c := Continue(Last(tags), Last(lines));
          assert DropLast(DropLast(tags) + [c]) == DropLast(tags);
        }
    }
  }

  /** Lines without a tag leave no trace before the first tag of a block. */
  lemma {:induction false} UntaggedPrefix(prefix: seq<string>, lines: seq<string>)
    requires forall i :: 0 <= i < |prefix| ==> TagMatch(prefix[i]).None?
    ensures BlockTags(prefix + lines) == BlockTags(lines)
  {
    if lines == [] {
      assert prefix + lines == prefix;
      UntaggedNone(prefix);
    } else {
      assert DropLast(prefix + lines) == prefix + DropLast(lines);
      assert Last(prefix + lines) == Last(lines);
      UntaggedPrefix(prefix, DropLast(lines));
    }
  }

  lemma {:induction false} UntaggedNone(lines: seq<string>)
    requires forall i :: 0 <= i < |lines| ==> TagMatch(lines[i]).None?
    ensures BlockTags(lines) == []
  {
    if lines != [] {
      UntaggedNone(DropLast(lines));
    }
  }

  /** A line holding a tag closes the tags before it: the tags of the lines from it on
      follow those of the lines before it, which it does not change. */
  lemma {:induction false} TagLineSplits(before: seq<string>, from: seq<string>)
    requires from != [] && TagMatch(from[0]).Some?
    ensures BlockTags(before + from) == BlockTags(before) + BlockTags(from)
  {
    if |from| == 1 {
      assert from == [from[0]];
      TagLineSplitsOne(before, from[0]);
    } else {
      DropLastAppend(before, from);
      TagLineSplits(before, DropLast(from));
      StartsTag(DropLast(from));
      ExtendAfter(BlockTags(before), BlockTags(DropLast(from)), Last(from));
    }
  }

  lemma TagLineSplitsOne(before: seq<string>, line: string)
    requires TagMatch(line).Some?
    ensures BlockTags(before + [line]) == BlockTags(before) + BlockTags([line])
  {
    DropLastAppend(before, [line]);
    assert DropLast([line]) == [];
    assert before + [] == before;
  }

  /** A line only touches the tags after a nonempty run of them. */
  lemma ExtendAfter(x: seq<RawTag>, y: seq<RawTag>, line: string)
    requires y != [] || TagMatch(line).Some?
    ensures Extend(x + y, line) == x + Extend(y, line)
  {
    match TagMatch(line) {
      case Some(t) =>
        ConcatAssoc(x, y, [t]);
      case None =>
        DropLastAppend(x, y);
        ConcatAssoc(x, DropLast(y), [Continue(Last(y), line)]);
    }
  }

  lemma StartsTag(lines: seq<string>)
    requires lines != [] && TagMatch(lines[0]).Some?
    ensures BlockTags(lines) != []
  {
    BlockNames(lines);
    StartedFirst(lines);
  }

  lemma {:induction false} StartedFirst(lines: seq<string>)
    requires lines != [] && TagMatch(lines[0]).Some?
    ensures Started(lines) != []
  {
    if |lines| > 1 {
      StartedFirst(DropLast(lines));
    }
  }

  /** The text the lines after a tag add to its data: a space and each line, trimmed. */
  function Continuation(lines: seq<string>): (c: string)
    ensures |c| >= |lines|
  {
    if lines == [] then [] else Continuation(DropLast(lines)) + " " + Trim(Last(lines))
  }

  /** A tag line followed by lines without a tag gives one tag, whose data is the tag
      line's data followed by the trimmed continuation lines, each after a space. */
  lemma {:induction false} OneTag(line: string, rest: seq<string>)
    requires TagMatch(line).Some?
    requires forall i :: 0 <= i < |rest| ==> TagMatch(rest[i]).None?
    ensures var t := TagMatch(line).value;
      BlockTags([line] + rest) == [RawTag(t.name, t.data + Continuation(rest))]
  {
    var t := TagMatch(line).value;
    if rest == [] {
      assert [line] + rest == [line];
      assert DropLast([line]) == [];
      assert t.data + Continuation(rest) == t.data;
    } else {
      DropLastAppend([line], rest);
      assert TagMatch(rest[|rest| - 1]).None?;
      OneTag(line, DropLast(rest));
      var before := RawTag(t.name, t.data + Continuation(DropLast(rest)));
      assert BlockTags([line] + rest) == [Continue(before, Last(rest))];
      var c, tr := Continuation(DropLast(rest)), Trim(Last(rest));
      assert Continuation(rest) == (c + " ") + tr;
      ConcatAssoc(t.data, c + " ", tr);
      ConcatAssoc(t.data, c, " ");
    }
  }

  /** Decoding keeps the tags' names and order. */
  lemma {:induction false} DecodeNames(ts: seq<RawTag>, parse: string -> Option<Json>)
    ensures forall i :: 0 <= i < |ts| ==> DecodeAll(ts, parse)[i].name == ts[i].name
  {
    if ts != [] {
      DecodeNames(DropLast(ts), parse);
    }
  }

  /** `@Config` alone gives a `Config` decorator whose data is the empty text. */
  lemma BareTag(parse: string -> Option<Json>)
    ensures DecodeAll(BlockTags(["@Config"]), parse) == [Decorator("Config", JString(""))]
  {
    ConfigBlock();
    DecodeBare(parse);
  }

  lemma ConfigBlock()
    ensures BlockTags(["@Config"]) == [RawTag("Config", "")]
  {
    ConfigMatch();
    BlockTagsOne("@Config");
  }

  lemma DecodeBare(parse: string -> Option<Json>)
    ensures DecodeAll([RawTag("Config", "")], parse) == [Decorator("Config", JString(""))]
  {
    DecodeEmpty(RawTag("Config", ""), parse);
    DecodeOne(RawTag("Config", ""), parse);
  }

  lemma BlockTagsOne(line: string)
    ensures BlockTags([line]) == Extend([], line)
  {
    assert DropLast([line]) == [];
  }

  lemma DecodeEmpty(t: RawTag, parse: string -> Option<Json>)
    requires t.data == ""
    ensures Decode(t, parse) == Decorator(t.name, JString(""))
  {
    assert !StartsWith(t.data, "{");
    assert LeadingSpaces(t.data) == 0;
  }

  lemma DecodeOne(t: RawTag, parse: string -> Option<Json>)
    ensures DecodeAll([t], parse) == [Decode(t, parse)]
  {
    assert DropLast([t]) == [];
  }

  lemma ConfigMatch()
    ensures TagMatch("@Config") == Some(RawTag("Config", ""))
  {
    assert TagAt("@Config", 0);
    assert "@Config"[1..] == "Config";
    ConfigWord();
    assert "Config"[..6] == "Config";
    assert "Config"[6..] == "";
    EmptyTagData();
  }

  lemma ConfigWord()
    ensures WordLength("Config") == 6
  {
    assert "Config"[1..] == "onfig";
    assert "onfig"[1..] == "nfig";
    assert "nfig"[1..] == "fig";
    assert "fig"[1..] == "ig";
    assert "ig"[1..] == "g";
    assert "g"[1..] == "";
  }

  lemma EmptyTagData()
    ensures TagData("") == ""
  {
    assert ""[0..] == "";
  }

  /** Data that starts with `{` is given to the JSON parser, and kept as it is when the
      parser refuses it. */
  lemma JsonData(name: string, data: string, parse: string -> Option<Json>)
    requires StartsWith(data, "{")
    ensures parse(data).Some? ==> Decode(RawTag(name, data), parse) == Decorator(name, parse(data).value)
    ensures parse(data).None? ==> Decode(RawTag(name, data), parse) == Decorator(name, JString(data))
  {
  }

  /** Any other data is kept as text without surrounding white space. */
  lemma TextData(name: string, data: string, parse: string -> Option<Json>)
    requires !StartsWith(data, "{")
    ensures Decode(RawTag(name, data), parse) == Decorator(name, JString(Trim(data)))
  {
  }
}
