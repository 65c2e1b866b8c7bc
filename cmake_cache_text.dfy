/** The text format of `CMakeCache.txt` as the tool reads it: every stripped
    line that matches `^([^\s:]+):\w*=(.*)$` defines its first group as a key
    and its second group as the value; other lines are skipped; an empty value
    is stored as Python's `None`, and a later line for the same key replaces an
    earlier one. The three copies of `CMakeCache` in the tool share this
    grammar and this loop; each copy's own accessors are in its own module. */
module CMakeCacheText {
  import opened Common
  import opened Text

  /** What one key maps to: `None` for an empty value. */
  type Stored = Option<string>

  predicate IsKeyChar(c: char) {
    !IsSpace(c) && c != ':'
  }

  /** The longest prefix of `s` whose characters all satisfy `ok`. */
  function Span(s: string, ok: char -> bool): (r: string)
    ensures |r| <= |s| && r == s[..|r|]
    ensures forall i :: 0 <= i < |r| ==> ok(r[i])
    ensures |r| < |s| ==> !ok(s[|r|])
    decreases |s|
  {
    if s == [] || !ok(s[0]) then [] else [s[0]] + Span(s[1..], ok)
  }

  lemma {:induction false} SpanOfPiece(w: string, rest: string, ok: char -> bool)
    requires forall i :: 0 <= i < |w| ==> ok(w[i])
    requires rest != [] && !ok(rest[0])
    ensures Span(w + rest, ok) == w
    decreases |w|
  {
    if w != [] {
      assert (w + rest)[1..] == w[1..] + rest;
      SpanOfPiece(w[1..], rest, ok);
    }
  }

  /** The text `key:typ=body`. */
  function Assemble(key: string, typ: string, body: string): string {
    key + [':'] + (typ + ['='] + body)
  }

  /** The groups of a match: the key is non-empty and has neither whitespace
      nor a colon, the type (the text `\w*` matched) is word characters only,
      and the value has no line feed (`.` does not match one). */
  ghost predicate ValidGroups(key: string, typ: string, value: string) {
    && key != []
    && (forall i :: 0 <= i < |key| ==> IsKeyChar(key[i]))
    && (forall i :: 0 <= i < |typ| ==> IsWordChar(typ[i]))
    && '\n' !in value
  }

  /** The regular expression `^([^\s:]+):\w*=(.*)$`, with `key` and `value` its
      two groups; `$` also accepts a single line feed at the very end. */
  ghost predicate LineShape(s: string, key: string, typ: string, value: string) {
    ValidGroups(key, typ, value)
    && (s == Assemble(key, typ, value) || s == Assemble(key, typ, value + ['\n']))
  }

  /** How `.*$` ends a match: the whole rest when it has no line feed, the rest
      without its last character when that is the only line feed. */
  function MatchTail(rest: string): (r: Option<string>)
    ensures r.Some? ==> '\n' !in r.value
    ensures r.Some? ==> rest == r.value || rest == r.value + ['\n']
  {
    if '\n' !in rest then Some(rest)
    else if rest[|rest| - 1] == '\n' && '\n' !in rest[..|rest| - 1] then
      assert rest == rest[..|rest| - 1] + ['\n'];
      Some(rest[..|rest| - 1])
    else None
  }

  lemma MatchTailComplete(value: string)
    requires '\n' !in value
    ensures MatchTail(value) == Some(value)
    ensures MatchTail(value + ['\n']) == Some(value)
  {
    var v := value + ['\n'];
    assert v[..|v| - 1] == value;
  }

  /** The matcher: the key runs up to the first character that is whitespace or
      a colon, which must be a colon; the type runs up to the first non-word
      character, which must be `=`; the rest ends as `.*$` allows. */
  function MatchLine(s: string): (r: Option<(string, string)>)
    ensures r.Some? ==> r.value.0 != [] && '\n' !in r.value.1
  {
    var key := Span(s, IsKeyChar);
    if key == [] || |key| == |s| || s[|key|] != ':' then None
    else
      var afterKey := s[|key| + 1..];
      var typ := Span(afterKey, IsWordChar);
      if |typ| == |afterKey| || afterKey[|typ|] != '=' then None
      else
        match MatchTail(afterKey[|typ| + 1..])
        case None => None
        case Some(value) => Some((key, value))
  }

  /** Every match the matcher reports is a match of the regular expression. */
  lemma {:induction false} MatchLineSound(s: string)
    requires MatchLine(s).Some?
    ensures exists typ :: LineShape(s, MatchLine(s).value.0, typ, MatchLine(s).value.1)
  {
    var key := Span(s, IsKeyChar);
    var afterKey := s[|key| + 1..];
    var typ := Span(afterKey, IsWordChar);
    var rest := afterKey[|typ| + 1..];
    assert MatchLine(s) == Some((key, MatchTail(rest).value));
    var value := MatchTail(rest).value;
    assert s == Assemble(key, typ, rest) by {
      assert s == key + [':'] + afterKey;
      assert afterKey == typ + ['='] + rest;
    }
    assert ValidGroups(key, typ, value);
    assert LineShape(s, key, typ, value) by {
      if rest != value {
        assert rest == value + ['\n'];
      }
    }
  }

  /** Every line the regular expression accepts is accepted by the matcher,
      with the same groups: the key cannot be cut shorter or longer, because
      it ends at the first colon, and the type ends at the `=`. */
  lemma MatchLineComplete(s: string, key: string, typ: string, value: string)
    requires LineShape(s, key, typ, value)
    ensures MatchLine(s) == Some((key, value))
  {
    var body := if s == Assemble(key, typ, value) then value else value + ['\n'];
    assert s == Assemble(key, typ, body);
    var typTail := ['='] + body;
    var keyTail := [':'] + (typ + typTail);
    assert s == key + keyTail;
    SpanOfPiece(key, keyTail, IsKeyChar);
    var afterKey := s[|key| + 1..];
    assert afterKey == typ + typTail;
    SpanOfPiece(typ, typTail, IsWordChar);
    assert afterKey[|typ| + 1..] == body;
    MatchTailComplete(value);
  }

  /** What one line of the file contributes, after `str.strip()`. */
  function LineEntry(line: string): Option<(string, string)> {
    MatchLine(Strip(line))
  }

  /** `value if value else None`. */
  function StoredValue(value: string): (r: Stored)
    ensures r.None? <==> value == []
    ensures r.Some? ==> r.value == value
  {
    if value == [] then None else Some(value)
  }

  predicate DefinesKey(line: string, key: string) {
    LineEntry(line).Some? && LineEntry(line).value.0 == key
  }

  /** What a line contributes under a given line reader. */
  type Entry = Option<(string, string)>

  predicate DefinesWith(entry: string -> Entry, line: string, key: string) {
    entry(line).Some? && entry(line).value.0 == key
  }

  /** The dictionary after reading `lines` in order, each line contributing
      `entry(line)`: a later entry for a key replaces an earlier one. */
  function ParseWith(lines: seq<string>, entry: string -> Entry): map<string, Stored>
    decreases |lines|
  {
    if lines == [] then map[]
    else
      var before := ParseWith(lines[..|lines| - 1], entry);
      match entry(lines[|lines| - 1])
      case None => before
      case Some((key, value)) => before[key := StoredValue(value)]
  }

  /** The dictionary after reading the lines of the file in order. */
  function ParseLines(lines: seq<string>): map<string, Stored> {
    ParseWith(lines, LineEntry)
  }

  /** The `for line in file` loop of `CMakeCache.__init__`: each line that
      the reader accepts writes its key into the dictionary. */
  method ReadEntries(lines: seq<string>, entry: string -> Entry) returns (values: map<string, Stored>)
    ensures values == ParseWith(lines, entry)
  {
    values := map[];
    var i := 0;
    while i < |lines|
      invariant 0 <= i <= |lines|
      invariant values == ParseWith(lines[..i], entry)
    {
      var m := entry(lines[i]);
      ghost var read := lines[..i + 1];
      assert read[..|read| - 1] == lines[..i] && read[|read| - 1] == lines[i];
      if m.Some? {
        var (key, value) := m.value;
        values := values[key := StoredValue(value)];
      }
      i := i + 1;
    }
    assert lines[..i] == lines;
  }

  /** The loop with the stripped-line matcher as the reader. */
  method ParseCacheLines(lines: seq<string>) returns (values: map<string, Stored>)
    ensures values == ParseLines(lines)
  {
    values := ReadEntries(lines, LineEntry);
  }

  /** A last line that does not define `key` leaves its entry alone. */
  lemma KeptByOtherLine(init: seq<string>, last: string, key: string, entry: string -> Entry)
    requires !DefinesWith(entry, last, key)
    ensures key in ParseWith(init + [last], entry) <==> key in ParseWith(init, entry)
    ensures key in ParseWith(init, entry) ==> ParseWith(init + [last], entry)[key] == ParseWith(init, entry)[key]
  {
    assert (init + [last])[..|init|] == init;
    assert (init + [last])[|init|] == last;
  }

  /** Under any line reader, the line that defines a key last decides its value. */
  lemma {:induction false} LastEntryWins(lines: seq<string>, i: nat, key: string, value: string, entry: string -> Entry)
    requires i < |lines| && entry(lines[i]) == Some((key, value))
    requires forall j :: i < j < |lines| ==> !DefinesWith(entry, lines[j], key)
    ensures key in ParseWith(lines, entry) && ParseWith(lines, entry)[key] == StoredValue(value)
    decreases |lines|
  {
    var init := lines[..|lines| - 1];
    var last := lines[|lines| - 1];
    assert init + [last] == lines;
    if i < |lines| - 1 {
      assert init[i] == lines[i];
      assert forall j :: i < j < |init| ==> init[j] == lines[j];
      LastEntryWins(init, i, key, value, entry);
      KeptByOtherLine(init, last, key, entry);
    }
  }

  /** Under any line reader, a key that no line defines is absent. */
  lemma {:induction false} UndefinedEntryAbsent(lines: seq<string>, key: string, entry: string -> Entry)
    requires forall j :: 0 <= j < |lines| ==> !DefinesWith(entry, lines[j], key)
    ensures key !in ParseWith(lines, entry)
    decreases |lines|
  {
    if lines != [] {
      var init := lines[..|lines| - 1];
      assert forall j :: 0 <= j < |init| ==> init[j] == lines[j];
      UndefinedEntryAbsent(init, key, entry);
      assert init + [lines[|lines| - 1]] == lines;
      KeptByOtherLine(init, lines[|lines| - 1], key, entry);
    }
  }

  /** Under any line reader, every key in the dictionary comes from some line. */
  lemma {:induction false} ParsedEntryHasLine(lines: seq<string>, key: string, entry: string -> Entry)
    requires key in ParseWith(lines, entry)
    ensures exists j :: 0 <= j < |lines| && DefinesWith(entry, lines[j], key)
    decreases |lines|
  {
    var init := lines[..|lines| - 1];
    var last := lines[|lines| - 1];
    if !DefinesWith(entry, last, key) {
      assert init + [last] == lines;
      KeptByOtherLine(init, last, key, entry);
      ParsedEntryHasLine(init, key, entry);
      var j :| 0 <= j < |init| && DefinesWith(entry, init[j], key);
      assert lines[j] == init[j];
    }
  }

  /** The line of the file that defines a key last decides its value. */
  lemma LastLineWins(lines: seq<string>, i: nat, key: string, value: string)
    requires i < |lines| && LineEntry(lines[i]) == Some((key, value))
    requires forall j :: i < j < |lines| ==> !DefinesKey(lines[j], key)
    ensures key in ParseLines(lines) && ParseLines(lines)[key] == StoredValue(value)
  {
    LastEntryWins(lines, i, key, value, LineEntry);
  }

  /** A key that no line of the file defines is not in the dictionary. */
  lemma UndefinedKeyAbsent(lines: seq<string>, key: string)
    requires forall j :: 0 <= j < |lines| ==> !DefinesKey(lines[j], key)
    ensures key !in ParseLines(lines)
  {
    UndefinedEntryAbsent(lines, key, LineEntry);
  }

  /** Every key in the dictionary comes from some line of the file. */
  lemma ParsedKeyHasLine(lines: seq<string>, key: string)
    requires key in ParseLines(lines)
    ensures exists j :: 0 <= j < |lines| && DefinesKey(lines[j], key)
  {
    ParsedEntryHasLine(lines, key, LineEntry);
    var j :| 0 <= j < |lines| && DefinesWith(LineEntry, lines[j], key);
    assert DefinesKey(lines[j], key);
  }

  /** `str(value)`: Python's `str(None)` is the text `None`. */
  function Render(stored: Stored): (r: string)
    ensures stored.None? ==> r == "None"
    ensures stored.Some? ==> r == stored.value
  {
    match stored
    case None => "None"
    case Some(s) => s
  }

  /** `CMakeCache.get`: the rendered value of a key, or the fatal error
      `CMakeCache <path> does not define <key>`. */
  function Lookup(values: map<string, Stored>, path: string, key: string): (r: Result<string>)
    ensures r.Ok? <==> key in values
    ensures r.Ok? ==> r.value == Render(values[key])
    ensures r.Fatal? ==> r.message == "CMakeCache " + path + " does not define " + key
  {
    if key in values then Ok(Render(values[key]))
    else Fatal("CMakeCache " + path + " does not define " + key)
  }

  /** A key whose last defining line has an empty value reads as `None`. */
  lemma EmptyValueReadsNone(lines: seq<string>, i: nat, key: string, path: string)
    requires i < |lines| && LineEntry(lines[i]) == Some((key, ""))
    requires forall j :: i < j < |lines| ==> !DefinesKey(lines[j], key)
    ensures Lookup(ParseLines(lines), path, key) == Ok("None")
  {
    LastLineWins(lines, i, key, "");
  }

  // ------------------------------------------------------ opening the file

  /** `build_dir / "CMakeCache.txt"`. */
  function CacheFilePath(buildDir: string): string {
    Join(buildDir, "CMakeCache.txt")
  }

  /** The two existence checks every cache object makes before parsing: first
      the build directory, then the cache file inside it; each missing one is
      fatal with its own message. */
  function LocateCacheFile(fs: FileSystem, buildDir: string, dirMissing: string, fileMissing: string)
    : (r: Result<string>)
    ensures !fs.Exists(buildDir) ==> r == Fatal(dirMissing)
    ensures fs.Exists(buildDir) && !fs.Exists(CacheFilePath(buildDir)) ==> r == Fatal(fileMissing)
    ensures r.Ok? <==> fs.Exists(buildDir) && fs.Exists(CacheFilePath(buildDir))
    ensures r.Ok? ==> r.value == CacheFilePath(buildDir)
  {
    if !fs.Exists(buildDir) then Fatal(dirMissing)
    else if !fs.Exists(CacheFilePath(buildDir)) then Fatal(fileMissing)
    else Ok(CacheFilePath(buildDir))
  }

  /** `path.open()` followed by line iteration: the lines of a regular file's
      text after newline translation; opening a directory raises
      `IsADirectoryError`. */
  function ReadLines(fs: FileSystem, path: string): (r: Result<seq<string>>)
    requires fs.Exists(path)
    ensures r.Ok? <==> path in fs.files
    ensures r.Ok? ==> Concat(r.value) == TranslateNewlines(fs.files[path])
    ensures r.Ok? ==> forall i :: 0 <= i < |r.value| ==> '\r' !in r.value[i]
    ensures !r.Ok? ==> r == Raised("IsADirectoryError")
  {
    if path in fs.files then
      var text := TranslateNewlines(fs.files[path]);
      SplitLinesConcat(text);
      SplitLinesLeaveOut(text, '\r');
      Ok(SplitLines(text))
    else Raised("IsADirectoryError")
  }
}
