/** Counting the added and deleted lines of a unified git diff and fingerprinting the
    added ones. A fingerprint is kept as the (path, normalised line) pair that the
    program hashes. */
module AcceptedLines {
  import opened Sequences

  /** The Unicode classes the program asks the standard library about. */
  datatype CharClasses = CharClasses(isWhitespace: char -> bool, isAlphanumeric: char -> bool)

  datatype Fingerprint = Fingerprint(path: string, line: string)

  datatype Summary = Summary(added: nat, deleted: nat, fingerprints: seq<Fingerprint>)

  datatype Parser = Parser(path: Option<string>, inHunk: bool, summary: Summary)

  const EMPTY: Summary := Summary(0, 0, [])
  const START: Parser := Parser(None, false, EMPTY)

  function Plus(a: Summary, b: Summary): Summary {
    Summary(a.added + b.added, a.deleted + b.deleted, a.fingerprints + b.fingerprints)
  }

  // ----- Text -----

  function LineLength(text: string): (n: nat)
    ensures n <= |text|
    ensures n < |text| ==> text[n] == '\n'
    ensures '\n' !in text[..n]
  {
    if text == "" || text[0] == '\n' then 0 else 1 + LineLength(text[1..])
  }

  function StripCarriageReturn(line: string): string {
    if line != "" && line[|line| - 1] == '\r' then line[..|line| - 1] else line
  }

  /** The lines of a text; a line that has its line feed also loses one carriage return. */
  function Lines(text: string): seq<string>
    decreases |text|
  {
    if text == "" then []
    else
      var n := LineLength(text);
      if n == |text| then [text] else [StripCarriageReturn(text[..n])] + Lines(text[n + 1..])
  }

  function TrimEnd(u: CharClasses, s: string): string {
    if s != "" && u.isWhitespace(s[|s| - 1]) then TrimEnd(u, s[..|s| - 1]) else s
  }

  function TrimStart(u: CharClasses, s: string): string {
    if s != "" && u.isWhitespace(s[0]) then TrimStart(u, s[1..]) else s
  }

  function Words(u: CharClasses, s: string): (words: seq<string>)
    ensures s != "" && !u.isWhitespace(s[|s| - 1]) ==> words != []
    ensures forall k :: 0 <= k < |words| ==> IsWord(u, words[k])
  {
    if s == "" then []
    else
      var n := |s| - 1;
      var c := s[n];
      var words := Words(u, s[..n]);
      if u.isWhitespace(c) then words
      else if n > 0 && !u.isWhitespace(s[n - 1]) then words[..|words| - 1] + [words[|words| - 1] + [c]]
      else words + [[c]]
  }

  ghost predicate IsWord(u: CharClasses, w: string) {
    w != "" && forall k :: 0 <= k < |w| ==> !u.isWhitespace(w[k])
  }

  function JoinWords(words: seq<string>): string {
    if |words| == 0 then ""
    else if |words| == 1 then words[0]
    else JoinWords(words[..|words| - 1]) + " " + words[|words| - 1]
  }

  function Utf8Length(s: string): nat {
    if s == "" then 0
    else
      Utf8Length(s[..|s| - 1]) +
      var c := s[|s| - 1] as int;
      if c < 0x80 then 1 else if c < 0x800 then 2 else if c < 0x1_0000 then 3 else 4
  }

  function PathWithoutPrefix(path: string): Option<string> {
    if path == "/dev/null" then None
    else if StartsWith(path, "b/") || StartsWith(path, "a/") then Some(path[2..])
    else Some(path)
  }

  function NormalizePath(u: CharClasses, path: string): Option<string> {
    PathWithoutPrefix(TrimStart(u, TrimEnd(u, path)))
  }

  /** A line of more than three bytes with something in it that could be a name. */
  function IfEffective(u: CharClasses, line: string): Option<string> {
    if Utf8Length(line) <= 3 then None
    else if !exists k :: 0 <= k < |line| && (u.isAlphanumeric(line[k]) || line[k] == '_') then None
    else Some(line)
  }

  function NormalizeLine(u: CharClasses, line: string): Option<string> {
    IfEffective(u, JoinWords(Words(u, line)))
  }

  /** How paths and added lines are normalised before hashing. The parser itself does not
      depend on it. */
  datatype Normalizer = Normalizer(path: string -> Option<string>, line: string -> Option<string>)

  function TextNormalizer(u: CharClasses): Normalizer {
    Normalizer(path => NormalizePath(u, path), line => NormalizeLine(u, line))
  }

  // ----- The parser -----

  function AddedLine(norm: Normalizer, path: Option<string>, line: string): Summary {
    var normalized := norm.line(line);
    Summary(1, 0, if path.Some? && normalized.Some? then [Fingerprint(path.value, normalized.value)] else [])
  }

  datatype LineKind =
    | FileHeader | HunkHeader | NewPath(path: string) | OldPath | AddedText(text: string) | DeletedText | Ignored

  function Classify(line: string, inHunk: bool): LineKind {
    if StartsWith(line, "diff --git ") then FileHeader
    else if StartsWith(line, "@@ ") then HunkHeader
    else if !inHunk && StartsWith(line, "+++ ") then NewPath(line[4..])
    else if !inHunk && StartsWith(line, "--- ") then OldPath
    else if StartsWith(line, "+") then AddedText(line[1..])
    else if StartsWith(line, "-") then DeletedText
    else Ignored
  }

  /** What a line adds to the summary. */
  function Contribution(norm: Normalizer, path: Option<string>, kind: LineKind): Summary {
    match kind
    case AddedText(text) => AddedLine(norm, path, text)
    case DeletedText => Summary(0, 1, [])
    case _ => EMPTY
  }

  function PathAfter(norm: Normalizer, path: Option<string>, kind: LineKind): Option<string> {
    match kind
    case FileHeader => None
    case NewPath(p) => norm.path(p)
    case _ => path
  }

  function InHunkAfter(inHunk: bool, kind: LineKind): bool {
    if kind.FileHeader? then false else inHunk || kind.HunkHeader?
  }

  function Apply(norm: Normalizer, p: Parser, kind: LineKind): Parser {
    Parser(PathAfter(norm, p.path, kind), InHunkAfter(p.inHunk, kind),
           Plus(p.summary, Contribution(norm, p.path, kind)))
  }

  function ParseLine(norm: Normalizer, p: Parser, line: string): Parser {
    Apply(norm, p, Classify(line, p.inHunk))
  }

  function Feed(norm: Normalizer, p: Parser, lines: seq<string>): Parser
    decreases |lines|
  {
    if lines == [] then p else Feed(norm, ParseLine(norm, p, lines[0]), lines[1..])
  }

  /** The summary of a diff text. */
  function Summarize(norm: Normalizer, text: string): Summary {
    Feed(norm, START, Lines(text)).summary
  }

  lemma {:induction false} FeedConcat(norm: Normalizer, p: Parser, a: seq<string>, b: seq<string>)
    ensures Feed(norm, p, a + b) == Feed(norm, Feed(norm, p, a), b)
    decreases |a|
  {
    if a == [] {
      assert a + b == b;
    } else {
      assert (a + b)[1..] == a[1..] + b;
      FeedConcat(norm, ParseLine(norm, p, a[0]), a[1..], b);
    }
  }

  lemma FeedStep(norm: Normalizer, p: Parser, lines: seq<string>, i: nat)
    requires i < |lines|
    ensures Feed(norm, p, lines[i..]) == Feed(norm, Apply(norm, p, Classify(lines[i], p.inHunk)), lines[i + 1..])
  {
    assert lines[i..][1..] == lines[i + 1..];
  }

  /** One step of the loop, for each kind of line. */
  lemma ApplyEach(norm: Normalizer, p: Parser, text: string)
    ensures Apply(norm, p, FileHeader) == Parser(None, false, p.summary)
    ensures Apply(norm, p, HunkHeader) == Parser(p.path, true, p.summary)
    ensures Apply(norm, p, NewPath(text)) == Parser(norm.path(text), p.inHunk, p.summary)
    ensures Apply(norm, p, OldPath) == p && Apply(norm, p, Ignored) == p
    ensures Apply(norm, p, DeletedText) == p.(summary := p.summary.(deleted := p.summary.deleted + 1))
  {
    PlusEmpty(p.summary);
    assert p.summary.fingerprints + [] == p.summary.fingerprints;
  }

  lemma ApplyAdded(norm: Normalizer, p: Parser, text: string)
    ensures var more := if p.path.Some? && norm.line(text).Some?
                        then [Fingerprint(p.path.value, norm.line(text).value)] else [];
            Apply(norm, p, AddedText(text)) ==
            p.(summary := Summary(p.summary.added + 1, p.summary.deleted, p.summary.fingerprints + more))
  {
  }

  /** The loop over the lines of the diff. */
  method ParseLines(norm: Normalizer, lines: seq<string>) returns (summary: Summary)
    ensures summary == Feed(norm, START, lines).summary
  {
    var currentPath: Option<string> := None;
    var inHunk := false;
    var added: nat, deleted: nat := 0, 0;
    var fingerprints: seq<Fingerprint> := [];
    for i := 0 to |lines|
      invariant Feed(norm, START, lines) ==
                Feed(norm, Parser(currentPath, inHunk, Summary(added, deleted, fingerprints)), lines[i..])
    {
      var line := lines[i];
      ghost var p := Parser(currentPath, inHunk, Summary(added, deleted, fingerprints));
      ghost var kind := Classify(line, inHunk);
      ghost var q := Apply(norm, p, kind);
      FeedStep(norm, p, lines, i);
      if StartsWith(line, "diff --git ") {
        assert q == Parser(None, false, p.summary) by { ApplyEach(norm, p, ""); }
        currentPath := None;
        inHunk := false;
      } else if StartsWith(line, "@@ ") {
        assert q == Parser(p.path, true, p.summary) by { ApplyEach(norm, p, ""); }
        inHunk := true;
      } else if !inHunk && StartsWith(line, "+++ ") {
        assert q == Parser(norm.path(line[4..]), p.inHunk, p.summary) by { ApplyEach(norm, p, line[4..]); }
        currentPath := norm.path(line[4..]);
      } else if !inHunk && StartsWith(line, "--- ") {
        assert q == p by { ApplyEach(norm, p, ""); }
      } else if StartsWith(line, "+") {
        added := added + 1;
        var normalized := norm.line(line[1..]);
        if currentPath.Some? && normalized.Some? {
          fingerprints := fingerprints + [Fingerprint(currentPath.value, normalized.value)];
        }
        assert q == p.(summary := Summary(added, deleted, fingerprints)) by { ApplyAdded(norm, p, line[1..]); }
      } else if StartsWith(line, "-") {
        deleted := deleted + 1;
        assert q == p.(summary := Summary(added, deleted, fingerprints)) by { ApplyEach(norm, p, ""); }
      } else {
        assert q == p by { ApplyEach(norm, p, ""); }
      }
      assert q == Parser(currentPath, inHunk, Summary(added, deleted, fingerprints));
    }
    summary := Summary(added, deleted, fingerprints);
  }

  // ----- Additivity -----

  lemma PlusAssociates(a: Summary, b: Summary, c: Summary)
    ensures Plus(Plus(a, b), c) == Plus(a, Plus(b, c))
  {
    assert a.fingerprints + b.fingerprints + c.fingerprints == a.fingerprints + (b.fingerprints + c.fingerprints);
  }

  lemma PlusEmpty(a: Summary)
    ensures Plus(a, EMPTY) == a && Plus(EMPTY, a) == a
  {
    assert a.fingerprints + [] == a.fingerprints && [] + a.fingerprints == a.fingerprints;
  }

  lemma KindAccumulates(norm: Normalizer, p: Parser, kind: LineKind)
    ensures var q := Apply(norm, p.(summary := EMPTY), kind);
            Apply(norm, p, kind) == q.(summary := Plus(p.summary, q.summary))
  {
    var c := Contribution(norm, p.path, kind);
    PlusEmpty(c);
    assert Apply(norm, p.(summary := EMPTY), kind) ==
           Parser(PathAfter(norm, p.path, kind), InHunkAfter(p.inHunk, kind), c);
  }

  /** What has been counted only ever grows by what the remaining lines contribute. */
  lemma {:induction false} FeedAccumulates(norm: Normalizer, p: Parser, lines: seq<string>)
    ensures var q := Feed(norm, p.(summary := EMPTY), lines);
            Feed(norm, p, lines) == q.(summary := Plus(p.summary, q.summary))
    decreases |lines|
  {
    if lines == [] {
      PlusEmpty(p.summary);
    } else {
      var p1, e1 := ParseLine(norm, p, lines[0]), ParseLine(norm, p.(summary := EMPTY), lines[0]);
      KindAccumulates(norm, p, Classify(lines[0], p.inHunk));
      FeedAccumulates(norm, p1, lines[1..]);
      FeedAccumulates(norm, e1, lines[1..]);
      PlusAssociates(p.summary, e1.summary, Feed(norm, e1.(summary := EMPTY), lines[1..]).summary);
    }
  }

  /** Whatever came before, a following file header starts a count of its own. */
  lemma ParsingIsAdditive(norm: Normalizer, a: seq<string>, b: seq<string>)
    requires b == [] || StartsWith(b[0], "diff --git ")
    ensures Feed(norm, START, a + b).summary == Plus(Feed(norm, START, a).summary, Feed(norm, START, b).summary)
  {
    var p := Feed(norm, START, a);
    FeedConcat(norm, START, a, b);
    FeedAccumulates(norm, p, b);
  }

  /** The counts do not depend on how paths and lines are normalised. */
  lemma {:induction false} CountsIgnoreNormalizer(
    a: Normalizer, b: Normalizer, p: Parser, q: Parser, lines: seq<string>)
    requires p.inHunk == q.inHunk && p.summary.added == q.summary.added && p.summary.deleted == q.summary.deleted
    ensures var x, y := Feed(a, p, lines).summary, Feed(b, q, lines).summary;
            x.added == y.added && x.deleted == y.deleted
    decreases |lines|
  {
    if lines != [] { CountsIgnoreNormalizer(a, b, ParseLine(a, p, lines[0]), ParseLine(b, q, lines[0]), lines[1..]); }
  }

  // ----- Structured diffs and their text -----

  datatype BodyLine = Context(text: string) | Added(text: string) | Deleted(text: string) | NoNewlineAtEnd
  datatype Hunk = Hunk(header: string, body: seq<BodyLine>)
  datatype Paths = Paths(before: string, after: string)

  /** One file of a git diff: the names on its `diff --git ` line, its extended headers,
      its `---`/`+++` pair unless the change has no text, and its hunks. */
  datatype FileDiff = FileDiff(names: string, headers: seq<string>, paths: Option<Paths>, hunks: seq<Hunk>)

  predicate PlainHeader(line: string) {
    !(StartsWith(line, "diff --git ") || StartsWith(line, "@@ ") || StartsWith(line, "+") || StartsWith(line, "-"))
  }

  ghost predicate WellFormed(file: FileDiff) {
    forall k :: 0 <= k < |file.headers| ==> PlainHeader(file.headers[k])
  }

  function PrintBodyLine(line: BodyLine): string {
    match line
    case Context(text) => " " + text
    case Added(text) => "+" + text
    case Deleted(text) => "-" + text
    case NoNewlineAtEnd => "\\ No newline at end of file"
  }

  function PrintBody(body: seq<BodyLine>): seq<string> {
    if body == [] then [] else [PrintBodyLine(body[0])] + PrintBody(body[1..])
  }

  function PrintHunks(hunks: seq<Hunk>): seq<string> {
    if hunks == [] then [] else ["@@ " + hunks[0].header] + PrintBody(hunks[0].body) + PrintHunks(hunks[1..])
  }

  function PrintPaths(paths: Option<Paths>): seq<string> {
    match paths
    case None => []
    case Some(Paths(before, after)) => ["--- " + before, "+++ " + after]
  }

  function PrintFile(file: FileDiff): seq<string> {
    ["diff --git " + file.names] + file.headers + PrintPaths(file.paths) + PrintHunks(file.hunks)
  }

  function PrintDiff(files: seq<FileDiff>): seq<string> {
    if files == [] then [] else PrintFile(files[0]) + PrintDiff(files[1..])
  }

  // ----- What a structured diff means -----

  function AddedIn(body: seq<BodyLine>): nat {
    if body == [] then 0 else AddedIn(body[1..]) + if body[0].Added? then 1 else 0
  }

  function DeletedIn(body: seq<BodyLine>): nat {
    if body == [] then 0 else DeletedIn(body[1..]) + if body[0].Deleted? then 1 else 0
  }

  /** The added lines of a file, in order. */
  function AddedTexts(body: seq<BodyLine>): seq<string> {
    if body == [] then [] else (if body[0].Added? then [body[0].text] else []) + AddedTexts(body[1..])
  }

  function Bodies(hunks: seq<Hunk>): seq<BodyLine> {
    if hunks == [] then [] else hunks[0].body + Bodies(hunks[1..])
  }

  /** The body lines of all hunks of all files. */
  function AllLines(files: seq<FileDiff>): seq<BodyLine> {
    if files == [] then [] else Bodies(files[0].hunks) + AllLines(files[1..])
  }

  /** Each text that is not normalised away, with the path. */
  function Pairs(norm: Normalizer, path: string, texts: seq<string>): seq<Fingerprint> {
    if texts == [] then []
    else
      (match norm.line(texts[0]) case Some(line) => [Fingerprint(path, line)] case None => [])
      + Pairs(norm, path, texts[1..])
  }

  /** A file has fingerprints only if it has a path that is not normalised away. */
  function FilePairs(norm: Normalizer, file: FileDiff): seq<Fingerprint> {
    match file.paths
    case Some(Paths(_, after)) =>
      (match norm.path(after) case Some(path) => Pairs(norm, path, AddedTexts(Bodies(file.hunks))) case None => [])
    case None => []
  }

  function AllPairs(norm: Normalizer, files: seq<FileDiff>): seq<Fingerprint> {
    if files == [] then [] else FilePairs(norm, files[0]) + AllPairs(norm, files[1..])
  }

  /** The added and the deleted lines of the diff counted, and its added lines paired. */
  function Meaning(norm: Normalizer, files: seq<FileDiff>): Summary {
    Summary(AddedIn(AllLines(files)), DeletedIn(AllLines(files)), AllPairs(norm, files))
  }

  // ----- The same, one part after another -----

  function LineMeaning(norm: Normalizer, path: Option<string>, line: BodyLine): Summary {
    match line
    case Added(text) => AddedLine(norm, path, text)
    case Deleted(_) => Summary(0, 1, [])
    case _ => EMPTY
  }

  function BodyMeaning(norm: Normalizer, path: Option<string>, body: seq<BodyLine>): Summary {
    if body == [] then EMPTY else Plus(LineMeaning(norm, path, body[0]), BodyMeaning(norm, path, body[1..]))
  }

  function HunksMeaning(norm: Normalizer, path: Option<string>, hunks: seq<Hunk>): Summary {
    if hunks == [] then EMPTY
    else Plus(BodyMeaning(norm, path, hunks[0].body), HunksMeaning(norm, path, hunks[1..]))
  }

  function PathOf(norm: Normalizer, paths: Option<Paths>): Option<string> {
    if paths.None? then None else norm.path(paths.value.after)
  }

  function FilesMeaning(norm: Normalizer, files: seq<FileDiff>): Summary {
    if files == [] then EMPTY
    else Plus(HunksMeaning(norm, PathOf(norm, files[0].paths), files[0].hunks), FilesMeaning(norm, files[1..]))
  }

  function MaybePairs(norm: Normalizer, path: Option<string>, texts: seq<string>): seq<Fingerprint> {
    if path.Some? then Pairs(norm, path.value, texts) else []
  }

  lemma {:induction false} LinesConcat(a: seq<BodyLine>, b: seq<BodyLine>)
    ensures AddedIn(a + b) == AddedIn(a) + AddedIn(b) && DeletedIn(a + b) == DeletedIn(a) + DeletedIn(b)
    ensures AddedTexts(a + b) == AddedTexts(a) + AddedTexts(b)
    decreases |a|
  {
    if a == [] {
      assert a + b == b;
    } else {
      assert (a + b)[1..] == a[1..] + b;
      LinesConcat(a[1..], b);
    }
  }

  lemma {:induction false} PairsConcat(norm: Normalizer, path: string, a: seq<string>, b: seq<string>)
    ensures Pairs(norm, path, a + b) == Pairs(norm, path, a) + Pairs(norm, path, b)
    decreases |a|
  {
    if a == [] {
      assert a + b == b;
    } else {
      assert (a + b)[1..] == a[1..] + b;
      PairsConcat(norm, path, a[1..], b);
    }
  }

  /** The counts and pairs of body lines under one path. */
  function Counted(norm: Normalizer, path: Option<string>, body: seq<BodyLine>): Summary {
    Summary(AddedIn(body), DeletedIn(body), MaybePairs(norm, path, AddedTexts(body)))
  }

  lemma CountedConcat(norm: Normalizer, path: Option<string>, a: seq<BodyLine>, b: seq<BodyLine>)
    ensures Counted(norm, path, a + b) == Plus(Counted(norm, path, a), Counted(norm, path, b))
  {
    LinesConcat(a, b);
    if path.Some? { PairsConcat(norm, path.value, AddedTexts(a), AddedTexts(b)); }
  }

  lemma CountedOne(norm: Normalizer, path: Option<string>, line: BodyLine)
    ensures Counted(norm, path, [line]) == LineMeaning(norm, path, line)
  {
    assert [line][1..] == [] && AddedIn([]) == 0 && DeletedIn([]) == 0;
    assert AddedIn([line]) == if line.Added? then 1 else 0;
    assert DeletedIn([line]) == if line.Deleted? then 1 else 0;
    assert AddedTexts([line]) == if line.Added? then [line.text] else [];
    assert MaybePairs(norm, path, []) == [];
    if line.Added? && path.Some? {
      assert [line.text][1..] == [];
      assert Pairs(norm, path.value, [line.text]) == AddedLine(norm, path, line.text).fingerprints;
    }
  }

  lemma {:induction false} BodyMeans(norm: Normalizer, path: Option<string>, body: seq<BodyLine>)
    ensures BodyMeaning(norm, path, body) == Counted(norm, path, body)
    decreases |body|
  {
    if body != [] {
      BodyMeans(norm, path, body[1..]);
      CountedOne(norm, path, body[0]);
      CountedConcat(norm, path, [body[0]], body[1..]);
      assert body == [body[0]] + body[1..];
    }
  }

  lemma {:induction false} HunksMean(norm: Normalizer, path: Option<string>, hunks: seq<Hunk>)
    ensures HunksMeaning(norm, path, hunks) == Counted(norm, path, Bodies(hunks))
    decreases |hunks|
  {
    if hunks != [] {
      HunksMean(norm, path, hunks[1..]);
      BodyMeans(norm, path, hunks[0].body);
      CountedConcat(norm, path, hunks[0].body, Bodies(hunks[1..]));
    }
  }

  lemma {:induction false} FilesMean(norm: Normalizer, files: seq<FileDiff>)
    ensures FilesMeaning(norm, files) == Meaning(norm, files)
    decreases |files|
  {
    if files != [] {
      FilesMean(norm, files[1..]);
      HunksMean(norm, PathOf(norm, files[0].paths), files[0].hunks);
      LinesConcat(Bodies(files[0].hunks), AllLines(files[1..]));
    }
  }

  // ----- The parser recovers the meaning -----

  function BodyKind(line: BodyLine): LineKind {
    match line
    case Added(text) => AddedText(text)
    case Deleted(_) => DeletedText
    case _ => Ignored
  }

  /** Inside a hunk only the first character decides, so text that looks like a file
      header is still an added or deleted line. */
  lemma BodyLineKind(line: BodyLine)
    ensures Classify(PrintBodyLine(line), true) == BodyKind(line)
  {
    var text := PrintBodyLine(line);
    assert text[0] == match line { case Context(_) => ' ' case Added(_) => '+' case Deleted(_) => '-' case _ => '\\' };
    if line.Added? { assert text[..1] == "+" && text[1..] == line.text; }
    if line.Deleted? { assert text[..1] == "-"; }
  }

  lemma HeaderKinds(text: string, inHunk: bool)
    ensures Classify("diff --git " + text, inHunk) == FileHeader
    ensures Classify("@@ " + text, inHunk) == HunkHeader
  {
    var git, hunk := "diff --git " + text, "@@ " + text;
    assert git[..11] == "diff --git ";
    assert hunk[..3] == "@@ " && hunk[0] == '@';
  }

  lemma PathKinds(text: string)
    ensures Classify("--- " + text, false) == OldPath
    ensures Classify("+++ " + text, false) == NewPath(text)
  {
    var minus, plus := "--- " + text, "+++ " + text;
    assert minus[0] == '-' && minus[..4] == "--- ";
    assert plus[0] == '+' && plus[..4] == "+++ " && plus[4..] == text;
  }

  lemma {:induction false} BodyIsParsed(norm: Normalizer, p: Parser, body: seq<BodyLine>)
    requires p.inHunk
    ensures Feed(norm, p, PrintBody(body)) == p.(summary := Plus(p.summary, BodyMeaning(norm, p.path, body)))
    decreases |body|
  {
    PlusEmpty(p.summary);
    if body != [] {
      BodyLineKind(body[0]);
      var p1 := Apply(norm, p, BodyKind(body[0]));
      assert PrintBody(body)[1..] == PrintBody(body[1..]);
      BodyIsParsed(norm, p1, body[1..]);
      PlusAssociates(p.summary, LineMeaning(norm, p.path, body[0]), BodyMeaning(norm, p.path, body[1..]));
    }
  }

  lemma {:induction false} HunksAreParsed(norm: Normalizer, p: Parser, hunks: seq<Hunk>)
    ensures Feed(norm, p, PrintHunks(hunks)).summary == Plus(p.summary, HunksMeaning(norm, p.path, hunks))
    decreases |hunks|
  {
    if hunks == [] {
      PlusEmpty(p.summary);
    } else {
      var body, rest := PrintBody(hunks[0].body), PrintHunks(hunks[1..]);
      HeaderKinds(hunks[0].header, p.inHunk);
      HunkIsEntered(norm, p, "@@ " + hunks[0].header, body, rest);
      var p1 := p.(inHunk := true);
      BodyIsParsed(norm, p1, hunks[0].body);
      HunksAreParsed(norm, Feed(norm, p1, body), hunks[1..]);
      PlusAssociates(p.summary, BodyMeaning(norm, p.path, hunks[0].body), HunksMeaning(norm, p.path, hunks[1..]));
    }
  }

  lemma HunkIsEntered(norm: Normalizer, p: Parser, header: string, body: seq<string>, rest: seq<string>)
    requires Classify(header, p.inHunk) == HunkHeader
    ensures Feed(norm, p, [header] + body + rest) == Feed(norm, Feed(norm, p.(inHunk := true), body), rest)
  {
    assert [header] + body + rest == [header] + (body + rest);
    FeedConcat(norm, p, [header], body + rest);
    FeedOne(norm, p, header);
    PlusEmpty(p.summary);
    FeedConcat(norm, p.(inHunk := true), body, rest);
  }

  lemma {:induction false} HeadersAreSkipped(norm: Normalizer, p: Parser, headers: seq<string>)
    requires !p.inHunk && forall k :: 0 <= k < |headers| ==> PlainHeader(headers[k])
    ensures Feed(norm, p, headers) == p
    decreases |headers|
  {
    if headers != [] {
      PlainHeaderIsIgnored(headers[0]);
      PlusEmpty(p.summary);
      HeadersAreSkipped(norm, p, headers[1..]);
    }
  }

  lemma PlainHeaderIsIgnored(line: string)
    requires PlainHeader(line)
    ensures Classify(line, false) == Ignored
  {
  }

  lemma PathsAreParsed(norm: Normalizer, p: Parser, paths: Option<Paths>)
    requires !p.inHunk && p.path.None?
    ensures Feed(norm, p, PrintPaths(paths)) == p.(path := PathOf(norm, paths))
  {
    if paths.Some? {
      var minus, plus := "--- " + paths.value.before, "+++ " + paths.value.after;
      PathKinds(paths.value.before);
      PathKinds(paths.value.after);
      PlusEmpty(p.summary);
      assert PrintPaths(paths)[1..] == [plus];
      assert ParseLine(norm, p, minus) == p;
      FeedOne(norm, p, plus);
    }
  }

  lemma FeedOne(norm: Normalizer, p: Parser, line: string)
    ensures Feed(norm, p, [line]) == ParseLine(norm, p, line)
  {
    assert Feed(norm, ParseLine(norm, p, line), [line][1..]) == ParseLine(norm, p, line);
  }

  lemma {:induction false} FileIsParsed(norm: Normalizer, file: FileDiff)
    requires WellFormed(file)
    ensures Feed(norm, START, PrintFile(file)).summary == HunksMeaning(norm, PathOf(norm, file.paths), file.hunks)
  {
    HeaderKinds(file.names, false);
    HeadersAreSkipped(norm, START, file.headers);
    PathsAreParsed(norm, START, file.paths);
    HunksAreParsed(norm, START.(path := PathOf(norm, file.paths)), file.hunks);
    FileParts(norm, "diff --git " + file.names, file.headers, PrintPaths(file.paths), PrintHunks(file.hunks));
    PlusEmpty(HunksMeaning(norm, PathOf(norm, file.paths), file.hunks));
  }

  lemma FileParts(norm: Normalizer, git: string, headers: seq<string>, paths: seq<string>, hunks: seq<string>)
    requires Classify(git, false) == FileHeader && Feed(norm, START, headers) == START
    ensures Feed(norm, START, [git] + headers + paths + hunks) == Feed(norm, Feed(norm, START, paths), hunks)
  {
    FeedConcat(norm, START, [git] + headers + paths, hunks);
    FeedConcat(norm, START, [git] + headers, paths);
    FeedConcat(norm, START, [git], headers);
    FeedOne(norm, START, git);
    PlusEmpty(EMPTY);
  }

  lemma {:induction false} FilesAreParsed(norm: Normalizer, files: seq<FileDiff>)
    requires forall k :: 0 <= k < |files| ==> WellFormed(files[k])
    ensures Feed(norm, START, PrintDiff(files)).summary == FilesMeaning(norm, files)
    decreases |files|
  {
    if files != [] {
      var rest := PrintDiff(files[1..]);
      if rest != [] { DiffStartsWithFile(files[1..]); }
      ParsingIsAdditive(norm, PrintFile(files[0]), rest);
      FileIsParsed(norm, files[0]);
      FilesAreParsed(norm, files[1..]);
    }
  }

  /** On lines: the parser counts the added and the deleted lines of the structured diff and
      pairs its added lines with their paths, body lines that look like headers included. */
  lemma {:induction false} DiffIsParsed(norm: Normalizer, files: seq<FileDiff>)
    requires forall k :: 0 <= k < |files| ==> WellFormed(files[k])
    ensures Feed(norm, START, PrintDiff(files)).summary == Meaning(norm, files)
  {
    FilesAreParsed(norm, files);
    FilesMean(norm, files);
  }

  lemma DiffStartsWithFile(files: seq<FileDiff>)
    requires PrintDiff(files) != []
    ensures StartsWith(PrintDiff(files)[0], "diff --git ")
  {
    assert PrintDiff(files)[0] == "diff --git " + files[0].names;
  }

  // ----- From lines to text -----

  function Unlines(lines: seq<string>): string {
    if lines == [] then "" else lines[0] + "\n" + Unlines(lines[1..])
  }

  ghost predicate SingleLines(lines: seq<string>) {
    forall k :: 0 <= k < |lines| ==> '\n' !in lines[k]
  }

  function StripAll(lines: seq<string>): seq<string> {
    if lines == [] then [] else [StripCarriageReturn(lines[0])] + StripAll(lines[1..])
  }

  lemma {:induction false} FirstLineLength(line: string, rest: string)
    requires '\n' !in line
    ensures LineLength(line + "\n" + rest) == |line|
    decreases |line|
  {
    if line != "" {
      assert (line + "\n" + rest)[1..] == line[1..] + "\n" + rest;
      FirstLineLength(line[1..], rest);
    }
  }

  lemma {:induction false} LinesOfUnlines(lines: seq<string>)
    requires SingleLines(lines)
    ensures Lines(Unlines(lines)) == StripAll(lines)
    decreases |lines|
  {
    if lines != [] {
      var text, rest := Unlines(lines), Unlines(lines[1..]);
      FirstLineLength(lines[0], rest);
      assert text[..|lines[0]|] == lines[0] && text[|lines[0]| + 1..] == rest;
      LinesOfUnlines(lines[1..]);
    }
  }

  /** A last line without a line feed is kept as it is, carriage return and all. */
  lemma {:induction false} LinesOfUnterminated(lines: seq<string>, last: string)
    requires SingleLines(lines) && '\n' !in last && last != ""
    ensures Lines(Unlines(lines) + last) == StripAll(lines) + [last]
    decreases |lines|
  {
    var text := Unlines(lines) + last;
    if lines == [] {
      assert text == last;
      assert LineLength(last) == |last|;
    } else {
      var rest := Unlines(lines[1..]) + last;
      assert text == lines[0] + "\n" + rest;
      FirstLineLength(lines[0], rest);
      assert text[..|lines[0]|] == lines[0] && text[|lines[0]| + 1..] == rest;
      LinesOfUnterminated(lines[1..], last);
    }
  }

  /** The normaliser does not see a trailing carriage return. */
  ghost predicate IgnoresCarriageReturn(norm: Normalizer) {
    forall s :: norm.path(StripCarriageReturn(s)) == norm.path(s) && norm.line(StripCarriageReturn(s)) == norm.line(s)
  }

  lemma PrefixSurvivesStrip(line: string, prefix: string)
    requires '\r' !in prefix
    ensures StartsWith(StripCarriageReturn(line), prefix) <==> StartsWith(line, prefix)
    ensures StartsWith(line, prefix) ==>
              StripCarriageReturn(line)[|prefix|..] == StripCarriageReturn(line[|prefix|..])
  {
    if StartsWith(line, prefix) && |line| == |prefix| {
      assert line == prefix;
    }
    var s := StripCarriageReturn(line);
    if |prefix| <= |s| { assert s[..|prefix|] == line[..|prefix|]; }
  }

  function StripKind(kind: LineKind): LineKind {
    match kind
    case NewPath(path) => NewPath(StripCarriageReturn(path))
    case AddedText(text) => AddedText(StripCarriageReturn(text))
    case _ => kind
  }

  lemma StrippedKind(line: string, inHunk: bool)
    ensures Classify(StripCarriageReturn(line), inHunk) == StripKind(Classify(line, inHunk))
  {
    var s := StripCarriageReturn(line);
    StrippedHeaders(line);
    assert StartsWith(s, "+") <==> StartsWith(line, "+") by { PrefixSurvivesStrip(line, "+"); }
    assert StartsWith(s, "-") <==> StartsWith(line, "-") by { PrefixSurvivesStrip(line, "-"); }
    if StartsWith(line, "+++ ") { PrefixSurvivesStrip(line, "+++ "); }
    if StartsWith(line, "+") { PrefixSurvivesStrip(line, "+"); }
  }

  lemma StrippedHeaders(line: string)
    ensures var s := StripCarriageReturn(line);
            && (StartsWith(s, "diff --git ") <==> StartsWith(line, "diff --git "))
            && (StartsWith(s, "@@ ") <==> StartsWith(line, "@@ "))
            && (StartsWith(s, "+++ ") <==> StartsWith(line, "+++ "))
            && (StartsWith(s, "--- ") <==> StartsWith(line, "--- "))
  {
    PrefixSurvivesStrip(line, "diff --git ");
    PrefixSurvivesStrip(line, "@@ ");
    PrefixSurvivesStrip(line, "+++ ");
    PrefixSurvivesStrip(line, "--- ");
  }

  lemma {:induction false} StrippedParsesAlike(norm: Normalizer, p: Parser, lines: seq<string>)
    requires IgnoresCarriageReturn(norm)
    ensures Feed(norm, p, StripAll(lines)) == Feed(norm, p, lines)
    decreases |lines|
  {
    if lines != [] {
      StrippedKind(lines[0], p.inHunk);
      StrippedParsesAlike(norm, ParseLine(norm, p, lines[0]), lines[1..]);
    }
  }

  /** On text: printing a structured diff and summarising it gives back its meaning, with
      whatever line endings its lines carry. */
  lemma DiffRoundTrip(u: CharClasses, files: seq<FileDiff>)
    requires u.isWhitespace('\r')
    requires forall k :: 0 <= k < |files| ==> WellFormed(files[k])
    requires SingleLines(PrintDiff(files))
    ensures Summarize(TextNormalizer(u), Unlines(PrintDiff(files))) == Meaning(TextNormalizer(u), files)
  {
    var norm := TextNormalizer(u);
    TextNormalizerIgnoresCarriageReturn(u);
    LinesOfUnlines(PrintDiff(files));
    StrippedParsesAlike(norm, START, PrintDiff(files));
    DiffIsParsed(norm, files);
  }

  lemma TextNormalizerIgnoresCarriageReturn(u: CharClasses)
    requires u.isWhitespace('\r')
    ensures IgnoresCarriageReturn(TextNormalizer(u))
  {
    forall s
      ensures NormalizePath(u, StripCarriageReturn(s)) == NormalizePath(u, s)
      ensures NormalizeLine(u, StripCarriageReturn(s)) == NormalizeLine(u, s)
    {
      StripIsTrimmed(u, s);
    }
  }

  lemma StripIsTrimmed(u: CharClasses, s: string)
    requires u.isWhitespace('\r')
    ensures TrimEnd(u, StripCarriageReturn(s)) == TrimEnd(u, s)
    ensures Words(u, StripCarriageReturn(s)) == Words(u, s)
  {
  }

  // ----- Normalised lines are in normal form -----

  lemma WordsAppendChar(u: CharClasses, s: string, c: char)
    requires !u.isWhitespace(c)
    ensures var words := Words(u, s);
            Words(u, s + [c]) ==
            if s != "" && !u.isWhitespace(s[|s| - 1])
            then words[..|words| - 1] + [words[|words| - 1] + [c]]
            else words + [[c]]
  {
    assert (s + [c])[..|s|] == s;
  }

  /** A word at the end of the text grows by one character. */
  lemma LastWordGrows(u: CharClasses, s: string, words: seq<string>, w: string, c: char)
    requires IsWord(u, w) && !u.isWhitespace(c)
    requires Words(u, s + w) == words + [w]
    ensures Words(u, s + w + [c]) == words + [w + [c]]
  {
    assert (s + w)[|s + w| - 1] == w[|w| - 1];
    WordsAppendChar(u, s + w, c);
    assert (words + [w])[..|words|] == words;
  }

  lemma {:induction false} WordsAppendWord(u: CharClasses, s: string, w: string)
    requires IsWord(u, w) && (s == "" || u.isWhitespace(s[|s| - 1]))
    ensures Words(u, s + w) == Words(u, s) + [w]
    decreases |w|
  {
    var n := |w| - 1;
    var c := w[n];
    assert w == w[..n] + [c];
    if n > 0 {
      assert s + w == s + w[..n] + [c];
      WordsAppendWord(u, s, w[..n]);
      LastWordGrows(u, s, Words(u, s), w[..n], c);
    } else {
      assert w == [c];
      WordsAppendChar(u, s, c);
    }
  }

  lemma WordsAppendSpace(u: CharClasses, s: string)
    requires u.isWhitespace(' ')
    ensures Words(u, s + " ") == Words(u, s)
  {
    assert (s + " ")[..|s|] == s;
  }

  lemma {:induction false} WordsOfJoin(u: CharClasses, words: seq<string>)
    requires u.isWhitespace(' ')
    requires forall k :: 0 <= k < |words| ==> IsWord(u, words[k])
    ensures Words(u, JoinWords(words)) == words
    decreases |words|
  {
    if |words| == 1 {
      assert "" + words[0] == words[0];
      WordsAppendWord(u, "", words[0]);
    } else if |words| > 1 {
      var n := |words| - 1;
      var front := words[..n];
      WordsOfJoin(u, front);
      assert words == front + [words[n]];
      JoinOneMore(u, front, words[n]);
    }
  }

  lemma JoinOneMore(u: CharClasses, words: seq<string>, w: string)
    requires u.isWhitespace(' ') && IsWord(u, w) && words != []
    requires Words(u, JoinWords(words)) == words
    ensures Words(u, JoinWords(words + [w])) == words + [w]
  {
    var front := JoinWords(words) + " ";
    assert JoinWords(words + [w]) == front + w by { assert (words + [w])[..|words|] == words; }
    assert Words(u, front) == words by { WordsAppendSpace(u, JoinWords(words)); }
    WordsAppendWord(u, front, w);
  }

  /** Normalising a normalised line changes nothing. */
  lemma NormalizeLineIsIdempotent(u: CharClasses, line: string)
    requires u.isWhitespace(' ')
    ensures NormalizeLine(u, line).Some? ==>
              NormalizeLine(u, NormalizeLine(u, line).value) == NormalizeLine(u, line)
  {
    WordsOfJoin(u, Words(u, line));
  }

  // ----- What normalising does -----

  ghost predicate Blank(u: CharClasses, s: string) {
    forall k :: 0 <= k < |s| ==> u.isWhitespace(s[k])
  }

  /** Neither begins nor ends with whitespace. */
  predicate Tight(u: CharClasses, s: string) {
    s == "" || (!u.isWhitespace(s[0]) && !u.isWhitespace(s[|s| - 1]))
  }

  lemma {:induction false} TrimEndDropsBlank(u: CharClasses, s: string, blank: string)
    requires Blank(u, blank) && (s == "" || !u.isWhitespace(s[|s| - 1]))
    ensures TrimEnd(u, s + blank) == s
    decreases |blank|
  {
    if blank == "" {
      assert s + blank == s;
    } else {
      var front := blank[..|blank| - 1];
      assert (s + blank)[..|s + blank| - 1] == s + front;
      TrimEndDropsBlank(u, s, front);
    }
  }

  lemma {:induction false} TrimStartDropsBlank(u: CharClasses, blank: string, s: string)
    requires Blank(u, blank) && (s == "" || !u.isWhitespace(s[0]))
    ensures TrimStart(u, blank + s) == s
    decreases |blank|
  {
    if blank == "" {
      assert blank + s == s;
    } else {
      assert (blank + s)[1..] == blank[1..] + s;
      TrimStartDropsBlank(u, blank[1..], s);
    }
  }

  /** A path is stripped of the whitespace around it and of one leading `b/` or `a/`, and the
      null device is no path. */
  lemma PathIsNormalized(u: CharClasses, lead: string, path: string, trail: string)
    requires Blank(u, lead) && Blank(u, trail) && Tight(u, path)
    ensures var n := NormalizePath(u, lead + path + trail);
            && (n.None? <==> path == "/dev/null")
            && (forall name :: path == "b/" + name || path == "a/" + name ==> n == Some(name))
            && (!StartsWith(path, "b/") && !StartsWith(path, "a/") && path != "/dev/null" ==> n == Some(path))
  {
    if path == "" {
      assert lead + path + trail == "" + (lead + trail);
      TrimEndDropsBlank(u, "", lead + trail);
    } else {
      TrimEndDropsBlank(u, lead + path, trail);
      TrimStartDropsBlank(u, lead, path);
    }
    forall name | path == "b/" + name || path == "a/" + name
      ensures NormalizePath(u, lead + path + trail) == Some(name)
    {
      assert path[..2] == "b/" || path[..2] == "a/";
      assert path[2..] == name;
    }
  }

  /** A word and the whitespace before it. */
  datatype Piece = Piece(gap: string, word: string)

  ghost predicate Spaced(u: CharClasses, pieces: seq<Piece>) {
    forall k :: 0 <= k < |pieces| ==>
      Blank(u, pieces[k].gap) && IsWord(u, pieces[k].word) && (k > 0 ==> pieces[k].gap != "")
  }

  function Spell(pieces: seq<Piece>): string {
    if pieces == [] then "" else Spell(pieces[..|pieces| - 1]) + pieces[|pieces| - 1].gap + pieces[|pieces| - 1].word
  }

  function WordsIn(pieces: seq<Piece>): seq<string> {
    if pieces == [] then [] else WordsIn(pieces[..|pieces| - 1]) + [pieces[|pieces| - 1].word]
  }

  lemma {:induction false} WordsAppendBlank(u: CharClasses, s: string, blank: string)
    requires Blank(u, blank)
    ensures Words(u, s + blank) == Words(u, s)
    decreases |blank|
  {
    if blank == "" {
      assert s + blank == s;
    } else {
      var front := blank[..|blank| - 1];
      assert (s + blank)[..|s + blank| - 1] == s + front;
      WordsAppendBlank(u, s, front);
    }
  }

  /** Splitting finds the words of a text whatever whitespace lies around them. */
  lemma {:induction false} WordsOfSpelled(u: CharClasses, pieces: seq<Piece>, trail: string)
    requires Spaced(u, pieces) && Blank(u, trail)
    ensures Words(u, Spell(pieces) + trail) == WordsIn(pieces)
    decreases |pieces|
  {
    WordsAppendBlank(u, Spell(pieces), trail);
    if pieces != [] {
      var n := |pieces| - 1;
      var last := pieces[n];
      var front := Spell(pieces[..n]) + last.gap;
      WordsOfSpelled(u, pieces[..n], last.gap);
      if n == 0 { assert front == last.gap; }
      assert front == "" || u.isWhitespace(front[|front| - 1]);
      WordsAppendWord(u, front, last.word);
    }
  }

  lemma {:induction false} Utf8Additive(a: string, b: string)
    ensures Utf8Length(a + b) == Utf8Length(a) + Utf8Length(b)
    decreases |b|
  {
    if b == "" {
      assert a + b == a;
    } else {
      assert (a + b)[..|a + b| - 1] == a + b[..|b| - 1];
      Utf8Additive(a, b[..|b| - 1]);
    }
  }

  /** The encoded length of one character, by section 3 of RFC 3629. */
  lemma Utf8LengthOfChar(c: char)
    ensures Utf8Length([c]) == 1 <==> c as int <= 0x7F
    ensures Utf8Length([c]) == 2 <==> 0x80 <= c as int <= 0x7FF
    ensures Utf8Length([c]) == 3 <==> 0x800 <= c as int <= 0xFFFF
    ensures Utf8Length([c]) == 4 <==> 0x1_0000 <= c as int
  {
    assert [c][..0] == "";
  }

  predicate NameChar(u: CharClasses, c: char) {
    u.isAlphanumeric(c) || c == '_'
  }

  /** An added line counts as its words joined by single spaces, if these take at least four
      bytes and some character could be part of a name, and not at all otherwise. */
  lemma LineIsNormalized(u: CharClasses, pieces: seq<Piece>, trail: string)
    requires Spaced(u, pieces) && Blank(u, trail)
    ensures var text := JoinWords(WordsIn(pieces));
            NormalizeLine(u, Spell(pieces) + trail) ==
            if Utf8Length(text) >= 4 && (exists k :: 0 <= k < |text| && NameChar(u, text[k])) then Some(text) else None
  {
    WordsOfSpelled(u, pieces, trail);
    var text := JoinWords(WordsIn(pieces));
    assert forall k :: 0 <= k < |text| ==> (NameChar(u, text[k]) <==> u.isAlphanumeric(text[k]) || text[k] == '_');
  }
}
