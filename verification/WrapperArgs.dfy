/** The argument rewriting of the lint wrapper: `parse_wrapper_args` splits an argument
    list at the first `--` and notes which options the user gave; `build_final_args` adds
    the missing defaults. */
module WrapperArgs {
  import opened Sequences

  const SEPARATOR: string := "--"
  const TARGET_SELECTION: set<string> :=
    {"--all-targets", "--lib", "--bins", "--tests", "--examples", "--benches", "--doc"}
  const TARGET_SELECTION_WITH_VALUE: set<string> := {"--bin", "--test", "--example", "--bench"}
  const TARGET_SELECTION_PREFIXES: seq<string> := ["--bin=", "--test=", "--example=", "--bench="]

  datatype Flag = ManifestPath | PackageSelection | NoDeps | LibrarySelection | Fix

  /** The options seen among the lint arguments, and the one whose value is awaited. */
  datatype Notes = Notes(seen: set<Flag>, awaited: Option<Flag>)

  datatype Parsed = Parsed(lintArgs: seq<string>, cargoArgs: seq<string>, notes: Notes, cargoTarget: bool) {
    predicate Has(flag: Flag) { flag in notes.seen }
  }

  const NO_NOTES: Notes := Notes({}, None)

  predicate SelectsTarget(arg: string) {
    || arg in TARGET_SELECTION
    || arg in TARGET_SELECTION_WITH_VALUE
    || exists k :: 0 <= k < |TARGET_SELECTION_PREFIXES| && StartsWith(arg, TARGET_SELECTION_PREFIXES[k])
  }

  /** What a lint argument is, unless it is the value of the one before it. */
  datatype ArgKind = Asks(flag: Flag) | Gives(flag: Flag) | Plain

  function KindOf(arg: string): ArgKind {
    if arg == "--manifest-path" then Asks(ManifestPath)
    else if StartsWith(arg, "--manifest-path=") then Gives(ManifestPath)
    else if arg == "-p" || arg == "--package" then Asks(PackageSelection)
    else if StartsWith(arg, "--package=") then Gives(PackageSelection)
    else if arg == "--fix" then Gives(Fix)
    else if arg == "--workspace" then Gives(PackageSelection)
    else if arg == "--no-deps" then Gives(NoDeps)
    else if arg == "--lib" || arg == "--lib-path" then Asks(LibrarySelection)
    else if StartsWith(arg, "--lib=") || StartsWith(arg, "--lib-path=") then Gives(LibrarySelection)
    else Plain
  }

  /** The effect of one argument before the separator: a value that was awaited is only a
      value, whatever it looks like. */
  function Note(notes: Notes, kind: ArgKind): Notes {
    if notes.awaited.Some? then Notes(notes.seen + {notes.awaited.value}, None)
    else
      match kind
      case Asks(flag) => notes.(awaited := Some(flag))
      case Gives(flag) => notes.(seen := notes.seen + {flag})
      case Plain => notes
  }

  function NoteAll(notes: Notes, kinds: seq<ArgKind>): Notes
    decreases |kinds|
  {
    if kinds == [] then notes else NoteAll(Note(notes, kinds[0]), kinds[1..])
  }

  function Kinds(args: seq<string>): (kinds: seq<ArgKind>)
    ensures |kinds| == |args|
    ensures forall k :: 0 <= k < |args| ==> kinds[k] == KindOf(args[k])
  {
    seq(|args|, k requires 0 <= k < |args| => KindOf(args[k]))
  }

  /** What a list of lint arguments says. */
  function NotesOf(args: seq<string>): Notes {
    NoteAll(NO_NOTES, Kinds(args))
  }

  function AnyTarget(args: seq<string>): bool {
    exists k :: 0 <= k < |args| && SelectsTarget(args[k])
  }

  /** Where the separator stands, or the length of the list. */
  function SeparatorIndex(argv: seq<string>): (n: nat)
    ensures n <= |argv|
    ensures SEPARATOR !in argv[..n]
    ensures n < |argv| ==> argv[n] == SEPARATOR
  {
    if argv == [] || argv[0] == SEPARATOR then 0 else 1 + SeparatorIndex(argv[1..])
  }

  function Split(lint: seq<string>, cargo: seq<string>): Parsed {
    Parsed(lint, cargo, NotesOf(lint), AnyTarget(cargo))
  }

  function LintPart(argv: seq<string>): seq<string> {
    argv[..SeparatorIndex(argv)]
  }

  function CargoPart(argv: seq<string>): seq<string> {
    var n := SeparatorIndex(argv);
    if n < |argv| then argv[n + 1..] else []
  }

  /** What parsing means: the arguments before and after the first separator, each with
      what it says. */
  function Parse(argv: seq<string>): Parsed {
    Split(LintPart(argv), CargoPart(argv))
  }

  /** The loop of `parse_wrapper_args`, one argument at a time. */
  method ParseWrapperArgs(argv: seq<string>) returns (parsed: Parsed)
    ensures parsed == Parse(argv)
  {
    var lintArgs: seq<string>, cargoArgs: seq<string> := [], [];
    var notes, cargoTarget, afterSeparator := NO_NOTES, false, false;
    ghost var n := SeparatorIndex(argv);
    for i := 0 to |argv|
      invariant afterSeparator <==> n < i
      invariant !afterSeparator ==> SEPARATOR !in lintArgs
      invariant lintArgs == argv[..if i <= n then i else n]
      invariant cargoArgs == if n < i then argv[n + 1..i] else []
      invariant notes == NotesOf(lintArgs)
      invariant cargoTarget <==> AnyTarget(cargoArgs)
    {
      var arg := argv[i];
      if afterSeparator {
        AnyTargetAppend(cargoArgs, arg);
        assert argv[n + 1..i + 1] == cargoArgs + [arg];
        cargoArgs := cargoArgs + [arg];
        if SelectsTarget(arg) {
          cargoTarget := true;
        }
      } else if arg == SEPARATOR {
        assert argv[..i] == lintArgs;
        SeparatorIsAt(argv, i);
        afterSeparator := true;
      } else {
        assert i < n by { assert i <= n && (n < |argv| ==> argv[n] == SEPARATOR); }
        assert argv[..i + 1] == lintArgs + [arg];
        assert NotesOf(lintArgs + [arg]) == Note(notes, KindOf(arg)) by { NotesAppend(lintArgs, arg); }
        lintArgs := lintArgs + [arg];
        notes := Note(notes, KindOf(arg));
      }
    }
    assert argv[..|argv|] == argv;
    assert lintArgs == LintPart(argv);
    if n < |argv| { assert cargoArgs == argv[n + 1..|argv|] == argv[n + 1..]; }
    assert cargoArgs == CargoPart(argv);
    parsed := Parsed(lintArgs, cargoArgs, notes, cargoTarget);
  }

  lemma AnyTargetAppend(args: seq<string>, arg: string)
    ensures AnyTarget(args + [arg]) <==> AnyTarget(args) || SelectsTarget(arg)
  {
    assert (args + [arg])[|args|] == arg;
    forall k | 0 <= k < |args| ensures (args + [arg])[k] == args[k] {}
  }

  lemma {:induction false} NoteAllAppend(notes: Notes, a: seq<ArgKind>, b: seq<ArgKind>)
    ensures NoteAll(notes, a + b) == NoteAll(NoteAll(notes, a), b)
    decreases |a|
  {
    if a == [] {
      assert a + b == b;
    } else {
      assert (a + b)[1..] == a[1..] + b;
      NoteAllAppend(Note(notes, a[0]), a[1..], b);
    }
  }

  lemma NotesAppend(args: seq<string>, arg: string)
    ensures NotesOf(args + [arg]) == Note(NotesOf(args), KindOf(arg))
  {
    var kind := KindOf(arg);
    assert Kinds(args + [arg]) == Kinds(args) + [kind];
    NoteAllAppend(NO_NOTES, Kinds(args), [kind]);
    assert [kind][1..] == Kinds([]);
  }

  // ----- Building -----

  function Defaults(parsed: Parsed, manifestPath: string): seq<string> {
    (if !parsed.Has(ManifestPath) then ["--manifest-path", manifestPath] else [])
    + (if !parsed.Has(PackageSelection) && !parsed.Has(ManifestPath) then ["--workspace"] else [])
    + (if !parsed.Has(NoDeps) then ["--no-deps"] else [])
  }

  function FinalCargoArgs(parsed: Parsed): seq<string> {
    parsed.cargoArgs + if !parsed.Has(Fix) && !parsed.cargoTarget then ["--all-targets"] else []
  }

  function WithSeparator(cargo: seq<string>): seq<string> {
    if cargo == [] then [] else [SEPARATOR] + cargo
  }

  /** What building means: defaults, the user's lint arguments, the cargo arguments. */
  function Build(parsed: Parsed, manifestPath: string): seq<string> {
    Defaults(parsed, manifestPath) + parsed.lintArgs + WithSeparator(FinalCargoArgs(parsed))
  }

  /** `build_final_args`, appending in sequence. */
  method BuildFinalArgs(parsed: Parsed, manifestPath: string) returns (finalArgs: seq<string>)
    ensures finalArgs == Build(parsed, manifestPath)
  {
    finalArgs := [];
    var cargoArgs := parsed.cargoArgs;
    if !parsed.Has(ManifestPath) {
      finalArgs := finalArgs + ["--manifest-path", manifestPath];
    }
    if !parsed.Has(PackageSelection) && !parsed.Has(ManifestPath) {
      finalArgs := finalArgs + ["--workspace"];
    }
    if !parsed.Has(NoDeps) {
      finalArgs := finalArgs + ["--no-deps"];
    }
    assert finalArgs == Defaults(parsed, manifestPath);
    if !parsed.Has(Fix) && !parsed.cargoTarget {
      cargoArgs := cargoArgs + ["--all-targets"];
    }
    assert cargoArgs == FinalCargoArgs(parsed);
    finalArgs := finalArgs + parsed.lintArgs;
    if cargoArgs != [] {
      finalArgs := finalArgs + ([SEPARATOR] + cargoArgs);
    }
  }

  // ----- Rewriting is idempotent -----

  /** The options noted by either; a value awaited only by the second. */
  function Either(a: Notes, b: Notes): Notes {
    Notes(a.seen + b.seen, b.awaited)
  }

  /** What is noted before a list of arguments does not change what the list adds. */
  lemma {:induction false} NoteAllEither(a: Notes, b: Notes, kinds: seq<ArgKind>)
    ensures NoteAll(Either(a, b), kinds) == Either(a, NoteAll(b, kinds))
    decreases |kinds|
  {
    if kinds != [] {
      NoteEither(a, b, kinds[0]);
      NoteAllEither(a, Note(b, kinds[0]), kinds[1..]);
    }
  }

  lemma NoteEither(a: Notes, b: Notes, kind: ArgKind)
    ensures Note(Either(a, b), kind) == Either(a, Note(b, kind))
  {
    forall f: Flag ensures a.seen + b.seen + {f} == a.seen + (b.seen + {f}) {}
  }

  lemma NotesConcat(a: seq<string>, b: seq<string>)
    requires NotesOf(a).awaited.None?
    ensures NotesOf(a + b) == Either(NotesOf(a), NotesOf(b))
  {
    assert Kinds(a + b) == Kinds(a) + Kinds(b);
    NoteAllAppend(NO_NOTES, Kinds(a), Kinds(b));
    assert NotesOf(a) == Either(NotesOf(a), NO_NOTES);
    NoteAllEither(NotesOf(a), NO_NOTES, Kinds(b));
  }

  /** The defaults leave no option open and await no value. */
  lemma DefaultsNotes(parsed: Parsed, manifestPath: string)
    ensures var d := NotesOf(Defaults(parsed, manifestPath));
            && d.awaited.None? && Fix !in d.seen
            && (ManifestPath in d.seen <==> !parsed.Has(ManifestPath))
            && (NoDeps in d.seen <==> !parsed.Has(NoDeps))
  {
    var args: seq<string> := [];
    if !parsed.Has(ManifestPath) {
      NotesAppend(args, "--manifest-path");
      NotesAppend(args + ["--manifest-path"], manifestPath);
      args := args + ["--manifest-path"] + [manifestPath];
    }
    if !parsed.Has(PackageSelection) && !parsed.Has(ManifestPath) {
      NotesAppend(args, "--workspace");
      args := args + ["--workspace"];
    }
    if !parsed.Has(NoDeps) {
      NotesAppend(args, "--no-deps");
      args := args + ["--no-deps"];
    }
    assert args == Defaults(parsed, manifestPath);
  }

  lemma {:induction false} SeparatorIsAt(argv: seq<string>, n: nat)
    requires n <= |argv| && SEPARATOR !in argv[..n] && (n < |argv| ==> argv[n] == SEPARATOR)
    ensures SeparatorIndex(argv) == n
  {
    if n > 0 {
      assert argv[0] in argv[..n] && argv[1..][..n - 1] == argv[..n][1..];
      SeparatorIsAt(argv[1..], n - 1);
    }
  }

  /** A list built from parts without a separator parses back into those parts. */
  lemma PartsOfList(lint: seq<string>, cargo: seq<string>)
    requires SEPARATOR !in lint
    ensures LintPart(lint + WithSeparator(cargo)) == lint
    ensures CargoPart(lint + WithSeparator(cargo)) == cargo
  {
    var argv := lint + WithSeparator(cargo);
    assert argv[..|lint|] == lint;
    assert SeparatorIndex(argv) == |lint| by { SeparatorIsAt(argv, |lint|); }
    if cargo == [] {
      assert argv == lint;
    } else {
      assert argv[|lint| + 1..] == cargo;
    }
  }

  /** The arguments the user wrote survive a rewrite in order, between the defaults and the
      target default. */
  lemma ParseOfBuild(argv: seq<string>, manifestPath: string)
    requires manifestPath != SEPARATOR || Parse(argv).Has(ManifestPath)
    ensures var p := Parse(argv);
            Parse(Build(p, manifestPath)) == Split(Defaults(p, manifestPath) + p.lintArgs, FinalCargoArgs(p))
  {
    var p := Parse(argv);
    assert SEPARATOR !in Defaults(p, manifestPath) + p.lintArgs;
    PartsOfList(Defaults(p, manifestPath) + p.lintArgs, FinalCargoArgs(p));
  }

  lemma FinalCargoIsStable(p: Parsed)
    requires p.cargoTarget == AnyTarget(p.cargoArgs)
    ensures !p.Has(Fix) ==> AnyTarget(FinalCargoArgs(p))
    ensures p.Has(Fix) ==> FinalCargoArgs(p) == p.cargoArgs
  {
    AnyTargetAppend(p.cargoArgs, "--all-targets");
    assert p.cargoArgs + [] == p.cargoArgs;
  }

  lemma RebuildIsStable(argv: seq<string>, manifestPath: string)
    requires manifestPath != SEPARATOR || Parse(argv).Has(ManifestPath)
    ensures Build(Parse(Build(Parse(argv), manifestPath)), manifestPath) == Build(Parse(argv), manifestPath)
  {
    var p := Parse(argv);
    var d := Defaults(p, manifestPath);
    ParseOfBuild(argv, manifestPath);
    DefaultsNotes(p, manifestPath);
    NotesConcat(d, p.lintArgs);
    FinalCargoIsStable(p);
    NothingToAdd(Split(d + p.lintArgs, FinalCargoArgs(p)), manifestPath);
  }

  lemma NothingToAdd(q: Parsed, manifestPath: string)
    requires q.Has(ManifestPath) && q.Has(NoDeps) && (q.Has(Fix) || q.cargoTarget)
    ensures Build(q, manifestPath) == q.lintArgs + WithSeparator(q.cargoArgs)
  {
    assert Defaults(q, manifestPath) == [];
    assert FinalCargoArgs(q) == q.cargoArgs;
  }

  lemma RebuildGrows(argv: seq<string>)
    requires !Parse(argv).Has(ManifestPath)
    ensures |Build(Parse(Build(Parse(argv), SEPARATOR)), SEPARATOR)| > |Build(Parse(argv), SEPARATOR)|
  {
    var built := Build(Parse(argv), SEPARATOR);
    assert built[0] == "--manifest-path" && built[1] == SEPARATOR;
    SeparatorIsAt(built, 1);
    NotesAppend([], "--manifest-path");
    assert built[..1] == [] + ["--manifest-path"];
    var q := Parse(built);
    assert |Defaults(q, SEPARATOR)| == 4 && |q.cargoArgs| == |built| - 2;
  }

  /** Rewriting a rewritten list changes nothing, exactly unless the default manifest path
      is itself taken for the separator. */
  lemma RewritingIsIdempotent(argv: seq<string>, manifestPath: string)
    ensures Build(Parse(Build(Parse(argv), manifestPath)), manifestPath) == Build(Parse(argv), manifestPath)
            <==> manifestPath != SEPARATOR || Parse(argv).Has(ManifestPath)
  {
    if manifestPath != SEPARATOR || Parse(argv).Has(ManifestPath) {
      RebuildIsStable(argv, manifestPath);
    } else {
      RebuildGrows(argv);
    }
  }

  // ----- In terms of the arguments -----

  predicate TakesValue(arg: string) {
    arg == "--manifest-path" || arg == "-p" || arg == "--package" || arg == "--lib" || arg == "--lib-path"
  }

  /** An argument is a value if it follows one that takes a value and is not one itself. */
  predicate IsValue(args: seq<string>, k: nat) {
    0 < k < |args| && TakesValue(args[k - 1]) && !IsValue(args, k - 1)
  }

  /** An argument that is not a value gives the option, if it takes a value with that
      following it. */
  predicate Speaks(arg: string, followed: bool, flag: Flag) {
    match flag
    case ManifestPath => StartsWith(arg, "--manifest-path=") || (arg == "--manifest-path" && followed)
    case PackageSelection =>
      || arg == "--workspace" || StartsWith(arg, "--package=")
      || ((arg == "-p" || arg == "--package") && followed)
    case NoDeps => arg == "--no-deps"
    case LibrarySelection =>
      || StartsWith(arg, "--lib=") || StartsWith(arg, "--lib-path=")
      || ((arg == "--lib" || arg == "--lib-path") && followed)
    case Fix => arg == "--fix"
  }

  predicate Says(args: seq<string>, k: nat, flag: Flag) {
    k < |args| && !IsValue(args, k) && Speaks(args[k], k + 1 < |args|, flag)
  }

  ghost predicate Given(args: seq<string>, flag: Flag) {
    exists k: nat :: Says(args, k, flag)
  }

  /** The option whose value the list still owes. */
  function Owed(args: seq<string>): Option<Flag> {
    if args == [] || IsValue(args, |args| - 1) || !TakesValue(args[|args| - 1]) then None
    else
      var last := args[|args| - 1];
      Some(if last == "--manifest-path" then ManifestPath
           else if last == "-p" || last == "--package" then PackageSelection else LibrarySelection)
  }

  lemma {:induction false} ValuesStay(args: seq<string>, arg: string, k: nat)
    requires k < |args|
    ensures IsValue(args + [arg], k) <==> IsValue(args, k)
  {
    if k > 0 { ValuesStay(args, arg, k - 1); }
  }

  lemma EarlierSays(args: seq<string>, arg: string, k: nat, flag: Flag)
    requires k + 1 < |args|
    ensures Says(args + [arg], k, flag) <==> Says(args, k, flag)
  {
    ValuesStay(args, arg, k);
  }

  lemma LastSays(args: seq<string>, arg: string, flag: Flag)
    requires args != []
    ensures Says(args + [arg], |args| - 1, flag) <==> Says(args, |args| - 1, flag) || Owed(args) == Some(flag)
  {
    ValuesStay(args, arg, |args| - 1);
  }

  lemma {:induction false} NewIsValue(args: seq<string>, arg: string)
    ensures IsValue(args + [arg], |args|) <==> Owed(args).Some?
  {
    if args != [] {
      ValuesStay(args, arg, |args| - 1);
      assert (args + [arg])[|args| - 1] == args[|args| - 1];
    }
  }

  lemma {:induction false} NewSays(args: seq<string>, arg: string, flag: Flag)
    ensures Says(args + [arg], |args|, flag) <==> Owed(args).None? && Speaks(arg, false, flag)
  {
    NewIsValue(args, arg);
    assert (args + [arg])[|args|] == arg;
  }

  /** What one more argument changes: it pays what is owed, or it speaks for itself. */
  lemma SaysMore(args: seq<string>, arg: string, flag: Flag)
    ensures Given(args + [arg], flag) <==>
              Given(args, flag) || Owed(args) == Some(flag) || (Owed(args).None? && Speaks(arg, false, flag))
  {
    var more, n := args + [arg], |args|;
    NewSays(args, arg, flag);
    if n > 0 { LastSays(args, arg, flag); }
    if Given(args, flag) {
      var k: nat :| Says(args, k, flag);
      if k + 1 < n { EarlierSays(args, arg, k, flag); }
      assert Says(more, k, flag);
    }
    if Given(more, flag) {
      var k: nat :| Says(more, k, flag);
      if k + 1 < n { EarlierSays(args, arg, k, flag); }
      assert k < n && Owed(args) != Some(flag) ==> Says(args, k, flag);
    }
  }

  lemma PrefixAt(arg: string, prefix: string, i: nat)
    requires i < |prefix|
    ensures StartsWith(arg, prefix) ==> arg[i] == prefix[i]
  {
    if StartsWith(arg, prefix) { assert arg[i] == arg[..|prefix|][i]; }
  }

  /** What an argument that is not a value is taken for. */
  lemma KindSpeaks(arg: string, flag: Flag)
    ensures KindOf(arg) == Gives(flag) <==> Speaks(arg, false, flag)
    ensures KindOf(arg).Asks? <==> TakesValue(arg)
  {
    PrefixAt(arg, "--manifest-path=", 2);
    PrefixAt(arg, "--package=", 2);
    PrefixAt(arg, "--lib=", 2);
    PrefixAt(arg, "--lib=", 5);
    PrefixAt(arg, "--lib-path=", 2);
  }

  /** The options noted are those the lint arguments give, and a value is awaited exactly if
      the last of them owes one. */
  lemma {:induction false} NotesExactly(args: seq<string>)
    ensures forall flag :: flag in NotesOf(args).seen <==> Given(args, flag)
    ensures NotesOf(args).awaited == Owed(args)
  {
    if args != [] {
      var front, arg := args[..|args| - 1], args[|args| - 1];
      assert args == front + [arg];
      NotesExactly(front);
      NotesAppend(front, arg);
      NewIsValue(front, arg);
      forall flag ensures flag in NotesOf(args).seen <==> Given(args, flag) {
        SaysMore(front, arg, flag);
        KindSpeaks(arg, flag);
      }
      KindSpeaks(arg, Fix);
    }
  }

  /** The cargo arguments that choose targets. */
  predicate NamesTarget(arg: string) {
    || arg == "--all-targets" || arg == "--lib" || arg == "--bins" || arg == "--tests" || arg == "--examples"
    || arg == "--benches" || arg == "--doc"
    || arg == "--bin" || arg == "--test" || arg == "--example" || arg == "--bench"
    || StartsWith(arg, "--bin=") || StartsWith(arg, "--test=") || StartsWith(arg, "--example=")
    || StartsWith(arg, "--bench=")
  }

  lemma TargetsByName(arg: string)
    ensures SelectsTarget(arg) <==> NamesTarget(arg)
  {
    var p := TARGET_SELECTION_PREFIXES;
    assert p[0] == "--bin=" && p[1] == "--test=" && p[2] == "--example=" && p[3] == "--bench=";
  }

  function AppendIf(list: seq<string>, condition: bool, more: seq<string>): seq<string> {
    if condition then list + more else list
  }

  function Missing(manifestPath: string, manifest: bool, package: bool, noDeps: bool): seq<string> {
    var withManifest := AppendIf([], !manifest, ["--manifest-path", manifestPath]);
    var withWorkspace := AppendIf(withManifest, !manifest && !package, ["--workspace"]);
    AppendIf(withWorkspace, !noDeps, ["--no-deps"])
  }

  function Behind(cargo: seq<string>): seq<string> {
    if |cargo| > 0 then ["--"] + cargo else []
  }

  /** The user's arguments with the defaults that are missing. */
  function Complete(
    lint: seq<string>, cargo: seq<string>, manifestPath: string,
    manifest: bool, package: bool, noDeps: bool, settled: bool): seq<string>
  {
    Missing(manifestPath, manifest, package, noDeps) + lint + Behind(AppendIf(cargo, !settled, ["--all-targets"]))
  }

  ghost predicate Targeted(cargo: seq<string>) {
    exists k :: 0 <= k < |cargo| && NamesTarget(cargo[k])
  }

  /** What is built, in terms of what the user's arguments give. */
  ghost function Rewritten(lint: seq<string>, cargo: seq<string>, manifestPath: string): seq<string> {
    Complete(lint, cargo, manifestPath, Given(lint, ManifestPath), Given(lint, PackageSelection), Given(lint, NoDeps),
             Given(lint, Fix) || Targeted(cargo))
  }

  lemma TargetsInArgs(cargo: seq<string>)
    ensures AnyTarget(cargo) <==> Targeted(cargo)
  {
    forall k | 0 <= k < |cargo| ensures SelectsTarget(cargo[k]) <==> NamesTarget(cargo[k]) { TargetsByName(cargo[k]); }
  }

  lemma ParseExactly(lint: seq<string>, cargo: seq<string>, separated: bool)
    requires "--" !in lint && (!separated ==> cargo == [])
    ensures Parse(if separated then lint + ["--"] + cargo else lint) == Split(lint, cargo)
  {
    var argv := if separated then lint + ["--"] + cargo else lint;
    assert argv[..|lint|] == lint;
    SeparatorIsAt(argv, |lint|);
    if separated { assert argv[|lint| + 1..] == cargo; }
  }

  lemma BuildCompletes(p: Parsed, manifestPath: string)
    ensures Build(p, manifestPath) ==
            Complete(p.lintArgs, p.cargoArgs, manifestPath, p.Has(ManifestPath), p.Has(PackageSelection), p.Has(NoDeps),
                     p.Has(Fix) || p.cargoTarget)
  {
    AppendedInTurn(!p.Has(ManifestPath), ["--manifest-path", manifestPath],
                   !p.Has(ManifestPath) && !p.Has(PackageSelection), ["--workspace"], !p.Has(NoDeps), ["--no-deps"]);
    assert Defaults(p, manifestPath) ==
           Missing(manifestPath, p.Has(ManifestPath), p.Has(PackageSelection), p.Has(NoDeps));
    AppendedOrNot(p.cargoArgs, !p.Has(Fix) && !p.cargoTarget, ["--all-targets"]);
  }

  lemma AppendedOrNot(list: seq<string>, condition: bool, more: seq<string>)
    ensures list + (if condition then more else []) == AppendIf(list, condition, more)
  {
  }

  lemma AppendedInTurn(a: bool, x: seq<string>, b: bool, y: seq<string>, c: bool, z: seq<string>)
    ensures (if a then x else []) + (if b then y else []) + (if c then z else []) ==
            AppendIf(AppendIf(AppendIf([], a, x), b, y), c, z)
  {
    AppendedOrNot([], a, x);
    AppendedOrNot(AppendIf([], a, x), b, y);
    AppendedOrNot(AppendIf(AppendIf([], a, x), b, y), c, z);
  }

  /** Building from the parse of any argument list adds exactly the defaults the user's
      arguments leave open, and leaves those arguments as they are. */
  lemma BuildExactly(lint: seq<string>, cargo: seq<string>, separated: bool, manifestPath: string)
    requires "--" !in lint && (!separated ==> cargo == [])
    ensures Build(Parse(if separated then lint + ["--"] + cargo else lint), manifestPath) ==
            Rewritten(lint, cargo, manifestPath)
  {
    ParseExactly(lint, cargo, separated);
    BuildCompletes(Split(lint, cargo), manifestPath);
    NotesExactly(lint);
    TargetsInArgs(cargo);
  }
}
