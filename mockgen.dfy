/**
 * The interface-selection logic of the generator (mockgen/mockgen.go): the
 * include/exclude list of the -t flag, the rule that decides which
 * interfaces are mocked, the directory-entry filter, the naming of imports,
 * the choice of type declarations, and the arity guard applied before code
 * is emitted. Reading the directory and parsing, printing and writing Go
 * source are inputs or left out.
 */
module MockGen {
  import opened Wrappers
  import opened GoStrings
  import Providers

  /** The runtime panics of the generator's own code, and the rejections of
      the arity guard. `NoParams` and `NoResults` are raised only by the
      corrected guard `CheckArity`. */
  datatype Fault =
    | IndexOutOfRange
    | SliceOutOfRange
    | NilDereference
    | TooManyParams
    | TooManyResults
    | NoParams
    | NoResults

  /* ---------------------------- the -t list ----------------------------- */

  /** The entries of the list as `parse` sees them: when the first character
      is a quote, the first and the last characters are dropped (the last is
      not checked to be a quote); the rest is split at commas. An empty list
      faults on `mockInterfaces[0]`, a lone quote on the slice `[1:0]`. */
  function Entries(list: string): (r: Result<seq<string>, Fault>)
    ensures r.Err? <==> |list| == 0 || (|list| == 1 && (list[0] == '\'' || list[0] == '"'))
    ensures r.Err? ==> r.error == (if |list| == 0 then IndexOutOfRange else SliceOutOfRange)
    ensures r.Ok? ==> |r.value| >= 1 && forall k :: 0 <= k < |r.value| ==> ',' !in r.value[k]
    ensures r.Ok? && (list[0] == '\'' || list[0] == '"') ==> Join(r.value, ',') == list[1..|list| - 1]
    ensures r.Ok? && list[0] != '\'' && list[0] != '"' ==> Join(r.value, ',') == list
  {
    if |list| == 0 then Err(IndexOutOfRange)
    else if list[0] == '\'' || list[0] == '"' then
      if |list| < 2 then Err(SliceOutOfRange)
      else
        JoinSplit(list[1..|list| - 1], ',');
        Ok(Split(list[1..|list| - 1], ','))
    else
      JoinSplit(list, ',');
      Ok(Split(list, ','))
  }

  /** The entries added verbatim to the includes. */
  function Includes(entries: seq<string>): set<string>
  {
    set e | e in entries && e != "" && e[0] != '!'
  }

  /** The entries starting with `!`, without it, added to the excludes. */
  function Excludes(entries: seq<string>): set<string>
  {
    set e | e in entries && e != "" && e[0] == '!' :: e[1..]
  }

  /** Adding one entry adds it to the includes or, without its `!`, to the
      excludes; an empty entry adds nothing. */
  lemma SetsSnoc(entries: seq<string>, e: string)
    ensures Includes(entries + [e]) == Includes(entries) + (if e != "" && e[0] != '!' then {e} else {})
    ensures Excludes(entries + [e]) == Excludes(entries) + (if e != "" && e[0] == '!' then {e[1..]} else {})
  {
    assert forall x :: x in entries + [e] <==> x in entries || x == e;
  }

  /** An exclude is exactly an entry `!name`. */
  lemma ExcludesByBang(entries: seq<string>, name: string)
    ensures name in Excludes(entries) <==> ['!'] + name in entries
  {
    if ['!'] + name in entries {
      var e := ['!'] + name;
      assert e != "" && e[0] == '!' && e[1..] == name;
    }
    if name in Excludes(entries) {
      var e :| e in entries && e != "" && e[0] == '!' && e[1..] == name;
      assert e == [e[0]] + e[1..];
    }
  }

  /** The include and exclude sets of a `scanContext`. */
  datatype Filter = Filter(includes: set<string>, excludes: set<string>)
  {
    /** `mock(name)`: with any include, exactly the includes are mocked and
        the excludes are ignored; without one, everything but the excludes. */
    predicate Selects(name: string)
    {
      if includes != {} then name in includes else name !in excludes
    }
  }

  /** What `parse`, started from empty sets, leaves behind; an empty entry
      (from "", "A,,B" or a trailing comma) faults on `s[0]`. */
  function ParseOutcome(list: string): Result<Filter, Fault>
  {
    match Entries(list)
    case Err(f) => Err(f)
    case Ok(entries) =>
      if "" in entries then Err(IndexOutOfRange)
      else Ok(Filter(Includes(entries), Excludes(entries)))
  }

  /** The meaning of a list `parse` accepts, for a Go identifier `name`: if
      some entry lacks the `!`, the interfaces listed are mocked and no
      other; otherwise every interface is mocked but those listed as `!name`. */
  lemma {:induction false} SelectionByList(list: string, name: string)
    requires ParseOutcome(list).Ok?
    requires name != "" && name[0] != '!'
    ensures var entries := Entries(list).value;
      ParseOutcome(list).value.Selects(name) <==>
        if exists e :: e in entries && e != "" && e[0] != '!' then name in entries
        else ['!'] + name !in entries
  {
    var entries := Entries(list).value;
    ExcludesByBang(entries, name);
    if exists e :: e in entries && e != "" && e[0] != '!' {
      var e :| e in entries && e != "" && e[0] != '!';
      assert e in Includes(entries);
    }
  }

  /** The first empty entry, or the number of entries when there is none. */
  function FirstEmpty(entries: seq<string>): (k: nat)
    ensures k <= |entries|
    ensures forall j :: 0 <= j < k ==> entries[j] != ""
    ensures k < |entries| ==> entries[k] == ""
  {
    if entries == [] || entries[0] == "" then 0 else 1 + FirstEmpty(entries[1..])
  }

  /** The corrected reading of the list: quotes are dropped only around at
      least two characters, and empty entries are skipped. */
  function IntendedFilter(list: string): (f: Filter)
    ensures ParseOutcome(list).Ok? ==> f == ParseOutcome(list).value
    ensures list == "" ==> f == Filter({}, {})
  {
    var stripped := if |list| >= 2 && (list[0] == '\'' || list[0] == '"') then list[1..|list| - 1] else list;
    var entries := Split(stripped, ',');
    Filter(Includes(entries), Excludes(entries))
  }

  /** As written, `parse` faults on the flag's default value "", and on lists
      with an empty entry; the corrected reading mocks every interface for "". */
  lemma EmptyListFaults(name: string)
    ensures ParseOutcome("") == Err(IndexOutOfRange)
    ensures ParseOutcome("A,,B") == Err(IndexOutOfRange)
    ensures IntendedFilter("").Selects(name)
  {
  }

  /** The list of the repository's own generator test. */
  lemma ExcludeOnlyList()
    ensures ParseOutcome("!ServiceV2") == Ok(Filter({}, {"ServiceV2"}))
    ensures ParseOutcome("!ServiceV2").value.Selects("Service")
    ensures !ParseOutcome("!ServiceV2").value.Selects("ServiceV2")
  {
    ExcludeOnlyEntries();
    ExcludeOnlySets();
  }

  lemma ExcludeOnlyEntries()
    ensures Entries("!ServiceV2") == Ok(["!ServiceV2"])
  {
    SplitWithoutSeparator("!ServiceV2", ',');
  }

  /** The same list as the `go:generate` line of the test sources passes it,
      single quotes included: `parse` drops them. */
  lemma QuotedExcludeOnlyList()
    ensures ParseOutcome("'!ServiceV2'") == ParseOutcome("!ServiceV2")
  {
    var q := "'!ServiceV2'";
    assert q[0] == '\'' && q[1..|q| - 1] == "!ServiceV2";
    ExcludeOnlyEntries();
    SplitWithoutSeparator("!ServiceV2", ',');
  }

  lemma ExcludeOnlySets()
    ensures Includes(["!ServiceV2"]) == {} && Excludes(["!ServiceV2"]) == {"ServiceV2"}
  {
    assert "!ServiceV2"[0] == '!';
    assert "!ServiceV2"[1..] == "ServiceV2";
  }

  /** `scanContext`: the output file name and the two sets `parse` fills. */
  class ScanContext {
    const outputFile: string
    var includes: set<string>
    var excludes: set<string>

    constructor (outputFile: string)
      ensures this.outputFile == outputFile && includes == {} && excludes == {}
    {
      this.outputFile := outputFile;
      includes, excludes := {}, {};
    }

    /** `parse`: adds every entry to the includes or (without its `!`) to the
        excludes, in order, faulting at the first empty entry after the
        entries before it were added. */
    method Parse(list: string) returns (fault: Option<Fault>)
      modifies this
      ensures fault == (if ParseOutcome(list).Err? then Some(ParseOutcome(list).error) else None)
      ensures Entries(list).Err? ==> includes == old(includes) && excludes == old(excludes)
      ensures Entries(list).Ok? ==>
        var done := Entries(list).value[..FirstEmpty(Entries(list).value)];
        includes == old(includes) + Includes(done) && excludes == old(excludes) + Excludes(done)
    {
      if |list| == 0 {
        return Some(IndexOutOfRange);
      }
      var s := list;
      if s[0] == '\'' || s[0] == '"' {
        if |s| < 2 {
          return Some(SliceOutOfRange);
        }
        s := s[1..|s| - 1];
      }
      var ss := Split(s, ',');
      assert ss == Entries(list).value;
      fault := AddEntries(ss);
    }

    /** The loop of `parse` over the entries: each is added in order, and the
        first empty one faults after the entries before it were added. */
    method AddEntries(ss: seq<string>) returns (fault: Option<Fault>)
      modifies this
      ensures fault == (if "" in ss then Some(IndexOutOfRange) else None)
      ensures includes == old(includes) + Includes(ss[..FirstEmpty(ss)])
      ensures excludes == old(excludes) + Excludes(ss[..FirstEmpty(ss)])
    {
      for k := 0 to |ss|
        invariant forall j :: 0 <= j < k ==> ss[j] != ""
        invariant includes == old(includes) + Includes(ss[..k])
        invariant excludes == old(excludes) + Excludes(ss[..k])
      {
        assert ss[..k + 1] == ss[..k] + [ss[k]];
        SetsSnoc(ss[..k], ss[k]);
        if |ss[k]| == 0 {
          assert ss[k] in ss;
          assert FirstEmpty(ss) == k;
          return Some(IndexOutOfRange);
        }
        if ss[k][0] == '!' {
          excludes := excludes + {ss[k][1..]};
        } else {
          includes := includes + {ss[k]};
        }
      }
      assert ss[..|ss|] == ss;
      assert "" !in ss;
      return None;
    }

    /** `mock(name)`. */
    function Mock(name: string): bool
      reads this
    {
      Filter(includes, excludes).Selects(name)
    }
  }

  /** Running `parse` once on a fresh context and asking `mock`, as the
      generator's own test does with "!ServiceV2". */
  method SelectWithList(list: string, outputFile: string, name: string) returns (fault: Option<Fault>, selected: bool)
    ensures fault.None? <==> ParseOutcome(list).Ok?
    ensures fault.None? ==> selected == ParseOutcome(list).value.Selects(name)
  {
    var ctx := new ScanContext(outputFile);
    fault := ctx.Parse(list);
    selected := ctx.Mock(name);
  }

  /* ----------------------- the syntax that is scanned ----------------------- */

  /** An import: the optional explicit name and the path literal, quotes
      included, as the parser gives it. */
  datatype ImportSpec = ImportSpec(alias: Option<string>, pathLit: string)

  /** An entry of an interface's method list: a method with the number of
      its parameter fields and, unless the result list is absent, of its
      result fields; or an embedded interface, which has no name. */
  datatype MethodField =
    | Method(name: string, paramFields: nat, resultFields: Option<nat>)
    | Embedded(typeName: string)

  datatype TypeExpr = InterfaceType(methods: seq<MethodField>) | OtherType

  datatype TypeSpec = TypeSpec(name: string, typ: TypeExpr)

  /** A top-level declaration: a `type` declaration with its specs, or any
      other declaration (functions, variables, constants, imports). */
  datatype Decl = TypeDecl(specs: seq<TypeSpec>) | OtherDecl

  /** A parsed source file. */
  datatype SourceFile = SourceFile(imports: seq<ImportSpec>, decls: seq<Decl>)

  /** `MockInterface`: an interface chosen for mocking, with the file it was
      found in and that file's imports. */
  datatype MockInterface = MockInterface(name: string, methods: seq<MethodField>, file: string, imports: map<string, string>)

  /* ------------------------------- imports -------------------------------- */

  /** The parser hands over every import path as a quoted literal. */
  predicate QuotedImports(src: SourceFile)
  {
    forall k :: 0 <= k < |src.imports| ==> |src.imports[k].pathLit| >= 2
  }

  /** The import path: the literal without its surrounding quotes. */
  function ImportPath(spec: ImportSpec): string
    requires |spec.pathLit| >= 2
  {
    spec.pathLit[1..|spec.pathLit| - 1]
  }

  /** The import name: the explicit name if there is one, otherwise the last
      `/`-separated segment of the path. */
  function ImportName(spec: ImportSpec): string
    requires |spec.pathLit| >= 2
  {
    if spec.alias.Some? then spec.alias.value else LastPiece(ImportPath(spec), '/')
  }

  /** Without an explicit name, the name is the part of the path after its
      last `/`, or the whole path when it has none. */
  lemma DefaultImportName(spec: ImportSpec)
    requires |spec.pathLit| >= 2 && spec.alias.None?
    ensures '/' !in ImportName(spec)
    ensures HasSuffix(ImportPath(spec), ImportName(spec))
    ensures var p := ImportPath(spec); var n := ImportName(spec);
      |n| == |p| || (|n| < |p| && p[|p| - |n| - 1] == '/')
    ensures '/' !in ImportPath(spec) ==> ImportName(spec) == ImportPath(spec)
  {
    LastPieceIsSuffix(ImportPath(spec), '/');
  }

  /** The `imports` map `scanFile` builds: name to path, a later import of
      the same name overwriting an earlier one. */
  function ImportMap(specs: seq<ImportSpec>): map<string, string>
    requires forall k :: 0 <= k < |specs| ==> |specs[k].pathLit| >= 2
  {
    if specs == [] then map[]
    else
      var last := specs[|specs| - 1];
      ImportMap(specs[..|specs| - 1])[ImportName(last) := ImportPath(last)]
  }

  /** Every import's name is a key, and the key of a name maps to the path
      of the last import with that name. */
  lemma {:induction false} ImportMapLastWins(specs: seq<ImportSpec>, i: nat)
    requires forall k :: 0 <= k < |specs| ==> |specs[k].pathLit| >= 2
    requires i < |specs|
    requires forall j :: i < j < |specs| ==> ImportName(specs[j]) != ImportName(specs[i])
    ensures ImportName(specs[i]) in ImportMap(specs)
    ensures ImportMap(specs)[ImportName(specs[i])] == ImportPath(specs[i])
    decreases |specs|
  {
    if i < |specs| - 1 {
      ImportMapLastWins(specs[..|specs| - 1], i);
    }
  }

  /** The keys are exactly the import names. */
  lemma {:induction false} ImportMapKeys(specs: seq<ImportSpec>)
    requires forall k :: 0 <= k < |specs| ==> |specs[k].pathLit| >= 2
    ensures ImportMap(specs).Keys == set k | 0 <= k < |specs| :: ImportName(specs[k])
    decreases |specs|
  {
    if specs != [] {
      var init := specs[..|specs| - 1];
      ImportMapKeys(init);
      assert forall k :: 0 <= k < |init| ==> init[k] == specs[k];
    }
  }

  /* ------------------------ choosing the interfaces ------------------------ */

  /** A type spec is chosen when it is an interface with at least one entry
      in its method list and `mock` accepts its name. */
  predicate Chosen(ctx: ScanContext, spec: TypeSpec)
    reads ctx
  {
    spec.typ.InterfaceType? && |spec.typ.methods| > 0 && ctx.Mock(spec.name)
  }

  function SpecsChosen(ctx: ScanContext, file: string, imports: map<string, string>, specs: seq<TypeSpec>): seq<MockInterface>
    reads ctx
  {
    if specs == [] then []
    else
      var last := specs[|specs| - 1];
      SpecsChosen(ctx, file, imports, specs[..|specs| - 1])
        + if Chosen(ctx, last) then [MockInterface(last.name, last.typ.methods, file, imports)] else []
  }

  function DeclsChosen(ctx: ScanContext, file: string, imports: map<string, string>, decls: seq<Decl>): seq<MockInterface>
    reads ctx
  {
    if decls == [] then []
    else
      DeclsChosen(ctx, file, imports, decls[..|decls| - 1])
        + match decls[|decls| - 1]
          case TypeDecl(specs) => SpecsChosen(ctx, file, imports, specs)
          case OtherDecl => []
  }

  /** What `scanFile` returns for the parsed file `src` found at `file`. */
  function FileChosen(ctx: ScanContext, file: string, src: SourceFile): seq<MockInterface>
    reads ctx
    requires QuotedImports(src)
  {
    DeclsChosen(ctx, file, ImportMap(src.imports), src.decls)
  }

  lemma {:induction false} SpecsChosenSound(ctx: ScanContext, file: string, imports: map<string, string>, specs: seq<TypeSpec>)
    ensures forall x :: x in SpecsChosen(ctx, file, imports, specs) ==>
      |x.methods| > 0 && ctx.Mock(x.name) && x.file == file && x.imports == imports
      && TypeSpec(x.name, InterfaceType(x.methods)) in specs
    decreases |specs|
  {
    if specs != [] {
      SpecsChosenSound(ctx, file, imports, specs[..|specs| - 1]);
      assert forall t :: t in specs[..|specs| - 1] ==> t in specs;
    }
  }

  lemma {:induction false} DeclsChosenSound(ctx: ScanContext, file: string, imports: map<string, string>, decls: seq<Decl>)
    ensures forall x :: x in DeclsChosen(ctx, file, imports, decls) ==>
      |x.methods| > 0 && ctx.Mock(x.name) && x.file == file && x.imports == imports
    ensures forall x :: x in DeclsChosen(ctx, file, imports, decls) ==>
      exists d :: 0 <= d < |decls| && decls[d].TypeDecl? && TypeSpec(x.name, InterfaceType(x.methods)) in decls[d].specs
    decreases |decls|
  {
    if decls != [] {
      var n := |decls| - 1;
      var init := decls[..n];
      DeclsChosenSound(ctx, file, imports, init);
      assert forall d :: 0 <= d < n ==> init[d] == decls[d];
      match decls[n]
      case TypeDecl(specs) =>
        SpecsChosenSound(ctx, file, imports, specs);
        forall x | x in SpecsChosen(ctx, file, imports, specs)
          ensures exists d :: 0 <= d < |decls| && decls[d].TypeDecl? && TypeSpec(x.name, InterfaceType(x.methods)) in decls[d].specs
        {
          assert decls[n].TypeDecl? && TypeSpec(x.name, InterfaceType(x.methods)) in decls[n].specs;
        }
      case OtherDecl =>
    }
  }

  lemma {:induction false} SpecsChosenComplete(ctx: ScanContext, file: string, imports: map<string, string>, specs: seq<TypeSpec>, s: nat)
    requires s < |specs| && Chosen(ctx, specs[s])
    ensures MockInterface(specs[s].name, specs[s].typ.methods, file, imports) in SpecsChosen(ctx, file, imports, specs)
    decreases |specs|
  {
    if s < |specs| - 1 {
      SpecsChosenComplete(ctx, file, imports, specs[..|specs| - 1], s);
    }
  }

  lemma {:induction false} DeclsChosenComplete(ctx: ScanContext, file: string, imports: map<string, string>, decls: seq<Decl>, d: nat, s: nat)
    requires d < |decls| && decls[d].TypeDecl? && s < |decls[d].specs| && Chosen(ctx, decls[d].specs[s])
    ensures MockInterface(decls[d].specs[s].name, decls[d].specs[s].typ.methods, file, imports) in DeclsChosen(ctx, file, imports, decls)
    decreases |decls|
  {
    if d < |decls| - 1 {
      DeclsChosenComplete(ctx, file, imports, decls[..|decls| - 1], d, s);
    } else {
      SpecsChosenComplete(ctx, file, imports, decls[d].specs, s);
    }
  }

  /** `scanFile` chooses exactly the interface type specs of the file's
      declarations that have a method entry and that `mock` accepts, each
      carrying the file and the file's imports. */
  lemma FileChosenExactly(ctx: ScanContext, file: string, src: SourceFile)
    requires QuotedImports(src)
    ensures forall x :: x in FileChosen(ctx, file, src) ==>
      |x.methods| > 0 && ctx.Mock(x.name) && x.file == file && x.imports == ImportMap(src.imports)
    ensures forall x :: x in FileChosen(ctx, file, src) ==>
      exists d :: 0 <= d < |src.decls| && src.decls[d].TypeDecl? && TypeSpec(x.name, InterfaceType(x.methods)) in src.decls[d].specs
    ensures forall d, s :: 0 <= d < |src.decls| && src.decls[d].TypeDecl? && 0 <= s < |src.decls[d].specs| && Chosen(ctx, src.decls[d].specs[s]) ==>
      MockInterface(src.decls[d].specs[s].name, src.decls[d].specs[s].typ.methods, file, ImportMap(src.imports)) in FileChosen(ctx, file, src)
  {
    DeclsChosenSound(ctx, file, ImportMap(src.imports), src.decls);
    forall d, s | 0 <= d < |src.decls| && src.decls[d].TypeDecl? && 0 <= s < |src.decls[d].specs| && Chosen(ctx, src.decls[d].specs[s])
      ensures MockInterface(src.decls[d].specs[s].name, src.decls[d].specs[s].typ.methods, file, ImportMap(src.imports)) in FileChosen(ctx, file, src)
    {
      DeclsChosenComplete(ctx, file, ImportMap(src.imports), src.decls, d, s);
    }
  }

  /** `scanFile` on the parsed file `src`: builds the imports map, then walks
      the type declarations in order. */
  method ScanFile(ctx: ScanContext, file: string, src: SourceFile) returns (ret: seq<MockInterface>)
    requires QuotedImports(src)
    ensures ret == FileChosen(ctx, file, src)
  {
    var imports: map<string, string> := map[];
    for k := 0 to |src.imports|
      invariant imports == ImportMap(src.imports[..k])
    {
      assert src.imports[..k + 1][..k] == src.imports[..k];
      var spec := src.imports[k];
      var pkgPath := spec.pathLit[1..|spec.pathLit| - 1];
      var pkgName: string;
      if spec.alias.Some? {
        pkgName := spec.alias.value;
      } else {
        var ss := Split(pkgPath, '/');
        pkgName := ss[|ss| - 1];
      }
      imports := imports[pkgName := pkgPath];
    }
    assert src.imports[..|src.imports|] == src.imports;
    ret := [];
    for d := 0 to |src.decls|
      invariant ret == DeclsChosen(ctx, file, imports, src.decls[..d])
    {
      assert src.decls[..d + 1][..d] == src.decls[..d];
      match src.decls[d]
      case OtherDecl =>
      case TypeDecl(specs) =>
        ghost var before := ret;
        for s := 0 to |specs|
          invariant ret == before + SpecsChosen(ctx, file, imports, specs[..s])
        {
          assert specs[..s + 1][..s] == specs[..s];
          var spec := specs[s];
          if spec.typ.InterfaceType? && |spec.typ.methods| > 0 && ctx.Mock(spec.name) {
            ret := ret + [MockInterface(spec.name, spec.typ.methods, file, imports)];
          }
        }
        assert specs[..|specs|] == specs;
    }
    assert src.decls[..|src.decls|] == src.decls;
  }

  /* ------------------------------ the directory ----------------------------- */

  datatype DirEntry = DirEntry(name: string, isDir: bool)

  /** `scanDir` scans an entry unless it is a directory, the output file, or
      a test file. */
  predicate Scanned(outputFile: string, e: DirEntry)
  {
    !e.isDir && e.name != outputFile && !HasSuffix(e.name, "_test.go")
  }

  /** The parser delivers quoted import paths for every scanned entry. */
  predicate Parsable(outputFile: string, entries: seq<DirEntry>, sources: string -> SourceFile)
  {
    forall k :: 0 <= k < |entries| && Scanned(outputFile, entries[k]) ==> QuotedImports(sources(entries[k].name))
  }

  /** The interfaces of the scanned entries, concatenated in directory order. */
  function DirChosen(ctx: ScanContext, entries: seq<DirEntry>, sources: string -> SourceFile): seq<MockInterface>
    reads ctx
    requires Parsable(ctx.outputFile, entries, sources)
  {
    if entries == [] then []
    else
      var last := entries[|entries| - 1];
      DirChosen(ctx, entries[..|entries| - 1], sources)
        + if Scanned(ctx.outputFile, last) then FileChosen(ctx, last.name, sources(last.name)) else []
  }

  lemma {:induction false} DirChosenAppend(ctx: ScanContext, a: seq<DirEntry>, b: seq<DirEntry>, sources: string -> SourceFile)
    requires Parsable(ctx.outputFile, a + b, sources)
    ensures Parsable(ctx.outputFile, a, sources) && Parsable(ctx.outputFile, b, sources)
    ensures DirChosen(ctx, a + b, sources) == DirChosen(ctx, a, sources) + DirChosen(ctx, b, sources)
    decreases |b|
  {
    assert forall k :: 0 <= k < |a| ==> (a + b)[k] == a[k];
    assert forall k :: 0 <= k < |b| ==> (a + b)[|a| + k] == b[k];
    if b != [] {
      var init := b[..|b| - 1];
      assert (a + b)[..|a + b| - 1] == a + init;
      assert forall k :: 0 <= k < |init| ==> init[k] == b[k];
      DirChosenAppend(ctx, a, init, sources);
    } else {
      assert a + b == a;
    }
  }

  /** Every interface `scanDir` returns comes from a scanned entry, is an
      interface type spec declared in that entry's file, has a method entry,
      and is accepted by `mock`. */
  lemma {:induction false} DirChosenSound(ctx: ScanContext, entries: seq<DirEntry>, sources: string -> SourceFile)
    requires Parsable(ctx.outputFile, entries, sources)
    ensures forall x :: x in DirChosen(ctx, entries, sources) ==>
      |x.methods| > 0 && ctx.Mock(x.name)
      && exists k :: 0 <= k < |entries| && Scanned(ctx.outputFile, entries[k]) && entries[k].name == x.file
    ensures forall x :: x in DirChosen(ctx, entries, sources) ==>
      var decls := sources(x.file).decls;
      exists d :: 0 <= d < |decls| && decls[d].TypeDecl? && TypeSpec(x.name, InterfaceType(x.methods)) in decls[d].specs
    decreases |entries|
  {
    if entries != [] {
      var n := |entries| - 1;
      var init := entries[..n];
      assert forall k :: 0 <= k < n ==> init[k] == entries[k];
      DirChosenSound(ctx, init, sources);
      if Scanned(ctx.outputFile, entries[n]) {
        var src := sources(entries[n].name);
        DeclsChosenSound(ctx, entries[n].name, ImportMap(src.imports), src.decls);
      }
    }
  }

  /** A skipped entry (a directory, the output file, a `_test.go` file)
      contributes nothing, wherever it stands. */
  lemma SkippedEntryContributesNothing(ctx: ScanContext, a: seq<DirEntry>, e: DirEntry, b: seq<DirEntry>, sources: string -> SourceFile)
    requires !Scanned(ctx.outputFile, e)
    requires Parsable(ctx.outputFile, a + [e] + b, sources)
    ensures Parsable(ctx.outputFile, a + b, sources)
    ensures DirChosen(ctx, a + [e] + b, sources) == DirChosen(ctx, a + b, sources)
  {
    DirChosenAppend(ctx, a + [e], b, sources);
    DirChosenAppend(ctx, a, [e], sources);
    assert [e][..0] == [];
    assert forall k :: 0 <= k < |a + b| ==> (a + b)[k] in a + [e] + b;
    assert Parsable(ctx.outputFile, a + b, sources) by {
      forall k | 0 <= k < |a + b| && Scanned(ctx.outputFile, (a + b)[k])
        ensures QuotedImports(sources((a + b)[k].name))
      {
        if k < |a| {
          assert (a + b)[k] == (a + [e] + b)[k];
        } else {
          assert (a + b)[k] == (a + [e] + b)[k + 1];
        }
      }
    }
    DirChosenAppend(ctx, a, b, sources);
  }

  /** `scanDir` over the directory listing `entries`, whose scanned files
      parse to `sources`. */
  method ScanDir(ctx: ScanContext, entries: seq<DirEntry>, sources: string -> SourceFile) returns (ret: seq<MockInterface>)
    requires Parsable(ctx.outputFile, entries, sources)
    ensures ret == DirChosen(ctx, entries, sources)
  {
    ret := [];
    for k := 0 to |entries|
      invariant ret == DirChosen(ctx, entries[..k], sources)
    {
      assert entries[..k + 1][..k] == entries[..k];
      var entry := entries[k];
      if entry.isDir {
        continue;
      }
      if entry.name == ctx.outputFile {
        continue;
      }
      if HasSuffix(entry.name, "_test.go") {
        continue;
      }
      var arr := ScanFile(ctx, entry.name, sources(entry.name));
      ret := ret + arr;
    }
    assert entries[..|entries|] == entries;
  }

  /* ------------------- the generator test's directory ------------------- */

  const ContextImport := ImportSpec(None, "\"context\"")
  const InnerImport := ImportSpec(None, "\"github.com/lvan100/gomock/mockgen/testdata/inner\"")
  const GetMethod := Method("Get", 3, Some(2))
  const ServiceSpec := TypeSpec("Service", InterfaceType([GetMethod]))
  const ServiceV2Spec := TypeSpec("ServiceV2", InterfaceType([GetMethod]))
  const RepositorySpec := TypeSpec("RepositoryV2", InterfaceType([Method("Save", 1, Some(1)), Method("FindByID", 1, Some(2))]))

  /** The directory listing of mockgen/testdata, in name order: the package
      `inner` that the sources import, then the files. */
  const InnerDir := DirEntry("inner", true)
  const SrcGo := DirEntry("src.go", false)
  const Src2Go := DirEntry("src_2.go", false)
  const SrcBarGo := DirEntry("src_bar.go", false)
  const SrcMockGo := DirEntry("src_mock.go", false)
  const SrcMockTestGo := DirEntry("src_mock_test.go", false)
  const TestdataEntries := [InnerDir, SrcGo, Src2Go, SrcBarGo, SrcMockGo, SrcMockTestGo]

  /** The parsed files of mockgen/testdata: the import declaration, then the
      type declarations; the generated and the test file are never parsed. */
  function TestdataSource(name: string): SourceFile
  {
    if name == "src.go" then
      SourceFile([ContextImport, InnerImport], [OtherDecl, TypeDecl([TypeSpec("Response", OtherType)]), TypeDecl([ServiceSpec])])
    else if name == "src_2.go" then
      SourceFile([ContextImport, InnerImport], [OtherDecl, TypeDecl([ServiceV2Spec])])
    else if name == "src_bar.go" then
      SourceFile([ContextImport, InnerImport], [OtherDecl, TypeDecl([RepositorySpec]), TypeDecl([ServiceV2Spec])])
    else SourceFile([], [])
  }

  lemma TestdataSkips()
    ensures Scanned("src_mock.go", SrcGo) && Scanned("src_mock.go", Src2Go) && Scanned("src_mock.go", SrcBarGo)
    ensures !Scanned("src_mock.go", InnerDir) && !Scanned("src_mock.go", SrcMockGo) && !Scanned("src_mock.go", SrcMockTestGo)
  {
  }

  lemma DeclsChosenSnoc(ctx: ScanContext, file: string, imports: map<string, string>, decls: seq<Decl>, specs: seq<TypeSpec>)
    ensures DeclsChosen(ctx, file, imports, decls + [TypeDecl(specs)]) == DeclsChosen(ctx, file, imports, decls) + SpecsChosen(ctx, file, imports, specs)
    ensures DeclsChosen(ctx, file, imports, decls + [OtherDecl]) == DeclsChosen(ctx, file, imports, decls)
  {
  }

  lemma SpecsChosenSingle(ctx: ScanContext, file: string, imports: map<string, string>, spec: TypeSpec)
    ensures SpecsChosen(ctx, file, imports, [spec]) == if Chosen(ctx, spec) then [MockInterface(spec.name, spec.typ.methods, file, imports)] else []
  {
  }

  /** A file made of an import declaration and two single type declarations. */
  lemma DeclsChosenTwoTypes(ctx: ScanContext, file: string, imports: map<string, string>, a: TypeSpec, b: TypeSpec)
    ensures DeclsChosen(ctx, file, imports, [OtherDecl, TypeDecl([a]), TypeDecl([b])])
      == (if Chosen(ctx, a) then [MockInterface(a.name, a.typ.methods, file, imports)] else [])
      + (if Chosen(ctx, b) then [MockInterface(b.name, b.typ.methods, file, imports)] else [])
  {
    SpecsChosenSingle(ctx, file, imports, a);
    SpecsChosenSingle(ctx, file, imports, b);
    DeclsChosenSnoc(ctx, file, imports, [], []);
    DeclsChosenSnoc(ctx, file, imports, [OtherDecl], [a]);
    DeclsChosenSnoc(ctx, file, imports, [OtherDecl, TypeDecl([a])], [b]);
    assert [] + [OtherDecl] == [OtherDecl];
    assert [OtherDecl] + [TypeDecl([a])] == [OtherDecl, TypeDecl([a])];
    assert [OtherDecl, TypeDecl([a])] + [TypeDecl([b])] == [OtherDecl, TypeDecl([a]), TypeDecl([b])];
  }

  /** With "!ServiceV2", src.go yields Service. */
  lemma TestdataSrc(ctx: ScanContext)
    requires ctx.includes == {} && ctx.excludes == {"ServiceV2"}
    ensures var x := FileChosen(ctx, "src.go", TestdataSource("src.go"));
      |x| == 1 && x[0].name == "Service" && x[0].file == "src.go" && x[0].methods == [GetMethod]
  {
    assert "Service" != "ServiceV2";
    assert !Chosen(ctx, TypeSpec("Response", OtherType)) && Chosen(ctx, ServiceSpec);
    DeclsChosenTwoTypes(ctx, "src.go", ImportMap([ContextImport, InnerImport]), TypeSpec("Response", OtherType), ServiceSpec);
  }

  /** With "!ServiceV2", src_2.go yields nothing. */
  lemma TestdataSrc2(ctx: ScanContext)
    requires ctx.includes == {} && ctx.excludes == {"ServiceV2"}
    ensures FileChosen(ctx, "src_2.go", TestdataSource("src_2.go")) == []
  {
    var m := ImportMap([ContextImport, InnerImport]);
    SpecsChosenSingle(ctx, "src_2.go", m, ServiceV2Spec);
    DeclsChosenSnoc(ctx, "src_2.go", m, [], []);
    DeclsChosenSnoc(ctx, "src_2.go", m, [OtherDecl], [ServiceV2Spec]);
    assert [] + [OtherDecl] == [OtherDecl];
    assert [OtherDecl] + [TypeDecl([ServiceV2Spec])] == TestdataSource("src_2.go").decls;
  }

  /** With "!ServiceV2", src_bar.go yields RepositoryV2. */
  lemma TestdataSrcBar(ctx: ScanContext)
    requires ctx.includes == {} && ctx.excludes == {"ServiceV2"}
    ensures var x := FileChosen(ctx, "src_bar.go", TestdataSource("src_bar.go"));
      |x| == 1 && x[0].name == "RepositoryV2" && x[0].file == "src_bar.go"
  {
    assert "RepositoryV2" != "ServiceV2";
    assert Chosen(ctx, RepositorySpec) && !Chosen(ctx, ServiceV2Spec);
    DeclsChosenTwoTypes(ctx, "src_bar.go", ImportMap([ContextImport, InnerImport]), RepositorySpec, ServiceV2Spec);
  }

  lemma DirChosenSnoc(ctx: ScanContext, entries: seq<DirEntry>, e: DirEntry, sources: string -> SourceFile)
    requires Parsable(ctx.outputFile, entries + [e], sources)
    ensures Parsable(ctx.outputFile, entries, sources)
    ensures Scanned(ctx.outputFile, e) ==> QuotedImports(sources(e.name))
    ensures DirChosen(ctx, entries + [e], sources) == DirChosen(ctx, entries, sources)
      + if Scanned(ctx.outputFile, e) then FileChosen(ctx, e.name, sources(e.name)) else []
  {
    assert (entries + [e])[|entries|] == e;
    DirChosenAppend(ctx, entries, [e], sources);
    assert [e][..0] == [];
  }

  /** Every testdata file delivers quoted import paths. */
  lemma TestdataQuoted(entries: seq<DirEntry>)
    ensures Parsable("src_mock.go", entries, TestdataSource)
  {
  }

  /** Three scanned entries contribute their files in order. */
  lemma DirChosenThree(ctx: ScanContext, a: DirEntry, b: DirEntry, c: DirEntry, sources: string -> SourceFile)
    requires Scanned(ctx.outputFile, a) && Scanned(ctx.outputFile, b) && Scanned(ctx.outputFile, c)
    requires Parsable(ctx.outputFile, [a, b, c], sources)
    ensures QuotedImports(sources(a.name)) && QuotedImports(sources(b.name)) && QuotedImports(sources(c.name))
    ensures DirChosen(ctx, [a, b, c], sources)
      == FileChosen(ctx, a.name, sources(a.name)) + FileChosen(ctx, b.name, sources(b.name)) + FileChosen(ctx, c.name, sources(c.name))
  {
    assert [a, b] + [c] == [a, b, c];
    DirChosenSnoc(ctx, [a, b], c, sources);
    assert [a] + [b] == [a, b];
    DirChosenSnoc(ctx, [a], b, sources);
    assert [] + [a] == [a];
    DirChosenSnoc(ctx, [], a, sources);
  }

  /** The `inner` directory, the generated file and the test file contribute nothing. */
  lemma TestdataSkippedTail(ctx: ScanContext)
    requires ctx.outputFile == "src_mock.go"
    ensures Parsable(ctx.outputFile, TestdataEntries, TestdataSource)
    ensures DirChosen(ctx, TestdataEntries, TestdataSource) == DirChosen(ctx, [SrcGo, Src2Go, SrcBarGo], TestdataSource)
  {
    TestdataSkips();
    TestdataQuoted(TestdataEntries);
    var three := [SrcGo, Src2Go, SrcBarGo];
    var files := three + [SrcMockGo] + [SrcMockTestGo];
    assert [] + [InnerDir] + files == TestdataEntries;
    SkippedEntryContributesNothing(ctx, [], InnerDir, files, TestdataSource);
    assert [] + files == files;
    DirChosenSnoc(ctx, three + [SrcMockGo], SrcMockTestGo, TestdataSource);
    DirChosenSnoc(ctx, three, SrcMockGo, TestdataSource);
  }

  /** The whole directory: Service from src.go, then RepositoryV2 from src_bar.go. */
  lemma TestdataDir(ctx: ScanContext)
    requires ctx.outputFile == "src_mock.go" && ctx.includes == {} && ctx.excludes == {"ServiceV2"}
    ensures Parsable(ctx.outputFile, TestdataEntries, TestdataSource)
    ensures var x := DirChosen(ctx, TestdataEntries, TestdataSource);
      |x| == 2 && x[0].name == "Service" && x[0].file == "src.go" && x[0].methods == [GetMethod]
      && x[1].name == "RepositoryV2" && x[1].file == "src_bar.go"
  {
    TestdataSkippedTail(ctx);
    TestdataSkips();
    TestdataQuoted([SrcGo, Src2Go, SrcBarGo]);
    DirChosenThree(ctx, SrcGo, Src2Go, SrcBarGo, TestdataSource);
    TestdataSrc(ctx);
    TestdataSrc2(ctx);
    TestdataSrcBar(ctx);
  }

  /** Parsing "!ServiceV2" adds its one entry and faults nowhere. */
  lemma ExcludeOnlyDone()
    ensures Entries("!ServiceV2").Ok? && ParseOutcome("!ServiceV2").Ok?
    ensures var e := Entries("!ServiceV2").value; e[..FirstEmpty(e)] == ["!ServiceV2"]
  {
    ExcludeOnlyList();
    ExcludeOnlyEntries();
    assert ["!ServiceV2"][..1] == ["!ServiceV2"];
  }

  /** The generator's own test scans mockgen/testdata with "!ServiceV2"
      into src_mock.go: it mocks Service (src.go) and RepositoryV2
      (src_bar.go), and skips ServiceV2 and the generated and test files. */
  method TestdataScan() returns (fault: Option<Fault>, ret: seq<MockInterface>)
    ensures fault == None
    ensures |ret| == 2
    ensures ret[0].name == "Service" && ret[0].file == "src.go" && ret[0].methods == [GetMethod]
    ensures ret[1].name == "RepositoryV2" && ret[1].file == "src_bar.go"
  {
    var ctx := new ScanContext("src_mock.go");
    ExcludeOnlyDone();
    ExcludeOnlySets();
    fault := ctx.Parse("!ServiceV2");
    TestdataDir(ctx);
    ret := ScanDir(ctx, TestdataEntries, TestdataSource);
  }

  /* ----------------------------- the arity guard ---------------------------- */

  /** The shape of a generated builder `MockerIJ`: I parameters, J results. */
  datatype Arity = Arity(params: nat, results: nat)

  /** The builders that gomock/mocker.go defines. */
  predicate ShimExists(a: Arity)
  {
    1 <= a.params <= Providers.MaxParamCount && 1 <= a.results <= Providers.MaxResultCount
  }

  /** `mockInterface`'s checks on one method entry, in its order: `Names[0]`
      faults on an embedded interface; more than 5 parameter fields is
      rejected; an absent result list is dereferenced; more than 5 result
      fields is rejected. */
  function MethodArityAsWritten(m: MethodField): Result<Arity, Fault>
  {
    match m
    case Embedded(_) => Err(IndexOutOfRange)
    case Method(_, p, r) =>
      if p > Providers.MaxParamCount then Err(TooManyParams)
      else if r.None? then Err(NilDereference)
      else if r.value > Providers.MaxResultCount then Err(TooManyResults)
      else Ok(Arity(p, r.value))
  }

  /** The guard of `mockInterface` over an interface's method list, as
      written: the first rejected method stops the generator; otherwise one
      builder arity per method. */
  function GuardAsWritten(methods: seq<MethodField>): (r: Result<seq<Arity>, Fault>)
    ensures r.Ok? <==> forall k :: 0 <= k < |methods| ==>
      methods[k].Method? && methods[k].paramFields <= Providers.MaxParamCount
      && methods[k].resultFields.Some? && methods[k].resultFields.value <= Providers.MaxResultCount
    ensures r.Ok? ==> |r.value| == |methods| && forall k :: 0 <= k < |methods| ==>
      r.value[k] == Arity(methods[k].paramFields, methods[k].resultFields.value)
    ensures r.Err? ==> exists k :: 0 <= k < |methods| && MethodArityAsWritten(methods[k]) == Err(r.error)
  {
    if methods == [] then Ok([])
    else
      match MethodArityAsWritten(methods[0])
      case Err(f) => Err(f)
      case Ok(a) =>
        match GuardAsWritten(methods[1..])
        case Err(f) => Err(f)
        case Ok(rest) => Ok([a] + rest)
  }

  /** The guard lets a method without parameters through (and an empty
      result list `()`), although no builder `Mocker0J` or `MockerI0`
      exists. For `Close() error` the emitted type argument list starts with
      a bare comma, which is not Go syntax: formatting the output fails and
      the generator panics there, instead of rejecting the method with the
      guard's message, so such a method cannot be mocked at all. */
  lemma GuardAdmitsMissingShim()
    ensures GuardAsWritten([Method("Close", 0, Some(1))]) == Ok([Arity(0, 1)])
    ensures !ShimExists(Arity(0, 1))
  {
    var ms := [Method("Close", 0, Some(1))];
    assert MethodArityAsWritten(ms[0]) == Ok(Arity(0, 1));
    assert ms[1..] == [];
    assert GuardAsWritten(ms[1..]) == Ok([]);
    assert [Arity(0, 1)] + [] == [Arity(0, 1)];
    assert GuardAsWritten(ms) == Ok([Arity(0, 1)]);
  }

  /** The corrected check for one method: a method without parameters, or
      without results (no result list at all, or an empty one), is rejected
      with its own fault before the checks as written, so the absent result
      list is never dereferenced. */
  function MethodArity(m: MethodField): (r: Result<Arity, Fault>)
    ensures r.Ok? <==> (m.Method? && 1 <= m.paramFields <= Providers.MaxParamCount
                        && m.resultFields.Some? && 1 <= m.resultFields.value <= Providers.MaxResultCount)
    ensures r.Ok? ==> ShimExists(r.value) && r.value == Arity(m.paramFields, m.resultFields.value)
    ensures r.Err? ==> r.error != NilDereference
    ensures m.Method? && m.paramFields == 0 ==> r == Err(NoParams)
    ensures m.Method? && m.paramFields > 0 && (m.resultFields.None? || m.resultFields == Some(0)) ==> r == Err(NoResults)
  {
    match m
    case Method(_, p, res) =>
      if p == 0 then Err(NoParams)
      else if res.None? || res.value == 0 then Err(NoResults)
      else MethodArityAsWritten(m)
    case Embedded(_) => MethodArityAsWritten(m)
  }

  /** The corrected guard: it accepts a method list exactly when every
      method has a builder, and then names an existing builder for each. */
  function CheckArity(methods: seq<MethodField>): (r: Result<seq<Arity>, Fault>)
    ensures r.Ok? <==> forall k :: 0 <= k < |methods| ==> MethodArity(methods[k]).Ok?
    ensures r.Ok? ==> |r.value| == |methods| && forall k :: 0 <= k < |methods| ==>
      ShimExists(r.value[k]) && r.value[k] == Arity(methods[k].paramFields, methods[k].resultFields.value)
    ensures r.Err? ==> r.error != NilDereference
  {
    if methods == [] then Ok([])
    else
      match MethodArity(methods[0])
      case Err(f) => Err(f)
      case Ok(a) =>
        match CheckArity(methods[1..])
        case Err(f) => Err(f)
        case Ok(rest) => Ok([a] + rest)
  }

  /** The corrected guard agrees with the one as written wherever it
      accepts; it refuses `Close() error` and `Stop(x int)` with their own
      faults, where the guard as written passes the first and dereferences
      the absent result list of the second. */
  lemma {:induction false} CheckArityRefinesGuard(methods: seq<MethodField>)
    ensures CheckArity(methods).Ok? ==> GuardAsWritten(methods) == CheckArity(methods)
    ensures CheckArity([Method("Close", 0, Some(1))]) == Err(NoParams)
    ensures CheckArity([Method("Stop", 1, None)]) == Err(NoResults)
    ensures GuardAsWritten([Method("Stop", 1, None)]) == Err(NilDereference)
    decreases |methods|
  {
    if methods != [] {
      CheckArityRefinesGuard(methods[1..]);
    }
  }
}
