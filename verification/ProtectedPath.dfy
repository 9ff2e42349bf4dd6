/**
 The two tests for paths a candidate patch must not touch: the one of the harness's TypeScript part
 and the one of its Python part.
 */
module ProtectedPath {
  import opened Ascii

  const EVAL_BASENAMES: set<string> := {
    ".coveragerc", "conftest.py", "jest.config.js", "jest.config.cjs", "jest.config.mjs", "jest.config.ts",
    "noxfile.py", "pyproject.toml", "pytest.ini", "setup.cfg", "tox.ini",
    "vitest.config.js", "vitest.config.mjs", "vitest.config.ts"
  }

  const EVAL_COMPONENTS: set<string> := {"__tests__", "integration_tests", "test", "tests", "testing"}

  const WRAPPER_BASENAMES: set<string> := {
    ".coveragerc", "conftest.py", "jest.config.cjs", "jest.config.js", "jest.config.mjs", "jest.config.ts",
    "noxfile.py", "pyproject.toml", "pytest.ini", "setup.cfg", "tox.ini",
    "vitest.config.js", "vitest.config.mjs", "vitest.config.ts"
  }

  const WRAPPER_COMPONENTS: set<string> := {"__tests__", "integration_tests", "test", "tests", "testing"}

  // ----- paths -----

  function Slashes(s: string): (r: string)
    ensures |r| == |s|
    ensures forall i :: 0 <= i < |s| ==> r[i] == if s[i] == '\\' then '/' else s[i]
  {
    seq(|s|, i requires 0 <= i < |s| => if s[i] == '\\' then '/' else s[i])
  }

  /** One more character for the last part. */
  function Extend(parts: seq<string>, c: char): (r: seq<string>)
    requires parts != []
    ensures |r| == |parts|
  {
    parts[..|parts| - 1] + [parts[|parts| - 1] + [c]]
  }

  /** `s.split('/')`. */
  function Split(s: string): (r: seq<string>)
    ensures r != []
  {
    if s == "" then [""]
    else
      var n, rest := |s| - 1, Split(s[..|s| - 1]);
      if s[n] == '/' then rest + [""] else Extend(rest, s[n])
  }

  function Nonempty(parts: seq<string>): seq<string> {
    if parts == [] then []
    else
      var n := |parts| - 1;
      if parts[n] == "" then Nonempty(parts[..n]) else Nonempty(parts[..n]) + [parts[n]]
  }

  function LastOr(parts: seq<string>, default: string): string {
    if parts == [] then default else parts[|parts| - 1]
  }

  /** What stands after the last slash. */
  function Tail(s: string): string {
    if s == "" || s[|s| - 1] == '/' then "" else Tail(s[..|s| - 1]) + [s[|s| - 1]]
  }

  /** `path.posix.basename`: slashes at the end do not count. */
  function Basename(s: string): string {
    if s == "" then "" else if s[|s| - 1] == '/' then Basename(s[..|s| - 1]) else Tail(s)
  }

  /** `replace(/^(?:a|b)\//, '')`. */
  function StripSide(s: string): string {
    if |s| >= 2 && (s[0] == 'a' || s[0] == 'b') && s[1] == '/' then s[2..] else s
  }

  // ----- file names -----

  predicate EndsWith(s: string, tail: string) {
    |tail| <= |s| && s[|s| - |tail|..] == tail
  }

  /** `test_`, at least one character, none of them excluded, then `.py`. */
  predicate IsTestModule(s: string, excluded: set<char>) {
    && |s| > 8 && "test_" <= s && EndsWith(s, ".py")
    && forall i :: 5 <= i < |s| - 3 ==> s[i] !in excluded
  }

  const SPEC_WORDS := [".spec.", ".test."]
  const MODULE_MARKS := ["", "c", "m"]
  const SCRIPT_ENDINGS := ["js", "jsx", "ts", "tsx"]

  /** `\.(?:spec|test)\.[cm]?[jt]sx?` at the end of the text. */
  ghost predicate EndsAsSpec(s: string) {
    exists w, m, e :: w in SPEC_WORDS && m in MODULE_MARKS && e in SCRIPT_ENDINGS && EndsWith(s, w + m + e)
  }

  /** Python's `$` also stands before a line feed that ends the text. */
  function BeforeLastBreak(s: string): string {
    if s != "" && s[|s| - 1] == '\n' then s[..|s| - 1] else s
  }

  // ----- the two tests -----

  const LINE_ENDS: set<char> := {'\n', '\r', '\U{2028}', '\U{2029}'}

  ghost predicate AnyIn(components: seq<string>, names: set<string>) {
    exists i :: 0 <= i < |components| && components[i] in names
  }

  ghost predicate IsEvalName(basename: string) {
    || basename in EVAL_BASENAMES
    || IsTestModule(basename, LINE_ENDS) || EndsWith(basename, "_test.py")
    || EndsAsSpec(basename)
  }

  ghost predicate IsProtectedEvalPath(filePath: string) {
    var normalized := StripSide(Slashes(filePath));
    || IsEvalName(Lower(Basename(normalized)))
    || AnyIn(Nonempty(Split(Lower(normalized))), EVAL_COMPONENTS)
  }

  ghost predicate IsWrapperName(basename: string) {
    || basename in WRAPPER_BASENAMES
    || IsTestModule(basename, {'\n'}) || IsTestModule(BeforeLastBreak(basename), {'\n'})
    || EndsWith(basename, "_test.py")
    || EndsAsSpec(basename) || EndsAsSpec(BeforeLastBreak(basename))
  }

  ghost predicate IsProtectedPath(candidate: string) {
    var components := Nonempty(Split(Lower(Slashes(candidate))));
    IsWrapperName(LastOr(components, "")) || AnyIn(components, WRAPPER_COMPONENTS)
  }

  // ----- components -----

  lemma {:induction false} TailIsLastPart(s: string)
    ensures Tail(s) == Split(s)[|Split(s)| - 1]
  {
    if s != "" { TailIsLastPart(s[..|s| - 1]); }
  }

  lemma NonemptySnoc(parts: seq<string>, p: string)
    ensures Nonempty(parts + [p]) == if p == "" then Nonempty(parts) else Nonempty(parts) + [p]
  {
    assert (parts + [p])[..|parts|] == parts;
  }

  /** The basename is the last nonempty component. */
  lemma {:induction false} BasenameIsLastComponent(s: string)
    ensures Basename(s) == LastOr(Nonempty(Split(s)), "")
  {
    if s == "" {
      NonemptySnoc([], "");
      assert [""] == [] + [""];
    } else if s[|s| - 1] == '/' {
      BasenameIsLastComponent(s[..|s| - 1]);
      NonemptySnoc(Split(s[..|s| - 1]), "");
    } else {
      TailIsLastPart(s);
      var rest := Split(s[..|s| - 1]);
      NonemptySnoc(rest[..|rest| - 1], rest[|rest| - 1] + [s[|s| - 1]]);
    }
  }

  lemma SplitSnoc(s: string, c: char)
    ensures Split(s + [c]) == if c == '/' then Split(s) + [""] else Extend(Split(s), c)
  {
    assert (s + [c])[..|s|] == s;
  }

  lemma ExtendConcat(a: seq<string>, b: seq<string>, c: char)
    requires b != []
    ensures Extend(a + b, c) == a + Extend(b, c)
  {
    assert (a + b)[..|a + b| - 1] == a + b[..|b| - 1];
  }

  lemma SplitLonger(t: string, front: seq<string>, f: string, c: char)
    requires Split(t) == front + Split(f)
    ensures Split(t + [c]) == front + Split(f + [c])
  {
    SplitSnoc(t, c);
    SplitSnoc(f, c);
    if c == '/' {
      Associative(front, Split(f), [""]);
    } else {
      ExtendConcat(front, Split(f), c);
    }
  }

  lemma {:induction false} SplitAtSlash(p: string, r: string)
    ensures Split(p + "/" + r) == Split(p) + Split(r)
  {
    if r == "" {
      SplitSnoc(p, '/');
      assert p + "/" + r == p + ['/'];
    } else {
      var f, c := r[..|r| - 1], r[|r| - 1];
      SplitAtSlash(p, f);
      SplitLonger(p + "/" + f, Split(p), f, c);
      assert p + "/" + f + [c] == p + "/" + r && f + [c] == r;
    }
  }

  lemma Associative(a: seq<string>, b: seq<string>, c: seq<string>)
    ensures a + b + c == a + (b + c)
  {
  }

  lemma {:induction false} NonemptyConcat(a: seq<string>, b: seq<string>)
    ensures Nonempty(a + b) == Nonempty(a) + Nonempty(b)
  {
    if b == [] {
      assert a + b == a;
    } else {
      var f, p := b[..|b| - 1], b[|b| - 1];
      NonemptyConcat(a, f);
      NonemptySnoc(a + f, p);
      NonemptySnoc(f, p);
      Associative(a, f, [p]);
      Associative(Nonempty(a), Nonempty(f), [p]);
      assert b == f + [p];
    }
  }

  function LowerAll(parts: seq<string>): (r: seq<string>)
    ensures |r| == |parts|
    ensures forall i :: 0 <= i < |parts| ==> r[i] == Lower(parts[i])
  {
    seq(|parts|, i requires 0 <= i < |parts| => Lower(parts[i]))
  }

  lemma LowerExtend(parts: seq<string>, c: char)
    requires parts != []
    ensures LowerAll(Extend(parts, c)) == Extend(LowerAll(parts), LowerChar(c))
  {
    var last := parts[|parts| - 1];
    assert Lower(last + [c]) == Lower(last) + [LowerChar(c)];
  }

  lemma LowerAllSnoc(parts: seq<string>)
    ensures LowerAll(parts + [""]) == LowerAll(parts) + [""]
  {
    assert Lower("") == "";
  }

  lemma LowerSnoc(f: string, c: char)
    ensures Lower(f + [c]) == Lower(f) + [LowerChar(c)] && (LowerChar(c) == '/' <==> c == '/')
  {
  }

  lemma SplitLowerStep(f: string, c: char)
    requires Split(Lower(f)) == LowerAll(Split(f))
    ensures Split(Lower(f + [c])) == LowerAll(Split(f + [c]))
  {
    SplitSnoc(f, c);
    SplitSnoc(Lower(f), LowerChar(c));
    LowerSnoc(f, c);
    if c == '/' {
      LowerAllSnoc(Split(f));
    } else {
      LowerExtend(Split(f), c);
    }
  }

  lemma {:induction false} SplitLower(s: string)
    ensures Split(Lower(s)) == LowerAll(Split(s))
  {
    assert Lower("") == "";
    if s == "" {
      assert LowerAll([""]) == [""];
    } else {
      var f, c := s[..|s| - 1], s[|s| - 1];
      SplitLower(f);
      SplitLowerStep(f, c);
      assert f + [c] == s;
    }
  }

  lemma {:induction false} NonemptyLower(parts: seq<string>)
    ensures Nonempty(LowerAll(parts)) == LowerAll(Nonempty(parts))
  {
    if parts == [] {
      assert LowerAll(parts) == [] && LowerAll(Nonempty(parts)) == [];
    } else {
      var n := |parts| - 1;
      NonemptyLower(parts[..n]);
      assert LowerAll(parts)[..n] == LowerAll(parts[..n]);
      assert parts[n] == "" <==> Lower(parts[n]) == "";
      if parts[n] != "" {
        assert LowerAll(Nonempty(parts[..n]) + [parts[n]]) == LowerAll(Nonempty(parts[..n])) + [Lower(parts[n])];
      }
    }
  }

  /** Lower-casing commutes with taking the basename. */
  lemma LowerBasename(s: string)
    ensures Lower(Basename(s)) == LastOr(Nonempty(Split(Lower(s))), "")
  {
    BasenameIsLastComponent(s);
    SplitLower(s);
    NonemptyLower(Split(s));
    assert Lower("") == "";
  }

  // ----- the side prefix does not matter -----

  function Parts(s: string): seq<string> {
    Nonempty(Split(Lower(s)))
  }

  lemma LetterIsNoName(c: string)
    requires |c| <= 1
    ensures c !in EVAL_COMPONENTS && !IsEvalName(c) && !IsWrapperName(c)
  {
    LongNames();
    forall w, m, e | w in SPEC_WORDS && m in MODULE_MARKS && e in SCRIPT_ENDINGS ensures |w + m + e| > 1 {}
  }

  lemma LongNames()
    ensures forall n :: n in EVAL_BASENAMES || n in WRAPPER_BASENAMES || n in EVAL_COMPONENTS ==> |n| > 1
  {
  }

  lemma StripDropsOneLetter(s: string)
    ensures Parts(s) == Parts(StripSide(s))
         || exists c: string :: |c| == 1 && Parts(s) == [c] + Parts(StripSide(s))
  {
    var t := StripSide(s);
    if s != t {
      var side := [LowerChar(s[0])];
      assert Lower(s) == side + "/" + Lower(t);
      SplitAtSlash(side, Lower(t));
      SplitSnoc("", side[0]);
      assert "" + side == side && Split(side) == [side];
      NonemptyConcat([side], Split(Lower(t)));
      NonemptySnoc([], side);
      assert [] + [side] == [side];
      assert Parts(s) == [side] + Parts(t);
    }
  }

  lemma SameNames()
    ensures EVAL_BASENAMES == WRAPPER_BASENAMES && EVAL_COMPONENTS == WRAPPER_COMPONENTS
  {
  }

  lemma OneMoreComponent(c: string, rest: seq<string>, names: set<string>)
    requires c !in names
    ensures AnyIn([c] + rest, names) <==> AnyIn(rest, names)
  {
    var parts := [c] + rest;
    forall i | 0 <= i < |rest| ensures parts[i + 1] == rest[i] {}
    forall i | 0 < i < |parts| ensures parts[i] == rest[i - 1] {}
  }

  lemma LetterDoesNotMatter(c: string, rest: seq<string>)
    requires |c| == 1
    ensures AnyIn([c] + rest, EVAL_COMPONENTS) <==> AnyIn(rest, EVAL_COMPONENTS)
    ensures IsEvalName(LastOr([c] + rest, "")) <==> IsEvalName(LastOr(rest, ""))
  {
    LetterIsNoName(c);
    LetterIsNoName("");
    OneMoreComponent(c, rest, EVAL_COMPONENTS);
    assert rest == [] ==> LastOr([c] + rest, "") == c;
    assert rest != [] ==> LastOr([c] + rest, "") == LastOr(rest, "");
  }

  /** Stripping `a/` or `b/` never changes the answer. */
  lemma EvalByName(path: string)
    ensures IsProtectedEvalPath(path)
       <==> IsEvalName(LastOr(Parts(Slashes(path)), "")) || AnyIn(Parts(Slashes(path)), EVAL_COMPONENTS)
  {
    var s := Slashes(path);
    var t := StripSide(s);
    LowerBasename(t);
    StripDropsOneLetter(s);
    if Parts(s) != Parts(t) {
      var c: string :| |c| == 1 && Parts(s) == [c] + Parts(t);
      LetterDoesNotMatter(c, Parts(t));
    }
  }

  // ----- where the two tests differ -----

  /** The names only the Python expressions accept: they let a line feed follow, and `.` take a carriage return. */
  ghost predicate IsPythonOnly(b: string) {
    || (b != "" && b[|b| - 1] == '\n' && (IsTestModule(b[..|b| - 1], {'\n'}) || EndsAsSpec(b[..|b| - 1])))
    || (IsTestModule(b, {'\n'}) && '\r' in b && !EndsWith(b, "_test.py"))
  }

  predicate IsAscii(s: string) {
    forall i :: 0 <= i < |s| ==> s[i] as int < 128
  }

  lemma SpecEnding(b: string)
    requires EndsAsSpec(b)
    ensures b != "" && (b[|b| - 1] == 's' || b[|b| - 1] == 'x')
  {
    var w, m, e :| w in SPEC_WORDS && m in MODULE_MARKS && e in SCRIPT_ENDINGS && EndsWith(b, w + m + e);
    var tail := w + m + e;
    assert tail[|tail| - 1] == e[|e| - 1];
    assert b[|b| - |tail|..][|tail| - 1] == b[|b| - 1];
  }

  lemma PyEnding(b: string, tail: string)
    requires EndsWith(b, tail) && tail != ""
    ensures b != "" && b[|b| - 1] == tail[|tail| - 1]
  {
    assert b[|b| - |tail|..][|tail| - 1] == b[|b| - 1];
  }

  lemma NamesHaveNoBreak(b: string)
    requires b in EVAL_BASENAMES
    ensures '\r' !in b && b != "" && b[|b| - 1] != '\n'
  {
  }

  lemma ExcludedReturn(b: string)
    requires IsAscii(b) && IsTestModule(b, {'\n'})
    ensures IsTestModule(b, LINE_ENDS) <==> '\r' !in b
  {
    assert forall i :: 0 <= i < 5 ==> b[i] == "test_"[i];
    assert forall i :: 0 <= i < 3 ==> b[|b| - 3 + i] == b[|b| - 3..][i] == ".py"[i];
    if '\r' in b {
      var i :| 0 <= i < |b| && b[i] == '\r';
      assert 5 <= i < |b| - 3;
    } else {
      forall i | 5 <= i < |b| - 3 ensures b[i] !in LINE_ENDS {
        assert b[i] as int < 128 && b[i] != '\n' && b[i] in b;
      }
    }
  }

  lemma EndsInBreak(b: string)
    requires b != "" && b[|b| - 1] == '\n'
    ensures !IsEvalName(b)
    ensures IsWrapperName(b) <==> IsPythonOnly(b)
  {
    SameNames();
    if b in EVAL_BASENAMES { NamesHaveNoBreak(b); }
    if EndsAsSpec(b) { SpecEnding(b); }
    if EndsWith(b, ".py") { PyEnding(b, ".py"); }
    if EndsWith(b, "_test.py") { PyEnding(b, "_test.py"); }
  }

  lemma NoFinalBreak(b: string)
    requires IsAscii(b) && !(b != "" && b[|b| - 1] == '\n')
    ensures IsWrapperName(b) <==> IsEvalName(b) || IsPythonOnly(b)
    ensures !(IsEvalName(b) && IsPythonOnly(b))
  {
    SameNames();
    if IsTestModule(b, {'\n'}) {
      ExcludedReturn(b);
      PyEnding(b, ".py");
      if EndsAsSpec(b) { SpecEnding(b); }
      if b in EVAL_BASENAMES { NamesHaveNoBreak(b); }
    }
    assert IsTestModule(b, LINE_ENDS) ==> IsTestModule(b, {'\n'});
  }

  lemma NamesDiffer(b: string)
    requires IsAscii(b)
    ensures IsEvalName(b) ==> IsWrapperName(b)
    ensures IsEvalName(b) == IsWrapperName(b) <==> !IsPythonOnly(b)
  {
    if b != "" && b[|b| - 1] == '\n' { EndsInBreak(b); } else { NoFinalBreak(b); }
  }

  lemma {:induction false} PartChars(s: string, i: nat, c: char)
    requires i < |Split(s)| && c in Split(s)[i]
    ensures c in s
  {
    if s != "" {
      var f := s[..|s| - 1];
      if i < |Split(f)| && c in Split(f)[i] { PartChars(f, i, c); }
    }
  }

  lemma {:induction false} NonemptyFrom(parts: seq<string>, i: nat)
    requires i < |Nonempty(parts)|
    ensures exists j :: 0 <= j < |parts| && parts[j] == Nonempty(parts)[i]
  {
    var n := |parts| - 1;
    if i < |Nonempty(parts[..n])| {
      NonemptyFrom(parts[..n], i);
      var j :| 0 <= j < n && parts[..n][j] == Nonempty(parts[..n])[i];
      assert parts[j] == Nonempty(parts)[i];
    }
  }

  lemma NameChars(s: string, c: char)
    requires c in LastOr(Parts(s), "")
    ensures exists i :: 0 <= i < |s| && c == LowerChar(s[i])
  {
    NonemptyFrom(Split(Lower(s)), |Parts(s)| - 1);
    var j :| 0 <= j < |Split(Lower(s))| && Split(Lower(s))[j] == LastOr(Parts(s), "");
    PartChars(Lower(s), j, c);
    var i :| 0 <= i < |Lower(s)| && Lower(s)[i] == c;
    assert c == LowerChar(s[i]);
  }

  lemma NameIsAscii(path: string)
    requires IsAscii(path)
    ensures IsAscii(LastOr(Parts(Slashes(path)), ""))
  {
    var b := LastOr(Parts(Slashes(path)), "");
    forall i | 0 <= i < |b| ensures b[i] as int < 128 {
      NameChars(Slashes(path), b[i]);
    }
  }

  /**
   On ASCII paths the TypeScript test never protects more than the Python one, and the two agree exactly
   if a whole component is protected or the last component is not one of the names with a line break in it.
   */
  lemma AgreeIff(path: string)
    requires IsAscii(path)
    ensures IsProtectedEvalPath(path) ==> IsProtectedPath(path)
    ensures IsProtectedEvalPath(path) == IsProtectedPath(path)
       <==> AnyIn(Parts(Slashes(path)), EVAL_COMPONENTS) || !IsPythonOnly(LastOr(Parts(Slashes(path)), ""))
  {
    EvalByName(path);
    SameNames();
    NameIsAscii(path);
    NamesDiffer(LastOr(Parts(Slashes(path)), ""));
  }

  lemma {:induction false} SplitWithoutSlash(s: string)
    requires '/' !in s
    ensures Split(s) == [s]
  {
    if s != "" {
      var f := s[..|s| - 1];
      SplitWithoutSlash(f);
      assert f + [s[|s| - 1]] == s;
    }
  }

  /** A lower-case name is its path's one component. */
  lemma OneName(name: string)
    requires name != "" && '/' !in name && Slashes(name) == name && Lower(name) == name
    ensures Parts(Slashes(name)) == [name]
  {
    SplitWithoutSlash(name);
    NonemptySnoc([], name);
    assert [] + [name] == [name];
  }

  lemma TestModuleThenBreak(name: string)
    requires |name| > 8 && "test_" <= name && EndsWith(name, ".py") && forall i :: 5 <= i < |name| - 3 ==> name[i] != '\n'
    ensures IsPythonOnly(name + "\n")
  {
    var b := name + "\n";
    assert b[..|b| - 1] == name && IsTestModule(name, {'\n'});
  }

  /** They do differ: a test module's name with a line feed after it is protected by the Python test alone. */
  lemma LineFeedTellsThemApart()
    ensures var path := "test_x.py" + "\n";
            IsAscii(path) && IsProtectedPath(path) && !IsProtectedEvalPath(path)
  {
    var path := "test_x.py" + "\n";
    assert Slashes(path) == path && Lower(path) == path;
    OneName(path);
    assert |path| == 10 && path[0] == 't';
    assert path !in EVAL_COMPONENTS;
    TestModuleThenBreak("test_x.py");
    AgreeIff(path);
  }

  /** Without line breaks the two tests always agree. */
  lemma AgreeOnOneLine(path: string)
    requires IsAscii(path) && '\n' !in path && '\r' !in path
    ensures IsProtectedEvalPath(path) == IsProtectedPath(path)
  {
    AgreeIff(path);
    var b := LastOr(Parts(Slashes(path)), "");
    forall c | c in b ensures c != '\n' && c != '\r' {
      NameChars(Slashes(path), c);
    }
    if b != "" { assert b[|b| - 1] in b; }
  }

  // ----- what is protected, by name -----

  /** How the names of test scripts end. */
  const TEST_ENDINGS: set<string> := {
    ".spec.js", ".spec.jsx", ".spec.ts", ".spec.tsx", ".spec.cjs", ".spec.cjsx", ".spec.cts", ".spec.ctsx",
    ".spec.mjs", ".spec.mjsx", ".spec.mts", ".spec.mtsx",
    ".test.js", ".test.jsx", ".test.ts", ".test.tsx", ".test.cjs", ".test.cjsx", ".test.cts", ".test.ctsx",
    ".test.mjs", ".test.mjsx", ".test.mts", ".test.mtsx"}

  lemma SpecEndings(w: string, m: string, e: string)
    requires w in SPEC_WORDS && m in MODULE_MARKS && e in SCRIPT_ENDINGS
    ensures w + m + e in TEST_ENDINGS
  {
    assert m == "" || m == "c" || m == "m";
    if w == ".spec." {
      if m == "" { Unmarked(".spec.", e); } else { Marked(".spec.", m, e); }
    } else {
      if m == "" { Unmarked(".test.", e); } else { Marked(".test.", m, e); }
    }
  }

  lemma Unmarked(w: string, e: string)
    requires w in {".spec.", ".test."} && e in SCRIPT_ENDINGS
    ensures w + "" + e in TEST_ENDINGS
  {
    assert w + "" + e == w + e;
    assert e == "js" || e == "jsx" || e == "ts" || e == "tsx";
    if w == ".spec." {
      assert w + e == ".spec.js" || w + e == ".spec.jsx" || w + e == ".spec.ts" || w + e == ".spec.tsx";
    } else {
      assert w + e == ".test.js" || w + e == ".test.jsx" || w + e == ".test.ts" || w + e == ".test.tsx";
    }
  }

  lemma Marked(w: string, m: string, e: string)
    requires w in {".spec.", ".test."} && m in {"c", "m"} && e in SCRIPT_ENDINGS
    ensures w + m + e in TEST_ENDINGS
  {
    var marked := m + e;
    assert w + m + e == w + marked;
    assert e == "js" || e == "jsx" || e == "ts" || e == "tsx";
    if m == "c" {
      assert marked == "cjs" || marked == "cjsx" || marked == "cts" || marked == "ctsx";
    } else {
      assert marked == "mjs" || marked == "mjsx" || marked == "mts" || marked == "mtsx";
    }
    MarkedEnding(w, marked);
  }

  lemma MarkedEnding(w: string, marked: string)
    requires w in {".spec.", ".test."} && marked in {"cjs", "cjsx", "cts", "ctsx", "mjs", "mjsx", "mts", "mtsx"}
    ensures w + marked in TEST_ENDINGS
  {
    var ending := w + marked;
    if w == ".spec." {
      assert ending == ".spec.cjs" || ending == ".spec.cjsx" || ending == ".spec.cts" || ending == ".spec.ctsx"
          || ending == ".spec.mjs" || ending == ".spec.mjsx" || ending == ".spec.mts" || ending == ".spec.mtsx";
    } else {
      assert ending == ".test.cjs" || ending == ".test.cjsx" || ending == ".test.cts" || ending == ".test.ctsx"
          || ending == ".test.mjs" || ending == ".test.mjsx" || ending == ".test.mts" || ending == ".test.mtsx";
    }
  }

  lemma PartsOf(ending: string, w: string, m: string, e: string)
    requires w in SPEC_WORDS && m in MODULE_MARKS && e in SCRIPT_ENDINGS && ending == w + m + e
    ensures HasParts(ending)
  {
  }

  ghost predicate HasParts(ending: string) {
    exists w, m, e :: w in SPEC_WORDS && m in MODULE_MARKS && e in SCRIPT_ENDINGS && ending == w + m + e
  }

  lemma EndingHasParts(ending: string)
    requires ending in TEST_ENDINGS
    ensures HasParts(ending)
  {
    var w := ending[..6];
    var m := if ending[6] == 'c' || ending[6] == 'm' then [ending[6]] else "";
    var e := ending[6 + |m|..];
    assert SPEC_WORDS[0] == ".spec." && SPEC_WORDS[1] == ".test.";
    assert MODULE_MARKS[0] == "" && MODULE_MARKS[1] == "c" && MODULE_MARKS[2] == "m";
    assert SCRIPT_ENDINGS[0] == "js" && SCRIPT_ENDINGS[1] == "jsx" && SCRIPT_ENDINGS[2] == "ts" && SCRIPT_ENDINGS[3] == "tsx";
    assert w == ".spec." || w == ".test.";
    assert e == "js" || e == "jsx" || e == "ts" || e == "tsx";
    assert ending == w + m + e;
    PartsOf(ending, w, m, e);
  }

  /** A name is that of a test script exactly if it has one of these endings. */
  lemma TestScriptIff(name: string)
    ensures EndsAsSpec(name) <==> exists ending :: ending in TEST_ENDINGS && EndsWith(name, ending)
  {
    if w, m, e :| w in SPEC_WORDS && m in MODULE_MARKS && e in SCRIPT_ENDINGS && EndsWith(name, w + m + e) {
      SpecEndings(w, m, e);
    }
    if ending :| ending in TEST_ENDINGS && EndsWith(name, ending) {
      EndingHasParts(ending);
    }
  }

  /** Names that make a file protected wherever it is. */
  const PROTECTED_NAMES: set<string> := {
    "conftest.py", "pytest.ini", "tox.ini", "setup.cfg", "pyproject.toml", "noxfile.py", ".coveragerc",
    "jest.config.js", "jest.config.cjs", "jest.config.mjs", "jest.config.ts",
    "vitest.config.js", "vitest.config.mjs", "vitest.config.ts"}

  /** Directories, or files, that protect all below them. */
  const PROTECTED_PARTS: set<string> := {"test", "tests", "testing", "__tests__", "integration_tests"}

  lemma NamesAre()
    ensures EVAL_BASENAMES == PROTECTED_NAMES && EVAL_COMPONENTS == PROTECTED_PARTS
  {
  }

  /** The name of a Python test module: `test_`, something without a line end, and `.py`. */
  ghost predicate IsTestModuleName(name: string) {
    exists stem: string :: stem != "" && name == "test_" + stem + ".py" && forall c <- stem :: c !in LINE_ENDS
  }

  lemma TestModuleIff(name: string)
    ensures IsTestModule(name, LINE_ENDS) <==> IsTestModuleName(name)
  {
    if IsTestModule(name, LINE_ENDS) {
      var stem := name[5..|name| - 3];
      assert name == "test_" + stem + ".py";
      forall c | c in stem ensures c !in LINE_ENDS {
        var i :| 0 <= i < |stem| && stem[i] == c;
        assert name[i + 5] == c;
      }
    }
    if stem: string :| stem != "" && name == "test_" + stem + ".py" && forall c <- stem :: c !in LINE_ENDS {
      assert name[|name| - 3..] == ".py" && name[..5] == "test_";
      forall i | 5 <= i < |name| - 3 ensures name[i] !in LINE_ENDS { assert name[i] == stem[i - 5] && stem[i - 5] in stem; }
    }
  }

  /**
   Which paths are protected, by their lower-cased components: one that is a test directory, or a last one
   that is a protected name, a Python test module, or a test script.
   */
  lemma ProtectsIff(path: string)
    ensures var parts := Parts(Slashes(path));
            var name := LastOr(parts, "");
            IsProtectedEvalPath(path) <==>
              || (exists i :: 0 <= i < |parts| && parts[i] in PROTECTED_PARTS)
              || name in PROTECTED_NAMES
              || IsTestModuleName(name) || EndsWith(name, "_test.py")
              || (exists ending :: ending in TEST_ENDINGS && EndsWith(name, ending))
  {
    EvalByName(path);
    NamesAre();
    TestModuleIff(LastOr(Parts(Slashes(path)), ""));
    TestScriptIff(LastOr(Parts(Slashes(path)), ""));
  }
}
