/**
 * The language catalogue (`get_language`) and the comment profile of each
 * language (`get_language_config`).
 */
module Languages {
  import opened Text

  datatype Language =
    | C | Cpp | Header | Python | Rust | Java | Javascript | Go | Html
    | Makefile | Unknown | Assembly | Text | Markdown

  // ---------------------------------------------------------------------
  // Paths: the parts of `std::path::Path` that `get_language` uses.
  // ---------------------------------------------------------------------

  /** The text after the last `/` of `s` (all of `s` when it has none). */
  function LastSegment(s: string): (c: string)
    ensures |c| <= |s| && c == s[|s| - |c|..]
    ensures '/' !in c
    ensures |c| < |s| ==> s[|s| - |c| - 1] == '/'
    decreases |s|
  {
    if s == [] || s[|s| - 1] == '/' then []
    else LastSegment(s[..|s| - 1]) + [s[|s| - 1]]
  }

  /**
   * `Path::file_name`: the last component of the path, where empty
   * components (repeated or trailing `/`) and `.` components are not
   * components at all; there is none when nothing is left or when the last
   * component is `..`.
   */
  function FileName(path: string): (r: Option<string>)
    ensures r.Some? ==> r.value != [] && '/' !in r.value && r.value != "." && r.value != ".."
    decreases |path|
  {
    var c := LastSegment(path);
    var rest := path[..|path| - |c|];
    if c == [] || c == "." then
      if rest == [] then None else FileName(rest[..|rest| - 1])
    else if c == ".." then None
    else Some(c)
  }

  /** The index of the last `.` in `s`. */
  function LastDot(s: string): (r: Option<nat>)
    ensures r.Some? ==> r.value < |s| && s[r.value] == '.' && '.' !in s[r.value + 1..]
    ensures r.None? ==> '.' !in s
    decreases |s|
  {
    if s == [] then None
    else if s[|s| - 1] == '.' then Some(|s| - 1)
    else
      var r := LastDot(s[..|s| - 1]);
      assert r.Some? ==> s[r.value + 1..] == s[..|s| - 1][r.value + 1..] + [s[|s| - 1]];
      r
  }

  /**
   * `Path::extension` of a file name: the text after its last `.`; none
   * when it has no `.`, or when its only `.` is the leading one.
   */
  function Extension(name: string): (r: Option<string>)
    ensures r.Some? ==> |r.value| < |name| && r.value == name[|name| - |r.value|..]
    ensures r.Some? ==> '.' !in r.value
    ensures r.Some? ==> name[|name| - |r.value| - 1] == '.'
    ensures r.None? <==> name == ".." || '.' !in name || LastDot(name) == Some(0)
  {
    if name == ".." then None
    else match LastDot(name)
      case None => None
      case Some(i) => if i == 0 then None else Some(name[i + 1..])
  }

  /** ASCII lower-casing (`to_lowercase` on ASCII text). */
  function ToLower(s: string): (r: string)
    ensures |r| == |s|
  {
    seq(|s|, i requires 0 <= i < |s| =>
      if 'A' <= s[i] <= 'Z' then (s[i] as int + 32) as char else s[i])
  }

  lemma ToLowerSuffix(s: string, k: nat)
    requires k <= |s|
    ensures ToLower(s[k..]) == ToLower(s)[k..]
  {
  }

  // ---------------------------------------------------------------------
  // get_language
  // ---------------------------------------------------------------------

  /** The fixed table from a lower-cased extension (or file name) to a language. */
  function LanguageOfKey(key: string): (l: Language)
    ensures l != Unknown ==> key in KeysOf(l)
  {
    match key
    case "c" => C
    case "cpp" | "cc" => Cpp
    case "h" | "hh" | "hpp" => Header
    case "py" => Python
    case "rs" => Rust
    case "java" => Java
    case "js" => Javascript
    case "go" => Go
    case "html" => Html
    case "makefile" => Makefile
    case "s" | "asm" => Assembly
    case "txt" => Text
    case "md" => Markdown
    case _ => Unknown
  }

  /** The same table read the other way: the keys that select each language. */
  function KeysOf(l: Language): set<string> {
    match l
    case C => {"c"}
    case Cpp => {"cpp", "cc"}
    case Header => {"h", "hh", "hpp"}
    case Python => {"py"}
    case Rust => {"rs"}
    case Java => {"java"}
    case Javascript => {"js"}
    case Go => {"go"}
    case Html => {"html"}
    case Makefile => {"makefile"}
    case Assembly => {"s", "asm"}
    case Text => {"txt"}
    case Markdown => {"md"}
    case Unknown => {}
  }

  /** The table maps a key to a known language exactly when the key is listed for it. */
  lemma LanguageOfKeyInverse(key: string, l: Language)
    requires l != Unknown
    ensures LanguageOfKey(key) == l <==> key in KeysOf(l)
  {
  }

  /** The key `get_language` looks up for a file name. */
  function LookupKey(name: string): string {
    var lower := ToLower(name);
    if Contains(lower, "makefile") then "makefile"
    else match Extension(name)
      case Some(ext) => ToLower(ext)
      case None => lower
  }

  /**
   * `get_language(filepath)`. A path without a file name makes the source
   * panic (`expect("no filename")`), so having one is required.
   */
  function GetLanguage(path: string): (r: Language)
    requires FileName(path).Some?
    ensures var name := FileName(path).value;
      (r == Makefile <==> Contains(ToLower(name), "makefile"))
      && (!Contains(ToLower(name), "makefile") && Extension(name).Some? ==>
            r == LanguageOfKey(ToLower(Extension(name).value)))
      && (!Contains(ToLower(name), "makefile") && Extension(name).None? ==>
            r == LanguageOfKey(ToLower(name)))
  {
    var name := FileName(path).value;
    var r := LanguageOfKey(LookupKey(name));
    MakefileOnlyByName(name);
    r
  }

  /**
   * The only key that selects `Makefile` is "makefile", and an extension
   * equal to it means the file name contains it: so a file is a Makefile
   * exactly when its lower-cased name contains "makefile".
   */
  lemma MakefileOnlyByName(name: string)
    ensures LanguageOfKey(LookupKey(name)) == Makefile <==> Contains(ToLower(name), "makefile")
  {
    var lower := ToLower(name);
    if !Contains(lower, "makefile") {
      LanguageOfKeyInverse(LookupKey(name), Makefile);
      match Extension(name)
      case None =>
        assert !OccursAt(lower, "makefile", 0);
      case Some(ext) =>
        var k := |name| - |ext|;
        ToLowerSuffix(name, k);
        assert !OccursAt(lower, "makefile", k);
    }
  }

  lemma {:induction false} LastSegmentOfName(s: string)
    requires '/' !in s
    ensures LastSegment(s) == s
    decreases |s|
  {
    if s != [] {
      LastSegmentOfName(s[..|s| - 1]);
    }
  }

  /** The file name of `dir + name`, where `dir` is empty or ends in `/`. */
  lemma FileNameOf(dir: string, name: string)
    requires dir == [] || dir[|dir| - 1] == '/'
    requires name != [] && '/' !in name && name != "." && name != ".."
    ensures FileName(dir + name) == Some(name)
  {
    var p := dir + name;
    LastSegmentOfName(name);
    if dir == [] {
      assert p == name;
    } else {
      assert LastSegment(p) == LastSegment(p[..|p| - 1]) + [p[|p| - 1]];
      LastSegmentAppend(dir, name);
    }
  }

  /**
   * Trailing components that are not names: a trailing `/` and a trailing
   * `.` component leave the file name as it was, and a trailing `..`
   * component leaves none.
   */
  lemma FileNameSkipsTrailing(p: string)
    ensures FileName(p + "/") == FileName(p)
    ensures FileName(p + "/.") == FileName(p)
    ensures FileName(p + "/..") == None
  {
    SlashSkipped(p);
    DotSkipped(p);
    DotDotEnds(p);
  }

  lemma SlashSkipped(p: string)
    ensures FileName(p + "/") == FileName(p)
  {
    var q := p + "/";
    assert q[..|q| - 1] == p;
    EmptyLastComponent(q);
  }

  /** A path ending in `/` has the file name of the path without it. */
  lemma EmptyLastComponent(q: string)
    requires q != [] && q[|q| - 1] == '/'
    ensures FileName(q) == FileName(q[..|q| - 1])
  {
    assert LastSegment(q) == [];
    assert q[..|q| - |LastSegment(q)|] == q;
  }

  lemma DotSkipped(p: string)
    ensures FileName(p + "/.") == FileName(p)
  {
    var q, d := p + "/", p + "/.";
    assert d[..|d| - 1] == q;
    assert LastSegment(q) == [];
    assert LastSegment(d) == ".";
    SlashSkipped(p);
  }

  lemma DotDotEnds(p: string)
    ensures FileName(p + "/..") == None
  {
    var q, d, dd := p + "/", p + "/.", p + "/..";
    assert d[..|d| - 1] == q && dd[..|dd| - 1] == d;
    assert LastSegment(q) == [];
    assert LastSegment(d) == ".";
    assert LastSegment(dd) == "..";
  }

  lemma {:induction false} LastSegmentAppend(dir: string, name: string)
    requires dir != [] && dir[|dir| - 1] == '/' && '/' !in name
    ensures LastSegment(dir + name) == name
    decreases |name|
  {
    if name == [] {
      assert dir + name == dir;
    } else {
      var p := dir + name;
      assert p[..|p| - 1] == dir + name[..|name| - 1];
      LastSegmentAppend(dir, name[..|name| - 1]);
    }
  }

  /** The extension of `base + "." + ext`, when `ext` has no dot and `base` is not empty. */
  lemma ExtensionOf(base: string, ext: string)
    requires base != [] && '.' !in ext && base + "." + ext != ".."
    ensures Extension(base + "." + ext) == Some(ext)
  {
    var name := base + "." + ext;
    LastDotAppend(base + ".", ext);
    assert name[|base| + 1..] == ext;
  }

  lemma {:induction false} LastDotAppend(s: string, t: string)
    requires s != [] && s[|s| - 1] == '.' && '.' !in t
    ensures LastDot(s + t) == Some(|s| - 1)
    decreases |t|
  {
    if t == [] {
      assert s + t == s;
    } else {
      var p := s + t;
      assert p[..|p| - 1] == s + t[..|t| - 1];
      LastDotAppend(s, t[..|t| - 1]);
    }
  }

  /** The language of a path whose file name has an extension and no "makefile". */
  lemma ByExtension(path: string, name: string, ext: string)
    requires FileName(path) == Some(name) && Extension(name) == Some(ext)
    requires !Contains(ToLower(name), "makefile")
    ensures GetLanguage(path) == LanguageOfKey(ToLower(ext))
  {
  }

  /** The language of a path whose file name has no extension and no "makefile". */
  lemma ByName(path: string, name: string)
    requires FileName(path) == Some(name) && Extension(name) == None
    requires !Contains(ToLower(name), "makefile")
    ensures GetLanguage(path) == LanguageOfKey(ToLower(name))
  {
  }

  lemma ShortNameNoMakefile(name: string)
    requires |name| < 8
    ensures !Contains(ToLower(name), "makefile")
  {
  }

  /** The language of a path whose file name contains "makefile". */
  lemma ByMakefile(path: string, name: string)
    requires FileName(path) == Some(name) && Contains(ToLower(name), "makefile")
    ensures GetLanguage(path) == Makefile
  {
  }

  // Worked examples. Each fact about a literal path is its own small lemma.

  lemma MakefileExample()
    ensures FileName("Makefile") == Some("Makefile") && GetLanguage("Makefile") == Makefile
  {
    MakefileName();
    MakefileContains();
    ByMakefile("Makefile", "Makefile");
  }

  lemma MakefileName()
    ensures FileName("Makefile") == Some("Makefile")
  {
    FileNameOf("", "Makefile");
  }

  lemma MakefileContains()
    ensures Contains(ToLower("Makefile"), "makefile")
  {
    assert OccursAt(ToLower("Makefile"), "makefile", 0);
  }

  lemma GoExample()
    ensures FileName("src/main.go") == Some("main.go") && GetLanguage("src/main.go") == Go
  {
    GoName();
    GoExtension();
    ShortNameNoMakefile("main.go");
    GoKey();
    ByExtension("src/main.go", "main.go", "go");
  }

  lemma GoName()
    ensures FileName("src/main.go") == Some("main.go")
  {
    assert "src/main.go" == "src/" + "main.go";
    FileNameOf("src/", "main.go");
  }

  lemma GoExtension()
    ensures Extension("main.go") == Some("go")
  {
    assert "main.go" == "main" + "." + "go";
    ExtensionOf("main", "go");
  }

  lemma GoKey()
    ensures LanguageOfKey(ToLower("go")) == Go
  {
    assert ToLower("go") == "go";
  }

  lemma MarkdownExample()
    ensures FileName("README.md") == Some("README.md") && GetLanguage("README.md") == Markdown
  {
    MarkdownName();
    MarkdownExtension();
    MarkdownNoMakefile();
    MarkdownKey();
    ByExtension("README.md", "README.md", "md");
  }

  lemma MarkdownName()
    ensures FileName("README.md") == Some("README.md")
  {
    FileNameOf("", "README.md");
  }

  lemma MarkdownExtension()
    ensures Extension("README.md") == Some("md")
  {
    assert "README.md" == "README" + "." + "md";
    ExtensionOf("README", "md");
  }

  lemma MarkdownNoMakefile()
    ensures !Contains(ToLower("README.md"), "makefile")
  {
    NoKNoMakefile("README.md");
  }

  lemma MarkdownKey()
    ensures LanguageOfKey(ToLower("md")) == Markdown
  {
    assert ToLower("md") == "md";
  }

  /** A name with no letter k, in either case, never contains "makefile". */
  lemma NoKNoMakefile(name: string)
    requires 'k' !in name && 'K' !in name
    ensures !Contains(ToLower(name), "makefile")
  {
    var lower := ToLower(name);
    forall i | 0 <= i <= |lower|
      ensures !OccursAt(lower, "makefile", i)
    {
      if i + 8 <= |lower| {
        assert name[i + 2] != 'k' && name[i + 2] != 'K';
        assert lower[i..i + 8][2] == lower[i + 2] != 'k';
      }
    }
  }

  /** "makefile" anywhere in the name wins over the extension. */
  lemma MakefileOverridesExtension()
    ensures FileName("GNUmakefile.py") == Some("GNUmakefile.py") && GetLanguage("GNUmakefile.py") == Makefile
  {
    GnuMakefileName();
    GnuMakefileOccurrence(ToLower("GNUmakefile.py"));
    ByMakefile("GNUmakefile.py", "GNUmakefile.py");
  }

  lemma GnuMakefileName()
    ensures FileName("GNUmakefile.py") == Some("GNUmakefile.py")
  {
    FileNameOf("", "GNUmakefile.py");
  }

  lemma GnuMakefileOccurrence(lower: string)
    requires lower == ToLower("GNUmakefile.py")
    ensures Contains(lower, "makefile")
  {
    assert OccursAt(lower, "makefile", 3);
  }

  /** Extensions are compared lower-cased. */
  lemma UpperCaseExtension()
    ensures FileName("lib/Foo.CPP") == Some("Foo.CPP") && GetLanguage("lib/Foo.CPP") == Cpp
  {
    UpperCaseName();
    UpperCaseExt();
    ShortNameNoMakefile("Foo.CPP");
    UpperCaseKey();
    ByExtension("lib/Foo.CPP", "Foo.CPP", "CPP");
  }

  lemma UpperCaseName()
    ensures FileName("lib/Foo.CPP") == Some("Foo.CPP")
  {
    assert "lib/Foo.CPP" == "lib/" + "Foo.CPP";
    FileNameOf("lib/", "Foo.CPP");
  }

  lemma UpperCaseExt()
    ensures Extension("Foo.CPP") == Some("CPP")
  {
    assert "Foo.CPP" == "Foo" + "." + "CPP";
    ExtensionOf("Foo", "CPP");
  }

  lemma UpperCaseKey()
    ensures LanguageOfKey(ToLower("CPP")) == Cpp
  {
    assert ToLower("CPP") == "cpp";
  }

  /** Without an extension the whole name is the key: a file called "c" is C. */
  lemma NameAsKey()
    ensures FileName("c") == Some("c") && GetLanguage("c") == C
  {
    FileNameOf("", "c");
    NoDotC();
    ShortNameNoMakefile("c");
    CKey();
    ByName("c", "c");
  }

  lemma NoDotC()
    ensures Extension("c") == None
  {
    assert LastDot("c") == None;
  }

  lemma CKey()
    ensures LanguageOfKey(ToLower("c")) == C
  {
    assert ToLower("c") == "c";
  }

  /** A leading dot does not start an extension: ".c" is looked up as ".c". */
  lemma LeadingDotIsNoExtension()
    ensures FileName(".c") == Some(".c") && GetLanguage(".c") == Unknown
  {
    FileNameOf("", ".c");
    LeadingDotC();
    ShortNameNoMakefile(".c");
    DotCKey();
    ByName(".c", ".c");
  }

  lemma LeadingDotC()
    ensures Extension(".c") == None
  {
    assert LastDot(".c") == Some(0);
  }

  lemma DotCKey()
    ensures LanguageOfKey(ToLower(".c")) == Unknown
  {
    assert ToLower(".c") == ".c";
  }

  // ---------------------------------------------------------------------
  // get_language_config
  // ---------------------------------------------------------------------

  /** A block-comment delimiter pair. */
  datatype Delimiters = Delimiters(start: seq<byte>, end: seq<byte>)

  /**
   * `LineConfig`: one optional line marker and one optional delimiter pair
   * (`Normal`), or lists of each (`Everything`).
   */
  datatype LineConfig =
    | Normal(single: Option<seq<byte>>, multi: Option<Delimiters>)
    | Everything(singles: seq<seq<byte>>, multis: seq<Delimiters>)

  predicate NonEmpty(d: Delimiters) {
    |d.start| > 0 && |d.end| > 0
  }

  /** Markers and delimiters are non-empty: the cursor scan needs that to advance. */
  predicate WellFormed(single: Option<seq<byte>>, multi: Option<Delimiters>) {
    (single.Some? ==> |single.value| > 0) && (multi.Some? ==> NonEmpty(multi.value))
  }

  // The markers and delimiters, as the bytes of their ASCII text.
  const SlashSlash: seq<byte> := [0x2F, 0x2F]             // "//"
  const Hash: seq<byte> := [0x23]                         // "#"
  const SlashStar: seq<byte> := [0x2F, 0x2A]              // "/*"
  const StarSlash: seq<byte> := [0x2A, 0x2F]              // "*/"
  const TripleQuote: seq<byte> := [0x27, 0x27, 0x27]      // "'''"
  const HtmlOpen: seq<byte> := [0x3C, 0x21, 0x2D, 0x2D]   // "<!--"
  const HtmlClose: seq<byte> := [0x2D, 0x2D, 0x3E]        // "-->"

  /** `get_language_config(language)`. */
  function GetLanguageConfig(language: Language): (r: LineConfig)
    ensures r.Normal? && WellFormed(r.single, r.multi)
    ensures r.multi.Some? && r.multi.value.start == r.multi.value.end <==> language == Python
    ensures r.multi.None? <==> language in {Makefile, Text, Markdown, Unknown}
    ensures r.single.None? <==> language in {Html, Text, Markdown, Unknown}
  {
    var cStyle := Normal(Some(SlashSlash), Some(Delimiters(SlashStar, StarSlash)));
    var htmlStyle := Normal(None, Some(Delimiters(HtmlOpen, HtmlClose)));
    var noComments := Normal(None, None);
    var shStyle := Normal(Some(Hash), None);
    match language
    case C | Cpp | Rust | Java | Go | Javascript | Header => cStyle
    case Assembly => Normal(Some(Hash), Some(Delimiters(SlashStar, StarSlash)))
    case Python => Normal(Some(Hash), Some(Delimiters(TripleQuote, TripleQuote)))
    case Text | Markdown | Unknown => noComments
    case Makefile => shStyle
    case Html => htmlStyle
  }
}
