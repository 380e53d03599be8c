/** The `utils/i18n.ts` the project scaffolder writes for the languages
    chosen at its prompt, and the properties of its lines. */
module GeneratedI18n {
  import opened Text
  import opened Seqs

  /** The five languages offered by the prompt, in prompt order. */
  const AllLangs: seq<string> := ["ua", "en", "pl", "de", "es"]

  /** The prompt's answer: at least one language (`min: 1`), each one of the
      offered choices and none twice. */
  predicate ValidSelection(sel: seq<string>) {
    && |sel| >= 1
    && (forall k :: 0 <= k < |sel| ==> sel[k] in AllLangs)
    && (forall i, j :: 0 <= i < j < |sel| ==> sel[i] != sel[j])
  }

  lemma OfferedLanguage(l: string)
    requires l in AllLangs
    ensures NoNewline(l) && |l| == 2
  {
  }

  // ---------------------------------------------------------------------------
  // The generated utils/i18n.ts

  function ImportLine(l: string): string {
    "import " + l + " from '../i18n/" + l + ".json';"
  }

  function ImportLines(sel: seq<string>): seq<string> {
    seq(|sel|, k requires 0 <= k < |sel| => ImportLine(sel[k]))
  }

  /** `imports`: one import per selected language. */
  function Imports(sel: seq<string>): string {
    Join(ImportLines(sel), "\n")
  }

  /** `translations`: an object literal naming every selected language. */
  function Translations(sel: seq<string>): string {
    "const translations = {\n  " + Join(sel, ",\n  ") + ",\n};"
  }

  function Quoted(sel: seq<string>): seq<string> {
    seq(|sel|, k requires 0 <= k < |sel| => "'" + sel[k] + "'")
  }

  /** `languagesExport`: the selected languages, quoted, in order. */
  function LanguagesExport(sel: seq<string>): string {
    "export const LANGUAGES: Language[] = [" + Join(Quoted(sel), ", ") + "];"
  }

  /** `defaultLangExport`: the first selected language (`undefined` is
      interpolated as its name when there is none). */
  function DefaultLangExport(sel: seq<string>): string {
    "export const DEFAULT_LANG: Language = '" + (if |sel| == 0 then "undefined" else sel[0]) + "';"
  }

  const TypeLine := "export type Language = " + "keyof typeof translations;"

  /** The fixed `getI18n` function of the generated module, line by line. */
  const GetI18nLines: seq<string> := [
    "export function getI18n(" + "lang: string | undefined) {",
    "  const currentLang = " + "(lang && LANGUAGES.includes(" + "lang as Language))"
      + " ? (lang as Language) : DEFAULT_LANG;",
    "  ",
    "  return {",
    "    lang: currentLang,",
    "    t: translations[currentLang],",
    "  };",
    "}"
  ]

  /** `newI18nUtilContent` before trimming. */
  function I18nTemplate(sel: seq<string>): string {
    "\n" + Imports(sel) + "\n\n" + Translations(sel) + "\n\n"
    + TypeLine + "\n" + LanguagesExport(sel) + "\n" + DefaultLangExport(sel) + "\n\n"
    + Join(GetI18nLines, "\n") + "\n    "
  }

  /** What is written to `utils/i18n.ts`. */
  function I18nSource(sel: seq<string>): string {
    Trim(I18nTemplate(sel))
  }

  function TranslationLines(sel: seq<string>): seq<string> {
    seq(|sel|, k requires 0 <= k < |sel| => "  " + sel[k] + ",")
  }

  function TranslationBlock(sel: seq<string>): seq<string> {
    ["const translations = {"] + TranslationLines(sel) + ["};"]
  }

  function ExportBlock(sel: seq<string>): seq<string> {
    [TypeLine, LanguagesExport(sel), DefaultLangExport(sel)]
  }

  /** The lines the generated module is meant to have. */
  function ExpectedLines(sel: seq<string>): seq<string> {
    ImportLines(sel) + [""] + TranslationBlock(sel) + [""] + ExportBlock(sel) + [""] + GetI18nLines
  }

  lemma TranslationsAsLines(sel: seq<string>)
    requires |sel| >= 1
    ensures Translations(sel) == Join(TranslationBlock(sel), "\n")
  {
    JoinWrapped(sel, "  ", ",", "\n");
    assert "," + "\n" + "  " == ",\n  ";
    assert TranslationLines(sel) == seq(|sel|, k requires 0 <= k < |sel| => "  " + sel[k] + ",");
    var body := Join(TranslationLines(sel), "\n");
    assert body == "  " + Join(sel, ",\n  ") + ",";
    JoinAppend(["const translations = {"], TranslationLines(sel), "\n");
    JoinAppend(["const translations = {"] + TranslationLines(sel), ["};"], "\n");
    OpenBodyClose("const translations = {", "  " + Join(sel, ",\n  ") + ",", "};",
      "  ", Join(sel, ",\n  "), ",");
  }

  lemma OpenBodyClose(open: string, body: string, close: string, pre: string, mid: string, post: string)
    requires body == pre + mid + post
    ensures open + "\n" + body + "\n" + close == open + ("\n" + pre) + mid + (post + "\n") + close
  {
  }

  /** Seven pieces joined by the template's separators. */
  lemma Pieces(a: string, t: string, ty: string, l: string, d: string, g: string)
    ensures "\n" + a + "\n\n" + t + "\n\n" + ty + "\n" + l + "\n" + d + "\n\n" + g + "\n    "
      == "\n" + (a + "\n" + "" + "\n" + t + "\n" + "" + "\n" + (ty + "\n" + l + "\n" + d) + "\n" + "" + "\n" + g) + "\n    "
  {
  }

  /** Joining blocks separated by blank lines. */
  lemma {:induction false} JoinBlocks(a: seq<string>, t: seq<string>, m: seq<string>, g: seq<string>)
    requires |a| >= 1 && |t| >= 1 && |m| >= 1 && |g| >= 1
    ensures Join(a + [""] + t + [""] + m + [""] + g, "\n")
      == Join(a, "\n") + "\n" + "" + "\n" + Join(t, "\n") + "\n" + "" + "\n" + Join(m, "\n") + "\n" + "" + "\n" + Join(g, "\n")
  {
    JoinAppend(a, [""], "\n");
    JoinAppend(a + [""], t, "\n");
    JoinAppend(a + [""] + t, [""], "\n");
    JoinAppend(a + [""] + t + [""], m, "\n");
    JoinAppend(a + [""] + t + [""] + m, [""], "\n");
    JoinAppend(a + [""] + t + [""] + m + [""], g, "\n");
  }

  lemma TemplateAsLines(sel: seq<string>)
    requires |sel| >= 1
    ensures I18nTemplate(sel) == "\n" + Join(ExpectedLines(sel), "\n") + "\n    "
  {
    var a, t, m, g := ImportLines(sel), TranslationBlock(sel), ExportBlock(sel), GetI18nLines;
    TranslationsAsLines(sel);
    JoinBlocks(a, t, m, g);
    assert Join(m, "\n") == TypeLine + "\n" + LanguagesExport(sel) + "\n" + DefaultLangExport(sel) by {
      assert m[1..] == [LanguagesExport(sel), DefaultLangExport(sel)];
      JoinTwo(LanguagesExport(sel), DefaultLangExport(sel), "\n");
    }
    Pieces(Imports(sel), Translations(sel), TypeLine, LanguagesExport(sel), DefaultLangExport(sel), Join(g, "\n"));
  }

  lemma TypeLineHasNoNewline()
    ensures NoNewline(TypeLine)
  {
    var a, b := "export type Language = ", "keyof typeof translations;";
    assert NoNewline(a);
    assert NoNewline(b);
    NoNewlineConcat(a, b);
  }

  lemma HeadLineHasNoNewline()
    ensures NoNewline(GetI18nLines[0])
  {
    var a, b := "export function getI18n(", "lang: string | undefined) {";
    assert NoNewline(a);
    assert NoNewline(b);
    NoNewlineConcat(a, b);
  }

  lemma CurrentLangLineHasNoNewline()
    ensures NoNewline(GetI18nLines[1])
  {
    var a, b, c, d := "  const currentLang = ", "(lang && LANGUAGES.includes(", "lang as Language))",
      " ? (lang as Language) : DEFAULT_LANG;";
    assert NoNewline(a) && NoNewline(b);
    NoNewlineConcat(a, b);
    assert NoNewline(c);
    NoNewlineConcat(a + b, c);
    assert NoNewline(d);
    NoNewlineConcat(a + b + c, d);
  }

  lemma FixedLinesHaveNoNewline()
    ensures forall l :: l in GetI18nLines ==> NoNewline(l)
    ensures NoNewline(TypeLine) && NoNewline("") && NoNewline("const translations = {") && NoNewline("};")
  {
    TypeLineHasNoNewline();
    HeadLineHasNoNewline();
    CurrentLangLineHasNoNewline();
    forall k | 2 <= k < |GetI18nLines| ensures NoNewline(GetI18nLines[k]) {
    }
  }

  lemma LanguageLinesHaveNoNewline(l: string)
    requires l in AllLangs
    ensures NoNewline(ImportLine(l)) && NoNewline("  " + l + ",") && NoNewline("'" + l + "'")
  {
    OfferedLanguage(l);
  }

  lemma ExportLinesHaveNoNewline(sel: seq<string>)
    requires ValidSelection(sel)
    ensures NoNewline(LanguagesExport(sel)) && NoNewline(DefaultLangExport(sel))
  {
    LanguagesExportHasNoNewline(sel);
    OfferedLanguage(sel[0]);
    NoNewlineAround("export const DEFAULT_LANG: Language = '", sel[0], "';");
  }

  lemma LanguagesExportHasNoNewline(sel: seq<string>)
    requires ValidSelection(sel)
    ensures NoNewline(LanguagesExport(sel))
  {
    QuotedHaveNoNewline(sel);
    JoinNoNewline(Quoted(sel), ", ");
    NoNewlineAround("export const LANGUAGES: Language[] = [", Join(Quoted(sel), ", "), "];");
  }

  lemma QuotedHaveNoNewline(sel: seq<string>)
    requires ValidSelection(sel)
    ensures forall l :: l in Quoted(sel) ==> NoNewline(l)
  {
    forall k | 0 <= k < |sel| ensures NoNewline(Quoted(sel)[k]) {
      LanguageLinesHaveNoNewline(sel[k]);
    }
  }

  lemma NoNewlineAround(a: string, b: string, c: string)
    requires NoNewline(a) && NoNewline(b) && NoNewline(c)
    ensures NoNewline(a + b + c)
  {
    NoNewlineConcat(a, b);
    NoNewlineConcat(a + b, c);
  }

  lemma ExpectedLinesHaveNoNewline(sel: seq<string>)
    requires ValidSelection(sel)
    ensures forall k :: 0 <= k < |ExpectedLines(sel)| ==> NoNewline(ExpectedLines(sel)[k])
  {
    var e := ExpectedLines(sel);
    var n := |sel|;
    FixedLinesHaveNoNewline();
    ExportLinesHaveNoNewline(sel);
    forall k | 0 <= k < |e| ensures NoNewline(e[k]) {
      if k < n {
        assert e[k] == ImportLine(sel[k]);
        LanguageLinesHaveNoNewline(sel[k]);
      } else if n + 2 <= k < n + 2 + n {
        assert e[k] == "  " + sel[k - n - 2] + ",";
        LanguageLinesHaveNoNewline(sel[k - n - 2]);
      } else if k >= 2 * n + 8 {
        assert e[k] in GetI18nLines;
      }
    }
  }

  lemma {:induction false} JoinNoNewline(parts: seq<string>, sep: string)
    requires NoNewline(sep)
    requires forall l :: l in parts ==> NoNewline(l)
    ensures NoNewline(Join(parts, sep))
  {
    if |parts| > 1 {
      JoinNoNewline(parts[1..], sep);
      NoNewlineConcat(parts[0], sep);
      NoNewlineConcat(parts[0] + sep, Join(parts[1..], sep));
    }
  }

  /** Line by line, the generated module is the import lines, the
      translations object, the three exports and `getI18n`, separated by
      blank lines: trimming removes only the template's outer whitespace. */
  lemma I18nSourceLines(sel: seq<string>)
    requires ValidSelection(sel)
    ensures Lines(I18nSource(sel)) == ExpectedLines(sel)
  {
    var e := ExpectedLines(sel);
    var body := Join(e, "\n");
    TemplateAsLines(sel);
    assert e[0] == ImportLine(sel[0]);
    JoinFirst(e, "\n");
    JoinLast(e, "\n");
    TrimWrapped("\n", body, "\n    ");
    ExpectedLinesHaveNoNewline(sel);
    LinesOfJoin(e);
  }

  // ---------------------------------------------------------------------------
  // Which lines of the generated module are which

  predicate IsImportLine(line: string) {
    StartsWith(line, "import ")
  }

  predicate IsLanguagesLine(line: string) {
    StartsWith(line, "export const LANGUAGES")
  }

  predicate IsDefaultLangLine(line: string) {
    StartsWith(line, "export const DEFAULT_LANG")
  }

  lemma Differs(s: string, prefix: string, k: nat)
    requires k < |s| && k < |prefix| && s[k] != prefix[k]
    ensures !StartsWith(s, prefix)
  {
    if |prefix| <= |s| {
      assert s[..|prefix|][k] == s[k];
    }
  }

  lemma FilterBlank(a: seq<string>, b: seq<string>, p: string -> bool)
    requires !p("")
    ensures Filter(a + [""] + b, p) == Filter(a, p) + Filter(b, p)
  {
    assert Filter([""], p) == [] by {
      assert [""][1..] == [];
    }
    FilterAppend(a, [""], p);
    FilterAppend(a + [""], b, p);
  }

  /** A filter that keeps no blank line sees four blocks separated by blank
      lines as the four blocks. */
  lemma FilterBlocks(a: seq<string>, t: seq<string>, m: seq<string>, g: seq<string>, p: string -> bool)
    requires !p("")
    ensures Filter(a + [""] + t + [""] + m + [""] + g, p)
      == Filter(a, p) + Filter(t, p) + Filter(m, p) + Filter(g, p)
  {
    FilterBlank(a, t, p);
    FilterBlank(a + [""] + t, m, p);
    FilterBlank(a + [""] + t + [""] + m, g, p);
  }

  lemma ImportLinesStart(sel: seq<string>)
    ensures forall l :: l in ImportLines(sel) ==> IsImportLine(l)
  {
    forall k | 0 <= k < |sel| ensures IsImportLine(ImportLines(sel)[k]) {
      ImportLineStart(sel[k]);
    }
  }

  lemma ImportLineStart(l: string)
    ensures IsImportLine(ImportLine(l))
  {
    var rest := l + " from '../i18n/" + l + ".json';";
    assert ImportLine(l) == "import " + rest;
  }

  lemma TranslationBlockStart(sel: seq<string>)
    ensures forall l :: l in TranslationBlock(sel) ==> l != [] && l[0] != 'i' && l[0] != 'e'
  {
    forall l | l in TranslationBlock(sel) ensures l != [] && l[0] != 'i' && l[0] != 'e' {
      if l in TranslationLines(sel) {
        var k :| 0 <= k < |sel| && TranslationLines(sel)[k] == l;
        assert l == "  " + (sel[k] + ",");
      }
    }
  }

  lemma GetI18nLinesStart()
    ensures forall k :: 1 <= k < |GetI18nLines| ==> GetI18nLines[k] != [] && GetI18nLines[k][0] == if k == 7 then '}' else ' '
    ensures |GetI18nLines[0]| > 8 && GetI18nLines[0][..8] == "export f"
  {
    var head, tail := "export function getI18n(", "lang: string | undefined) {";
    assert GetI18nLines[0][..8] == head[..8];
    var a := "  const currentLang = ";
    var rest := "(lang && LANGUAGES.includes(" + "lang as Language))" + " ? (lang as Language) : DEFAULT_LANG;";
    assert GetI18nLines[1] == a + rest;
    assert GetI18nLines[1][0] == a[0];
  }

  lemma ExportBlockStart(sel: seq<string>)
    ensures TypeLine[..8] == "export t"
    ensures StartsWith(LanguagesExport(sel), "export const LANGUAGES")
    ensures |DefaultLangExport(sel)| > 13 && DefaultLangExport(sel)[..14] == "export const D"
  {
    TypeLineStart();
    LanguagesExportStart(sel);
    DefaultLangExportStart(sel);
  }

  lemma TypeLineStart()
    ensures TypeLine[..8] == "export t"
  {
    var t := "export type Language = ";
    assert TypeLine[..8] == t[..8];
  }

  lemma LanguagesExportStart(sel: seq<string>)
    ensures StartsWith(LanguagesExport(sel), "export const LANGUAGES")
  {
    var l := "export const LANGUAGES: Language[] = [";
    assert LanguagesExport(sel)[..22] == l[..22];
  }

  lemma DefaultLangExportStart(sel: seq<string>)
    ensures |DefaultLangExport(sel)| > 13 && DefaultLangExport(sel)[..14] == "export const D"
  {
    var d := "export const DEFAULT_LANG: Language = '";
    assert DefaultLangExport(sel)[..14] == d[..14];
  }

  /** No line that starts with a character other than `i` is an import. */
  lemma NoImportAmong(s: seq<string>)
    requires forall l :: l in s ==> l != [] && l[0] != 'i'
    ensures Filter(s, IsImportLine) == []
  {
    forall l | l in s ensures !IsImportLine(l) {
      Differs(l, "import ", 0);
    }
    FilterNone(s, IsImportLine);
  }

  lemma NoImportInTranslations(sel: seq<string>)
    ensures Filter(TranslationBlock(sel), IsImportLine) == []
  {
    TranslationBlockStart(sel);
    NoImportAmong(TranslationBlock(sel));
  }

  lemma NoImportInExports(sel: seq<string>)
    ensures Filter(ExportBlock(sel), IsImportLine) == []
  {
    ExportBlockStart(sel);
    assert TypeLine[0] == TypeLine[..8][0];
    assert DefaultLangExport(sel)[0] == DefaultLangExport(sel)[..14][0];
    assert LanguagesExport(sel)[0] == LanguagesExport(sel)[..22][0];
    NoImportAmong(ExportBlock(sel));
  }

  lemma NoImportInGetI18n()
    ensures Filter(GetI18nLines, IsImportLine) == []
  {
    GetI18nLinesStart();
    assert GetI18nLines[0][0] == GetI18nLines[0][..8][0];
    forall l | l in GetI18nLines ensures l != [] && l[0] != 'i' {
      var k :| 0 <= k < |GetI18nLines| && GetI18nLines[k] == l;
    }
    NoImportAmong(GetI18nLines);
  }

  lemma OnlyFirstBlock(a: seq<string>, t: seq<string>, m: seq<string>, g: seq<string>, p: string -> bool)
    requires !p("")
    requires forall l :: l in a ==> p(l)
    requires Filter(t, p) == [] && Filter(m, p) == [] && Filter(g, p) == []
    ensures Filter(a + [""] + t + [""] + m + [""] + g, p) == a
  {
    FilterBlocks(a, t, m, g, p);
    FilterAll(a, p);
  }

  lemma ImportsOfExpected(sel: seq<string>)
    ensures Filter(ExpectedLines(sel), IsImportLine) == ImportLines(sel)
  {
    ImportLinesStart(sel);
    NoImportInTranslations(sel);
    NoImportInExports(sel);
    NoImportInGetI18n();
    OnlyFirstBlock(ImportLines(sel), TranslationBlock(sel), ExportBlock(sel), GetI18nLines, IsImportLine);
  }

  /** The module imports exactly the selected languages' JSON files, one
      line each, in selection order. */
  lemma ImportsOfModule(sel: seq<string>)
    requires ValidSelection(sel)
    ensures Filter(Lines(I18nSource(sel)), IsImportLine) == ImportLines(sel)
  {
    I18nSourceLines(sel);
    ImportsOfExpected(sel);
  }

  /** Lines that can start neither `export const LANGUAGES` nor
      `export const DEFAULT_LANG`: they differ at the first or the eighth
      character. */
  lemma NoConstExportAmong(s: seq<string>, p: string -> bool, prefix: string)
    requires forall l :: p(l) <==> StartsWith(l, prefix)
    requires |prefix| > 7 && prefix[0] == 'e' && prefix[7] == 'c'
    requires forall l :: l in s ==> (l != [] && l[0] != 'e') || (|l| > 7 && l[7] != 'c')
    ensures Filter(s, p) == []
  {
    forall l | l in s ensures !p(l) {
      if l != [] && l[0] != 'e' {
        Differs(l, prefix, 0);
      } else {
        Differs(l, prefix, 7);
      }
    }
    FilterNone(s, p);
  }

  lemma ConstExportsOutsideImports(sel: seq<string>, p: string -> bool, prefix: string)
    requires forall l :: p(l) <==> StartsWith(l, prefix)
    requires |prefix| > 7 && prefix[0] == 'e' && prefix[7] == 'c'
    ensures Filter(ImportLines(sel), p) == []
  {
    ImportLinesStart(sel);
    forall l | l in ImportLines(sel) ensures l != [] && l[0] != 'e' {
      assert l[..7][0] == l[0];
    }
    NoConstExportAmong(ImportLines(sel), p, prefix);
  }

  lemma ConstExportsOutsideTranslations(sel: seq<string>, p: string -> bool, prefix: string)
    requires forall l :: p(l) <==> StartsWith(l, prefix)
    requires |prefix| > 7 && prefix[0] == 'e' && prefix[7] == 'c'
    ensures Filter(TranslationBlock(sel), p) == []
  {
    TranslationBlockStart(sel);
    NoConstExportAmong(TranslationBlock(sel), p, prefix);
  }

  lemma ConstExportsOutsideGetI18n(p: string -> bool, prefix: string)
    requires forall l :: p(l) <==> StartsWith(l, prefix)
    requires |prefix| > 7 && prefix[0] == 'e' && prefix[7] == 'c'
    ensures Filter(GetI18nLines, p) == []
  {
    GetI18nLinesStart();
    assert GetI18nLines[0][7] == GetI18nLines[0][..8][7];
    forall l | l in GetI18nLines ensures (l != [] && l[0] != 'e') || (|l| > 7 && l[7] != 'c') {
      var k :| 0 <= k < |GetI18nLines| && GetI18nLines[k] == l;
    }
    NoConstExportAmong(GetI18nLines, p, prefix);
  }

  lemma FilterCons(x: string, s: seq<string>, p: string -> bool)
    ensures Filter([x] + s, p) == (if p(x) then [x] else []) + Filter(s, p)
  {
    assert ([x] + s)[1..] == s;
  }

  lemma TypeLineIsNoConstExport()
    ensures !IsLanguagesLine(TypeLine) && !IsDefaultLangLine(TypeLine)
  {
    ExportBlockStart([]);
    assert TypeLine[7] == TypeLine[..8][7];
    Differs(TypeLine, "export const LANGUAGES", 7);
    Differs(TypeLine, "export const DEFAULT_LANG", 7);
  }

  lemma LanguagesLineKinds(sel: seq<string>)
    ensures IsLanguagesLine(LanguagesExport(sel)) && !IsDefaultLangLine(LanguagesExport(sel))
  {
    ExportBlockStart(sel);
    assert LanguagesExport(sel)[13] == LanguagesExport(sel)[..22][13];
    Differs(LanguagesExport(sel), "export const DEFAULT_LANG", 13);
  }

  lemma DefaultLangLineKinds(sel: seq<string>)
    ensures IsDefaultLangLine(DefaultLangExport(sel)) && !IsLanguagesLine(DefaultLangExport(sel))
  {
    ExportBlockStart(sel);
    assert DefaultLangExport(sel)[13] == DefaultLangExport(sel)[..14][13];
    Differs(DefaultLangExport(sel), "export const LANGUAGES", 13);
    var d := "export const DEFAULT_LANG: Language = '";
    assert DefaultLangExport(sel)[..25] == d[..25];
  }

  lemma ExportBlockLanguagesFilter(sel: seq<string>)
    ensures Filter(ExportBlock(sel), IsLanguagesLine) == [LanguagesExport(sel)]
  {
    TypeLineIsNoConstExport();
    LanguagesLineKinds(sel);
    DefaultLangLineKinds(sel);
    FilterSecondOfThree(TypeLine, LanguagesExport(sel), DefaultLangExport(sel), IsLanguagesLine);
  }

  lemma ExportBlockDefaultLangFilter(sel: seq<string>)
    ensures Filter(ExportBlock(sel), IsDefaultLangLine) == [DefaultLangExport(sel)]
  {
    TypeLineIsNoConstExport();
    LanguagesLineKinds(sel);
    DefaultLangLineKinds(sel);
    FilterThirdOfThree(TypeLine, LanguagesExport(sel), DefaultLangExport(sel), IsDefaultLangLine);
  }

  lemma OnlyThirdBlock(a: seq<string>, t: seq<string>, m: seq<string>, g: seq<string>, p: string -> bool, x: string)
    requires !p("")
    requires Filter(a, p) == [] && Filter(t, p) == [] && Filter(m, p) == [x] && Filter(g, p) == []
    ensures Filter(a + [""] + t + [""] + m + [""] + g, p) == [x]
  {
    FilterBlocks(a, t, m, g, p);
  }

  lemma LanguagesLineOfExpected(sel: seq<string>)
    ensures Filter(ExpectedLines(sel), IsLanguagesLine) == [LanguagesExport(sel)]
  {
    ExportBlockLanguagesFilter(sel);
    ConstExportsOutsideImports(sel, IsLanguagesLine, "export const LANGUAGES");
    ConstExportsOutsideTranslations(sel, IsLanguagesLine, "export const LANGUAGES");
    ConstExportsOutsideGetI18n(IsLanguagesLine, "export const LANGUAGES");
    OnlyThirdBlock(ImportLines(sel), TranslationBlock(sel), ExportBlock(sel), GetI18nLines,
      IsLanguagesLine, LanguagesExport(sel));
  }

  lemma DefaultLangLineOfExpected(sel: seq<string>)
    ensures Filter(ExpectedLines(sel), IsDefaultLangLine) == [DefaultLangExport(sel)]
  {
    ExportBlockDefaultLangFilter(sel);
    ConstExportsOutsideImports(sel, IsDefaultLangLine, "export const DEFAULT_LANG");
    ConstExportsOutsideTranslations(sel, IsDefaultLangLine, "export const DEFAULT_LANG");
    ConstExportsOutsideGetI18n(IsDefaultLangLine, "export const DEFAULT_LANG");
    OnlyThirdBlock(ImportLines(sel), TranslationBlock(sel), ExportBlock(sel), GetI18nLines,
      IsDefaultLangLine, DefaultLangExport(sel));
  }

  /** The module has one `LANGUAGES` line, listing the selected languages
      quoted and in selection order, and one `DEFAULT_LANG` line, naming the
      first selected language (the prompt guarantees there is one). */
  lemma ExportsOfModule(sel: seq<string>)
    requires ValidSelection(sel)
    ensures Filter(Lines(I18nSource(sel)), IsLanguagesLine) == [LanguagesExport(sel)]
    ensures Filter(Lines(I18nSource(sel)), IsDefaultLangLine) == [DefaultLangExport(sel)]
    ensures DefaultLangExport(sel) == "export const DEFAULT_LANG: Language = '" + sel[0] + "';"
  {
    I18nSourceLines(sel);
    LanguagesLineOfExpected(sel);
    DefaultLangLineOfExpected(sel);
  }
}
