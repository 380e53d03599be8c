/** The post-processing step of the project scaffolder (`afterCreation`):
    it settles the template's page and header, prunes the locale files down
    to the chosen languages and writes `utils/i18n.ts` for them. The project
    directory is a map from paths, relative to it, to file contents. */
module Scaffolder {
  import opened Text
  import opened GeneratedI18n

  type Files = map<string, string>

  datatype Template = DefaultTemplate | EmptyTemplate

  const PagePath := "src/pages/[lang]/index.astro"
  const HeaderPath := "src/layouts/Header.astro"
  const I18nUtilPath := "utils/i18n.ts"

  /** The placeholder an `empty` template ships next to a file. */
  function EmptyVariant(path: string): string {
    path + ".empty"
  }

  /** `i18n/<lang>.json`. */
  function LangJson(l: string): string {
    "i18n/" + l + ".json"
  }

  function LangJsonEmpty(l: string): string {
    EmptyVariant(LangJson(l))
  }

  const FixedPaths: set<string> :=
    {PagePath, HeaderPath, EmptyVariant(PagePath), EmptyVariant(HeaderPath), I18nUtilPath}

  function JsonPaths(langs: seq<string>): set<string> {
    set l | l in langs :: LangJson(l)
  }

  function EmptyPaths(langs: seq<string>): set<string> {
    set l | l in langs :: LangJsonEmpty(l)
  }

  /** Every path post-processing may create, change or delete. */
  const TouchedPaths: set<string> := FixedPaths + JsonPaths(AllLangs) + EmptyPaths(AllLangs)

  /** `p` is present in both or in neither, with the same content. */
  predicate SameAt(a: Files, b: Files, p: string) {
    (p in a <==> p in b) && (p in a ==> a[p] == b[p])
  }

  // ---------------------------------------------------------------------------
  // File operations

  /** `fs.unlink(p).catch(() => {})`: a missing file is not an error. */
  function Unlinked(fs: Files, p: string): Files {
    fs - {p}
  }

  /** `fs.rename(src, dst)`: it fails when `src` does not exist; otherwise
      the content moves to `dst`, replacing whatever was there. */
  function Renamed(fs: Files, src: string, dst: string): (r: Option<Files>)
    ensures r.None? <==> src !in fs
    ensures r.Some? ==> dst in r.value && r.value[dst] == fs[src]
    ensures r.Some? && src != dst ==> src !in r.value
    ensures r.Some? ==> forall q :: q != src && q != dst ==> SameAt(fs, r.value, q)
  {
    if src in fs then Some((fs - {src})[dst := fs[src]]) else None
  }

  // ---------------------------------------------------------------------------
  // The phases of afterCreation, as functions of the files before them

  /** How far post-processing got: to the end, or to a rename that failed
      (its rejection ends `afterCreation`), with the files at that point. */
  datatype Run = Finished(files: Files) | Stopped(files: Files)

  function DropTemplateLeftovers(fs: Files): Files {
    Unlinked(Unlinked(fs, EmptyVariant(PagePath)), EmptyVariant(HeaderPath))
  }

  /** The template step: for `empty`, the placeholder page and header replace
      the real ones; either way the placeholders are then removed. */
  function TemplatePhase(fs: Files, t: Template): Run {
    if t == DefaultTemplate then Finished(DropTemplateLeftovers(fs))
    else
      match Renamed(fs, EmptyVariant(PagePath), PagePath)
      case None => Stopped(fs)
      case Some(f1) =>
        match Renamed(f1, EmptyVariant(HeaderPath), HeaderPath)
        case None => Stopped(f1)
        case Some(f2) => Finished(DropTemplateLeftovers(Unlinked(f2, EmptyVariant(HeaderPath))))
  }

  function PruneLang(fs: Files, l: string, sel: seq<string>): Files {
    if l in sel then fs else Unlinked(Unlinked(fs, LangJson(l)), LangJsonEmpty(l))
  }

  /** The locale files of every unselected language among `langs` removed,
      one language after another. */
  function PruneLangs(fs: Files, langs: seq<string>, sel: seq<string>): Files {
    if langs == [] then fs
    else PruneLang(PruneLangs(fs, langs[..|langs| - 1], sel), langs[|langs| - 1], sel)
  }

  /** Each language's placeholder JSON renamed to its JSON, in order; the
      first rename that fails stops the run. */
  function PromoteLangs(fs: Files, langs: seq<string>): Run {
    if langs == [] then Finished(fs)
    else
      match PromoteLangs(fs, langs[..|langs| - 1])
      case Stopped(f) => Stopped(f)
      case Finished(f) =>
        var l := langs[|langs| - 1];
        match Renamed(f, LangJsonEmpty(l), LangJson(l))
        case None => Stopped(f)
        case Some(g) => Finished(g)
  }

  function DropLangEmpties(fs: Files, langs: seq<string>): Files {
    if langs == [] then fs
    else Unlinked(DropLangEmpties(fs, langs[..|langs| - 1]), LangJsonEmpty(langs[|langs| - 1]))
  }

  /** The whole of `afterCreation` on the files the template copy left. */
  function Processed(fs: Files, t: Template, sel: seq<string>): Run {
    match TemplatePhase(fs, t)
    case Stopped(f) => Stopped(f)
    case Finished(f1) =>
      var f2 := PruneLangs(f1, AllLangs, sel);
      var promoted := if t == EmptyTemplate then PromoteLangs(f2, sel) else Finished(f2);
      match promoted
      case Stopped(f) => Stopped(f)
      case Finished(f3) => Finished(DropLangEmpties(f3, AllLangs)[I18nUtilPath := I18nSource(sel)])
  }

  // ---------------------------------------------------------------------------
  // The project directory, changed in place

  class ProjectTree {
    var files: Files

    constructor(files: Files)
      ensures this.files == files
    {
      this.files := files;
    }

    method Unlink(path: string)
      modifies this
      ensures files == Unlinked(old(files), path)
    {
      files := files - {path};
    }

    method Rename(src: string, dst: string) returns (ok: bool)
      modifies this
      ensures ok == (src in old(files))
      ensures ok ==> files == Renamed(old(files), src, dst).value
      ensures !ok ==> files == old(files)
    {
      if src !in files {
        return false;
      }
      files := (files - {src})[dst := files[src]];
      ok := true;
    }

    /** The template step: for `empty` the placeholder page and header are
        promoted, and either way the placeholders are then removed. */
    method SettleTemplate(t: Template) returns (ok: bool)
      modifies this
      ensures ok == TemplatePhase(old(files), t).Finished?
      ensures files == TemplatePhase(old(files), t).files
    {
      if t == EmptyTemplate {
        ok := Rename(EmptyVariant(PagePath), PagePath);
        if !ok {
          return;
        }
        ok := Rename(EmptyVariant(HeaderPath), HeaderPath);
        if !ok {
          return;
        }
        Unlink(EmptyVariant(HeaderPath));
      }
      Unlink(EmptyVariant(PagePath));
      Unlink(EmptyVariant(HeaderPath));
      ok := true;
    }

    /** Removing the locale files of the languages not selected. */
    method PruneLocales(sel: seq<string>)
      modifies this
      ensures files == PruneLangs(old(files), AllLangs, sel)
    {
      for i := 0 to |AllLangs|
        invariant files == PruneLangs(old(files), AllLangs[..i], sel)
      {
        assert AllLangs[..i + 1][..i] == AllLangs[..i];
        if AllLangs[i] !in sel {
          Unlink(LangJson(AllLangs[i]));
          Unlink(LangJsonEmpty(AllLangs[i]));
        }
      }
      assert AllLangs[..|AllLangs|] == AllLangs;
    }

    /** Renaming each selected language's placeholder JSON to its JSON; the
        first rename that fails ends the step. */
    method PromoteLocales(sel: seq<string>) returns (ok: bool)
      modifies this
      ensures ok == PromoteLangs(old(files), sel).Finished?
      ensures files == PromoteLangs(old(files), sel).files
    {
      ok := true;
      for i := 0 to |sel|
        invariant PromoteLangs(old(files), sel[..i]) == Finished(files)
      {
        assert sel[..i + 1][..i] == sel[..i];
        ok := Rename(LangJsonEmpty(sel[i]), LangJson(sel[i]));
        if !ok {
          PromoteStopped(old(files), sel, i + 1);
          return;
        }
      }
      assert sel[..|sel|] == sel;
    }

    /** Removing every language's leftover placeholder JSON. */
    method DropLocalePlaceholders()
      modifies this
      ensures files == DropLangEmpties(old(files), AllLangs)
    {
      for i := 0 to |AllLangs|
        invariant files == DropLangEmpties(old(files), AllLangs[..i])
      {
        assert AllLangs[..i + 1][..i] == AllLangs[..i];
        Unlink(LangJsonEmpty(AllLangs[i]));
      }
      assert AllLangs[..|AllLangs|] == AllLangs;
    }

    /** `afterCreation`: `ok` is false when a rename failed, and the files
        are then as they were at that point. */
    method AfterCreation(t: Template, sel: seq<string>) returns (ok: bool)
      modifies this
      ensures ok == Processed(old(files), t, sel).Finished?
      ensures files == Processed(old(files), t, sel).files
    {
      ok := SettleTemplate(t);
      if !ok {
        return;
      }
      PruneLocales(sel);
      if t == EmptyTemplate {
        ok := PromoteLocales(sel);
        if !ok {
          return;
        }
      }
      DropLocalePlaceholders();
      files := files[I18nUtilPath := I18nSource(sel)];
    }
  }

  /** Once a rename has failed, the later languages change nothing. */
  lemma {:induction false} PromoteStopped(fs: Files, langs: seq<string>, n: nat)
    requires n <= |langs| && PromoteLangs(fs, langs[..n]).Stopped?
    ensures PromoteLangs(fs, langs) == PromoteLangs(fs, langs[..n])
    decreases |langs| - n
  {
    if n < |langs| {
      assert langs[..n + 1][..n] == langs[..n];
      PromoteStopped(fs, langs, n + 1);
    } else {
      assert langs[..n] == langs;
    }
  }

  // ---------------------------------------------------------------------------
  // The phases, each stated as one change to the directory

  predicate NoRepeats(langs: seq<string>) {
    forall i, j :: 0 <= i < j < |langs| ==> langs[i] != langs[j]
  }

  /** Locale paths name their language, a JSON file is never a placeholder,
      and no locale path is one of the fixed paths. */
  lemma LangPathsDistinct(a: string, b: string)
    ensures LangJson(a) != LangJsonEmpty(b)
    ensures LangJson(a) == LangJson(b) ==> a == b
    ensures LangJsonEmpty(a) == LangJsonEmpty(b) ==> a == b
    ensures LangJson(a) !in FixedPaths && LangJsonEmpty(a) !in FixedPaths
  {
    var ja, jb, ea, eb := LangJson(a), LangJson(b), LangJsonEmpty(a), LangJsonEmpty(b);
    assert ja[|ja| - 1] == 'n';
    assert eb[|eb| - 1] == 'y';
    assert ja[5..|ja| - 5] == a && jb[5..|jb| - 5] == b;
    assert ea[..|ea| - 6] == ja && eb[..|eb| - 6] == jb;
    assert ja[0] == 'i' && ea[0] == 'i';
    assert PagePath[0] == 's' && HeaderPath[0] == 's' && I18nUtilPath[0] == 'u';
    assert EmptyVariant(PagePath)[0] == 's' && EmptyVariant(HeaderPath)[0] == 's';
  }

  /** Pruning removes exactly the unselected languages' locale files. */
  lemma {:induction false} PruneLangsRemoves(fs: Files, langs: seq<string>, sel: seq<string>)
    ensures PruneLangs(fs, langs, sel)
      == fs - (set l | l in langs && l !in sel :: LangJson(l))
            - (set l | l in langs && l !in sel :: LangJsonEmpty(l))
  {
    if langs != [] {
      var init, last := langs[..|langs| - 1], langs[|langs| - 1];
      PruneLangsRemoves(fs, init, sel);
      assert langs == init + [last];
      var j := set l | l in langs && l !in sel :: LangJson(l);
      var e := set l | l in langs && l !in sel :: LangJsonEmpty(l);
      var j0 := set l | l in init && l !in sel :: LangJson(l);
      var e0 := set l | l in init && l !in sel :: LangJsonEmpty(l);
      if last in sel {
        assert j == j0 && e == e0;
      } else {
        assert j == j0 + {LangJson(last)};
        assert e == e0 + {LangJsonEmpty(last)};
      }
    }
  }

  /** The final sweep removes every listed language's placeholder JSON. */
  lemma {:induction false} DropLangEmptiesRemoves(fs: Files, langs: seq<string>)
    ensures DropLangEmpties(fs, langs) == fs - EmptyPaths(langs)
  {
    if langs != [] {
      var init, last := langs[..|langs| - 1], langs[|langs| - 1];
      DropLangEmptiesRemoves(fs, init);
      assert langs == init + [last];
      assert EmptyPaths(langs) == EmptyPaths(init) + {LangJsonEmpty(last)};
    }
  }

  /** Promotion succeeds exactly when every language has its placeholder;
      each promoted JSON then holds its placeholder's content and the
      placeholder is gone. */
  lemma {:induction false} PromoteEffect(fs: Files, langs: seq<string>)
    requires NoRepeats(langs)
    ensures PromoteLangs(fs, langs).Finished? <==> forall l :: l in langs ==> LangJsonEmpty(l) in fs
    ensures var r := PromoteLangs(fs, langs);
      r.Finished? ==> forall l :: l in langs ==>
        LangJson(l) in r.files && r.files[LangJson(l)] == fs[LangJsonEmpty(l)] && LangJsonEmpty(l) !in r.files
  {
    if langs != [] {
      var init, last := langs[..|langs| - 1], langs[|langs| - 1];
      assert langs == init + [last];
      assert NoRepeats(init);
      PromoteEffect(fs, init);
      PromoteFrame(fs, init);
      assert last !in init;
      var e, j := LangJsonEmpty(last), LangJson(last);
      forall l | l in init
        ensures LangJson(l) != e && LangJson(l) != j && LangJsonEmpty(l) != e && LangJsonEmpty(l) != j
      {
        LangPathsDistinct(l, last);
        LangPathsDistinct(last, l);
      }
      assert e !in JsonPaths(init) && e !in EmptyPaths(init);
    }
  }

  /** Nothing outside the listed languages' locale paths changes, even when
      promotion stops. */
  lemma {:induction false} PromoteFrame(fs: Files, langs: seq<string>)
    ensures forall p :: p !in JsonPaths(langs) && p !in EmptyPaths(langs) ==>
      SameAt(fs, PromoteLangs(fs, langs).files, p)
  {
    if langs != [] {
      var init, last := langs[..|langs| - 1], langs[|langs| - 1];
      assert langs == init + [last];
      PromoteFrame(fs, init);
      assert JsonPaths(langs) == JsonPaths(init) + {LangJson(last)};
      assert EmptyPaths(langs) == EmptyPaths(init) + {LangJsonEmpty(last)};
    }
  }

  /** The template step: it fails only for `empty` with a placeholder
      missing; it never leaves a placeholder behind; for `empty` the page and
      header take the placeholders' content, for `default` they stay; and no
      other path changes. */
  lemma TemplatePhaseEffect(fs: Files, t: Template)
    ensures var r := TemplatePhase(fs, t);
      r.Stopped? <==> t == EmptyTemplate && (EmptyVariant(PagePath) !in fs || EmptyVariant(HeaderPath) !in fs)
    ensures var r := TemplatePhase(fs, t);
      r.Finished? ==> EmptyVariant(PagePath) !in r.files && EmptyVariant(HeaderPath) !in r.files
    ensures var r := TemplatePhase(fs, t);
      r.Finished? && t == EmptyTemplate ==>
        && PagePath in r.files && r.files[PagePath] == fs[EmptyVariant(PagePath)]
        && HeaderPath in r.files && r.files[HeaderPath] == fs[EmptyVariant(HeaderPath)]
    ensures t == DefaultTemplate ==>
      TemplatePhase(fs, t).Finished? && SameAt(fs, TemplatePhase(fs, t).files, PagePath)
      && SameAt(fs, TemplatePhase(fs, t).files, HeaderPath)
    ensures forall p :: p !in FixedPaths ==> SameAt(fs, TemplatePhase(fs, t).files, p)
  {
  }

  /** Pruning removes both locale files of every unselected language and
      nothing else. */
  lemma PruneEffect(fs: Files, sel: seq<string>)
    ensures forall l :: l in sel ==>
      SameAt(fs, PruneLangs(fs, AllLangs, sel), LangJson(l))
      && SameAt(fs, PruneLangs(fs, AllLangs, sel), LangJsonEmpty(l))
    ensures forall l :: l in AllLangs && l !in sel ==>
      LangJson(l) !in PruneLangs(fs, AllLangs, sel) && LangJsonEmpty(l) !in PruneLangs(fs, AllLangs, sel)
    ensures forall p :: p !in JsonPaths(AllLangs) && p !in EmptyPaths(AllLangs) ==>
      SameAt(fs, PruneLangs(fs, AllLangs, sel), p)
  {
    PruneLangsRemoves(fs, AllLangs, sel);
    var j := set l | l in AllLangs && l !in sel :: LangJson(l);
    var e := set l | l in AllLangs && l !in sel :: LangJsonEmpty(l);
    forall l | l in sel ensures LangJson(l) !in j && LangJson(l) !in e && LangJsonEmpty(l) !in j && LangJsonEmpty(l) !in e {
      forall m | m in AllLangs && m !in sel
        ensures LangJson(l) != LangJson(m) && LangJson(l) != LangJsonEmpty(m)
        ensures LangJsonEmpty(l) != LangJson(m) && LangJsonEmpty(l) != LangJsonEmpty(m)
      {
        LangPathsDistinct(l, m);
        LangPathsDistinct(m, l);
      }
    }
  }

  /** The files between the phases of a run that got past the template step. */
  lemma Stages(fs: Files, t: Template, sel: seq<string>) returns (f1: Files, f2: Files)
    requires ValidSelection(sel)
    requires TemplatePhase(fs, t).Finished?
    ensures f1 == TemplatePhase(fs, t).files && f2 == PruneLangs(f1, AllLangs, sel)
    ensures forall l :: l in sel ==> SameAt(fs, f2, LangJson(l)) && SameAt(fs, f2, LangJsonEmpty(l))
    ensures forall l :: l in AllLangs && l !in sel ==> LangJson(l) !in f2 && LangJsonEmpty(l) !in f2
    ensures forall p :: p !in JsonPaths(AllLangs) && p !in EmptyPaths(AllLangs) ==> SameAt(f1, f2, p)
  {
    f1 := TemplatePhase(fs, t).files;
    f2 := PruneLangs(f1, AllLangs, sel);
    TemplatePhaseEffect(fs, t);
    PruneEffect(f1, sel);
    forall l | l in sel ensures SameAt(fs, f2, LangJson(l)) && SameAt(fs, f2, LangJsonEmpty(l)) {
      LangPathsDistinct(l, l);
    }
  }

  // ---------------------------------------------------------------------------
  // What afterCreation guarantees

  /** A run stops exactly when the `empty` template lacks the page or header
      placeholder, or the placeholder JSON of a selected language. */
  lemma ProcessedStops(fs: Files, t: Template, sel: seq<string>)
    requires ValidSelection(sel)
    ensures Processed(fs, t, sel).Stopped? <==>
      t == EmptyTemplate &&
      (|| EmptyVariant(PagePath) !in fs
       || EmptyVariant(HeaderPath) !in fs
       || exists l :: l in sel && LangJsonEmpty(l) !in fs)
  {
    TemplatePhaseEffect(fs, t);
    if TemplatePhase(fs, t).Finished? {
      var f1, f2 := Stages(fs, t, sel);
      PromoteEffect(f2, sel);
    }
  }

  /** After a finished run no page or header placeholder remains, and
      `utils/i18n.ts` holds the generated module. */
  lemma ProcessedTemplateFiles(fs: Files, t: Template, sel: seq<string>)
    requires ValidSelection(sel)
    ensures var r := Processed(fs, t, sel);
      r.Finished? ==>
        && EmptyVariant(PagePath) !in r.files && EmptyVariant(HeaderPath) !in r.files
        && I18nUtilPath in r.files && r.files[I18nUtilPath] == I18nSource(sel)
  {
    TemplatePhaseEffect(fs, t);
    if TemplatePhase(fs, t).Finished? {
      var f1, f2 := Stages(fs, t, sel);
      var promoted := if t == EmptyTemplate then PromoteLangs(f2, sel) else Finished(f2);
      if t == EmptyTemplate {
        PromoteFrame(f2, sel);
      }
      if promoted.Finished? {
        DropLangEmptiesRemoves(promoted.files, AllLangs);
        FixedPathsAreNotLocales(sel);
      }
    }
  }

  /** For `empty`, a finished run has made the placeholders' content the
      page and the header. */
  lemma ProcessedEmptyTemplate(fs: Files, sel: seq<string>)
    requires ValidSelection(sel)
    ensures var r := Processed(fs, EmptyTemplate, sel);
      r.Finished? ==>
        && EmptyVariant(PagePath) in fs && PagePath in r.files && r.files[PagePath] == fs[EmptyVariant(PagePath)]
        && EmptyVariant(HeaderPath) in fs && HeaderPath in r.files && r.files[HeaderPath] == fs[EmptyVariant(HeaderPath)]
  {
    TemplatePhaseEffect(fs, EmptyTemplate);
    if TemplatePhase(fs, EmptyTemplate).Finished? {
      var f1, f2 := Stages(fs, EmptyTemplate, sel);
      PromoteFrame(f2, sel);
      if PromoteLangs(f2, sel).Finished? {
        DropLangEmptiesRemoves(PromoteLangs(f2, sel).files, AllLangs);
        FixedPathsAreNotLocales(sel);
      }
    }
  }

  /** For `default` a run always finishes, and the page and the header are
      as they were. */
  lemma ProcessedDefaultTemplate(fs: Files, sel: seq<string>)
    requires ValidSelection(sel)
    ensures var r := Processed(fs, DefaultTemplate, sel);
      r.Finished? && SameAt(fs, r.files, PagePath) && SameAt(fs, r.files, HeaderPath)
  {
    TemplatePhaseEffect(fs, DefaultTemplate);
    var f1, f2 := Stages(fs, DefaultTemplate, sel);
    DropLangEmptiesRemoves(f2, AllLangs);
    FixedPathsAreNotLocales(sel);
  }

  /** No fixed path is a locale file of any language. */
  lemma FixedPathsAreNotLocales(sel: seq<string>)
    ensures forall p :: p in FixedPaths ==> p !in JsonPaths(AllLangs) && p !in EmptyPaths(AllLangs)
    ensures forall p :: p in FixedPaths ==> p !in JsonPaths(sel) && p !in EmptyPaths(sel)
  {
    forall p | p in FixedPaths
      ensures p !in JsonPaths(AllLangs) && p !in EmptyPaths(AllLangs)
      ensures p !in JsonPaths(sel) && p !in EmptyPaths(sel)
    {
      forall l ensures LangJson(l) != p && LangJsonEmpty(l) != p {
        LangPathsDistinct(l, l);
      }
    }
  }

  /** After a finished run no placeholder JSON remains, and no JSON of a
      language that was not selected. */
  lemma ProcessedRemovesLocales(fs: Files, t: Template, sel: seq<string>)
    requires ValidSelection(sel)
    ensures var r := Processed(fs, t, sel);
      r.Finished? ==> forall l :: l in AllLangs ==> LangJsonEmpty(l) !in r.files
    ensures var r := Processed(fs, t, sel);
      r.Finished? ==> forall l :: l in AllLangs && l !in sel ==> LangJson(l) !in r.files
  {
    TemplatePhaseEffect(fs, t);
    if TemplatePhase(fs, t).Finished? {
      var f1, f2 := Stages(fs, t, sel);
      var promoted := if t == EmptyTemplate then PromoteLangs(f2, sel) else Finished(f2);
      if t == EmptyTemplate {
        PromoteEffect(f2, sel);
        PromoteFrame(f2, sel);
      }
      if promoted.Finished? {
        DropLangEmptiesRemoves(promoted.files, AllLangs);
        forall l | l in AllLangs
          ensures LangJson(l) != I18nUtilPath && LangJsonEmpty(l) != I18nUtilPath
        {
          LangPathsDistinct(l, l);
        }
        forall l | l in AllLangs && l !in sel
          ensures LangJson(l) !in JsonPaths(sel) && LangJson(l) !in EmptyPaths(sel)
        {
          forall m | m in sel ensures LangJson(l) != LangJson(m) && LangJson(l) != LangJsonEmpty(m) {
            LangPathsDistinct(l, m);
          }
        }
      }
    }
  }

  /** For `empty` each selected language's JSON has its placeholder's
      content after a finished run. */
  lemma ProcessedSelectedLocales(fs: Files, sel: seq<string>)
    requires ValidSelection(sel)
    ensures var r := Processed(fs, EmptyTemplate, sel);
      r.Finished? ==>
        forall l :: l in sel ==>
          LangJsonEmpty(l) in fs && LangJson(l) in r.files && r.files[LangJson(l)] == fs[LangJsonEmpty(l)]
  {
    TemplatePhaseEffect(fs, EmptyTemplate);
    if TemplatePhase(fs, EmptyTemplate).Finished? {
      var f1, f2 := Stages(fs, EmptyTemplate, sel);
      PromoteEffect(f2, sel);
      if PromoteLangs(f2, sel).Finished? {
        DropLangEmptiesRemoves(PromoteLangs(f2, sel).files, AllLangs);
        SelectedJsonSurvives(sel);
      }
    }
  }

  /** For `default` each selected language's JSON is as it was. */
  lemma ProcessedKeepsLocales(fs: Files, sel: seq<string>)
    requires ValidSelection(sel)
    ensures forall l :: l in sel ==> SameAt(fs, Processed(fs, DefaultTemplate, sel).files, LangJson(l))
  {
    TemplatePhaseEffect(fs, DefaultTemplate);
    var f1, f2 := Stages(fs, DefaultTemplate, sel);
    DropLangEmptiesRemoves(f2, AllLangs);
    SelectedJsonSurvives(sel);
  }

  /** A selected language's JSON is neither `utils/i18n.ts` nor a
      placeholder. */
  lemma SelectedJsonSurvives(sel: seq<string>)
    ensures forall l :: l in sel ==> LangJson(l) != I18nUtilPath && LangJson(l) !in EmptyPaths(AllLangs)
  {
    forall l | l in sel
      ensures LangJson(l) != I18nUtilPath && LangJson(l) !in EmptyPaths(AllLangs)
    {
      LangPathsDistinct(l, l);
      forall m | m in AllLangs ensures LangJson(l) != LangJsonEmpty(m) {
        LangPathsDistinct(l, m);
      }
    }
  }

  /** Every path other than the page, the header, their placeholders,
      `utils/i18n.ts` and the five languages' locale files is as it was,
      whether or not the run finished. */
  lemma ProcessedFrame(fs: Files, t: Template, sel: seq<string>)
    requires ValidSelection(sel)
    ensures forall p :: p !in TouchedPaths ==> SameAt(fs, Processed(fs, t, sel).files, p)
  {
    TemplatePhaseEffect(fs, t);
    if TemplatePhase(fs, t).Finished? {
      var f1, f2 := Stages(fs, t, sel);
      var promoted := if t == EmptyTemplate then PromoteLangs(f2, sel) else Finished(f2);
      if t == EmptyTemplate {
        PromoteFrame(f2, sel);
        assert JsonPaths(sel) <= JsonPaths(AllLangs) && EmptyPaths(sel) <= EmptyPaths(AllLangs);
      }
      if promoted.Finished? {
        DropLangEmptiesRemoves(promoted.files, AllLangs);
      }
    }
  }
}
